/** Folder ingestion as a state machine over manifest writes, with a crash possible between any two steps. */
module FolderProtocol {
  import opened Common
  import opened Manifest

  /** Where a folder run is; the file in work is the head of the queue. */
  datatype Phase =
    | Idle
    | Synced                // manifest synchronized in memory, not yet written
    | Ready                 // about to take the next file or to finish
    | Marked                // RUNNING in memory, not yet written
    | Ingesting             // RUNNING on disk
    | Ingested(ok: bool)    // the document ingest has returned
    | Recorded(ok: bool)    // result in memory, not yet written

  datatype State = State(
    disk: seq<Entry>,          // the manifest file
    memory: seq<Entry>,        // the manifest object of the run
    queue: seq<string>,
    phase: Phase,
    completed: set<string>,    // documents whose ingest has completed, ever
    marks: map<string, nat>    // RUNNING writes so far, by path
  )

  function Marks(s: State, path: string): nat {
    if path in s.marks then s.marks[path] else 0
  }

  // ---------- steps ----------

  /** Load the manifest, synchronize it with the files found, and select. */
  function Start(s: State, names: seq<string>, onlyFailed: bool, limit: Option<nat>): State {
    var memory := Synchronize(s.disk, names);
    s.(memory := memory, queue := Select(names, memory, onlyFailed, limit), phase := Synced)
  }

  function Write(s: State, phase: Phase): State {
    s.(disk := s.memory, phase := phase)
  }

  function Mark(s: State): State
    requires s.queue != []
  {
    s.(memory := SetStatus(s.memory, s.queue[0], Running, 1), phase := Marked)
  }

  function WriteMark(s: State): State
    requires s.queue != []
  {
    Write(s, Ingesting).(marks := s.marks[s.queue[0] := Marks(s, s.queue[0]) + 1])
  }

  /** The document ingest ran to completion (`done`) or not, and the attempt counts as a success (`ok`) or not. */
  function Ingest(s: State, done: bool, ok: bool): State
    requires s.queue != []
  {
    s.(completed := if done then s.completed + {s.queue[0]} else s.completed, phase := Ingested(ok))
  }

  function Record(s: State, ok: bool): State
    requires s.queue != []
  {
    s.(memory := SetStatus(s.memory, s.queue[0], if ok then Succeeded else Failed, 0), phase := Recorded(ok))
  }

  function WriteRecord(s: State, stop: bool): State
    requires s.queue != []
  {
    Write(s, Ready).(queue := if stop then [] else s.queue[1..])
  }

  /** A crash loses the run and its memory; the manifest file and the stored documents stay. */
  function Crash(s: State): State {
    s.(memory := [], queue := [], phase := Idle)
  }

  ghost predicate Step(s: State, t: State) {
    || (s.phase == Idle && exists names: seq<string>, onlyFailed, limit :: t == Start(s, names, onlyFailed, limit))
    || (s.phase == Synced && t == Write(s, Ready))
    || (s.phase == Ready && s.queue != [] && t == Mark(s))
    || (s.phase == Marked && s.queue != [] && t == WriteMark(s))
    || (s.phase == Ingesting && s.queue != [] && exists done: bool, ok: bool :: (ok ==> done) && t == Ingest(s, done, ok))
    || (s.phase.Ingested? && s.queue != [] && t == Record(s, s.phase.ok))
    || (s.phase.Recorded? && s.queue != [] && exists stop: bool :: (stop ==> !s.phase.ok) && t == WriteRecord(s, stop))
    || (s.phase == Ready && s.queue == [] && t == Write(s, Idle))
    || t == Crash(s)
  }

  // ---------- invariant ----------

  predicate IsRunning(files: seq<Entry>, path: string) {
    Find(files, path).Some? && Find(files, path).value.status == Running
  }

  predicate IsSucceeded(files: seq<Entry>, path: string) {
    Find(files, path).Some? && Find(files, path).value.status == Succeeded
  }

  ghost predicate AtMostOneRunning(files: seq<Entry>) {
    forall p, q :: IsRunning(files, p) && IsRunning(files, q) ==> p == q
  }

  ghost predicate OnlyRunning(files: seq<Entry>, path: string) {
    forall p :: IsRunning(files, p) ==> p == path
  }

  ghost predicate NoneRunning(files: seq<Entry>) {
    forall p :: !IsRunning(files, p)
  }

  /** Attempts are RUNNING writes, and what is marked SUCCEEDED has been ingested. */
  ghost predicate Honest(files: seq<Entry>, s: State) {
    && (forall p :: Attempts(files, p) == Marks(s, p))
    && (forall p :: IsSucceeded(files, p) ==> p in s.completed)
  }

  ghost predicate DiskInvariant(s: State) {
    WellFormed(s.disk) && AtMostOneRunning(s.disk) && Honest(s.disk, s)
  }

  /** What holds of the run's memory in each phase. */
  ghost predicate RunInvariant(s: State) {
    && WellFormed(s.memory)
    && match s.phase
       case Idle => true
       case Synced => Honest(s.memory, s) && NoneRunning(s.memory)
       case Ready => Honest(s.memory, s) && NoneRunning(s.memory)
       case Marked =>
         && s.queue != [] && OnlyRunning(s.memory, s.queue[0])
         && (forall p :: Attempts(s.memory, p) == Marks(s, p) + if p == s.queue[0] then 1 else 0)
         && (forall p :: IsSucceeded(s.memory, p) ==> p in s.completed)
       case Ingesting => s.queue != [] && OnlyRunning(s.memory, s.queue[0]) && Honest(s.memory, s)
       case Ingested(ok) =>
         s.queue != [] && OnlyRunning(s.memory, s.queue[0]) && Honest(s.memory, s) && (ok ==> s.queue[0] in s.completed)
       case Recorded(_) => s.queue != [] && NoneRunning(s.memory) && Honest(s.memory, s)
  }

  ghost predicate Invariant(s: State) {
    DiskInvariant(s) && (s.phase != Idle ==> RunInvariant(s))
  }

  // ---------- each step keeps it ----------

  lemma StartKeeps(s: State, names: seq<string>, onlyFailed: bool, limit: Option<nat>)
    requires Invariant(s)
    ensures Invariant(Start(s, names, onlyFailed, limit))
  {
    hide Find, UniquePaths, Synchronize, Select;
    SynchronizeSpec(s.disk, names);
    var t := Start(s, names, onlyFailed, limit);
    forall p ensures Attempts(t.memory, p) == Marks(t, p) {
      assert Attempts(s.disk, p) == Marks(s, p);
      assert Find(t.memory, p) == SyncedEntry(Find(s.disk, p), p, names);
    }
    assert NoneRunning(t.memory);
  }

  lemma WriteKeeps(s: State)
    requires Invariant(s) && (s.phase == Synced || (s.phase == Ready && s.queue == []))
    ensures Invariant(Write(s, Ready)) && Invariant(Write(s, Idle))
  {
    hide Find, UniquePaths;
  }

  lemma MarkKeeps(s: State)
    requires Invariant(s) && s.phase == Ready && s.queue != []
    ensures Invariant(Mark(s))
  {
    hide Find, UniquePaths, SetStatus, Attempts;
    var q := s.queue[0];
    SetStatusSpec(s.memory, q, Running, 1);
    AttemptsAfterSet(s.memory, q, Running, 1);
    forall p | IsRunning(Mark(s).memory, p) ensures p == q {
      assert !IsRunning(s.memory, p);
    }
  }

  lemma AttemptsAfterSet(files: seq<Entry>, path: string, status: Status, delta: nat)
    requires UniquePaths(files)
    ensures var after := SetStatus(files, path, status, delta);
      forall p :: Attempts(after, p) == Attempts(files, p) + if p == path then delta else 0
  {
    hide Find, UniquePaths, SetStatus;
    SetStatusSpec(files, path, status, delta);
  }

  lemma WriteMarkKeeps(s: State)
    requires Invariant(s) && s.phase == Marked && s.queue != []
    ensures Invariant(WriteMark(s))
  {
    hide Find, UniquePaths, Attempts;
    assert forall p :: Marks(WriteMark(s), p) == Marks(s, p) + if p == s.queue[0] then 1 else 0;
  }

  lemma IngestKeeps(s: State, done: bool, ok: bool)
    requires Invariant(s) && s.phase == Ingesting && s.queue != [] && (ok ==> done)
    ensures Invariant(Ingest(s, done, ok))
  {
    hide Find, UniquePaths, Attempts;
  }

  lemma RecordKeeps(s: State)
    requires Invariant(s) && s.phase.Ingested? && s.queue != []
    ensures Invariant(Record(s, s.phase.ok))
  {
    hide Find, UniquePaths, SetStatus, Attempts;
    var q, status := s.queue[0], if s.phase.ok then Succeeded else Failed;
    SetStatusSpec(s.memory, q, status, 0);
    AttemptsAfterSet(s.memory, q, status, 0);
    forall p ensures !IsRunning(Record(s, s.phase.ok).memory, p) {
      assert IsRunning(s.memory, p) ==> p == q;
    }
  }

  lemma WriteRecordKeeps(s: State, stop: bool)
    requires Invariant(s) && s.phase.Recorded? && s.queue != []
    ensures Invariant(WriteRecord(s, stop))
  {
    hide Find, UniquePaths, Attempts;
  }

  lemma CrashKeeps(s: State)
    requires Invariant(s)
    ensures Invariant(Crash(s))
  {
  }

  lemma StepKeepsInvariant(s: State, t: State)
    requires Invariant(s) && Step(s, t)
    ensures Invariant(t)
  {
    hide Invariant;
    if t == Crash(s) {
      CrashKeeps(s);
    } else if s.phase == Idle {
      var names: seq<string>, onlyFailed, limit :| t == Start(s, names, onlyFailed, limit);
      StartKeeps(s, names, onlyFailed, limit);
    } else if s.phase == Ready && s.queue != [] {
      MarkKeeps(s);
    } else if s.phase == Marked {
      WriteMarkKeeps(s);
    } else if s.phase == Ingesting {
      var done: bool, ok: bool :| (ok ==> done) && t == Ingest(s, done, ok);
      IngestKeeps(s, done, ok);
    } else if s.phase.Ingested? {
      RecordKeeps(s);
    } else if s.phase.Recorded? {
      var stop: bool :| t == WriteRecord(s, stop);
      WriteRecordKeeps(s, stop);
    } else {
      WriteKeeps(s);
    }
  }

  // ---------- SUCCEEDED and repeated files ----------

  /** Nothing that is SUCCEEDED on disk has lost that status in memory. */
  ghost predicate KeepsSucceeded(s: State) {
    forall p :: IsSucceeded(s.disk, p) ==> IsSucceeded(s.memory, p)
  }

  ghost predicate QueueOpen(s: State, queue: seq<string>) {
    forall p :: p in queue ==> !IsSucceeded(s.memory, p)
  }

  /** What a run keeps up while no file comes twice in its queue: it is not about to take SUCCEEDED off the disk. */
  ghost predicate Protected(s: State) {
    s.phase != Idle ==>
      && KeepsSucceeded(s)
      && (s.phase == Synced || s.phase == Ready ==> QueueOpen(s, s.queue))
      && (s.phase != Synced && s.phase != Ready ==> s.queue != [] && QueueOpen(s, s.queue[1..]))
      && (s.phase == Marked ==> !IsSucceeded(s.memory, s.queue[0]))
      && (s.phase != Synced && s.phase != Ready && !s.phase.Recorded? ==> !IsSucceeded(s.disk, s.queue[0]))
  }

  lemma StartProtects(s: State, names: seq<string>, onlyFailed: bool, limit: Option<nat>)
    ensures Protected(Start(s, names, onlyFailed, limit))
  {
    hide Find, UniquePaths, Synchronize, Select;
    SynchronizeSpec(s.disk, names);
    SelectSelects(names, Synchronize(s.disk, names), onlyFailed, limit);
  }

  lemma QueueTail(s: State)
    requires QueueOpen(s, s.queue) && s.queue != [] && NoDuplicates(s.queue)
    ensures QueueOpen(s, s.queue[1..]) && s.queue[0] !in s.queue[1..] && !IsSucceeded(s.memory, s.queue[0])
  {
    assert s.queue == [s.queue[0]] + s.queue[1..];
    NoDuplicatesAppend([s.queue[0]], s.queue[1..]);
  }

  lemma MarkProtects(s: State)
    requires Invariant(s) && Protected(s) && s.phase == Ready && s.queue != [] && NoDuplicates(s.queue)
    ensures Protected(Mark(s))
  {
    hide Find, UniquePaths, SetStatus, Attempts;
    QueueTail(s);
    SetStatusSpec(s.memory, s.queue[0], Running, 1);
  }

  lemma RecordProtects(s: State)
    requires Invariant(s) && Protected(s) && s.phase.Ingested? && s.queue != [] && NoDuplicates(s.queue)
    ensures Protected(Record(s, s.phase.ok))
  {
    hide Find, UniquePaths, SetStatus, Attempts;
    SetStatusSpec(s.memory, s.queue[0], if s.phase.ok then Succeeded else Failed, 0);
    assert s.queue[0] !in s.queue[1..] by {
      assert s.queue == [s.queue[0]] + s.queue[1..];
      NoDuplicatesAppend([s.queue[0]], s.queue[1..]);
    }
  }

  lemma StepProtects(s: State, t: State)
    requires Invariant(s) && Protected(s) && Step(s, t) && NoDuplicates(s.queue)
    ensures Protected(t)
  {
    hide Find, UniquePaths, SetStatus, Synchronize, Select, Invariant, NoDuplicates;
    if t == Crash(s) {
    } else if s.phase == Idle {
      var names: seq<string>, onlyFailed, limit :| t == Start(s, names, onlyFailed, limit);
      StartProtects(s, names, onlyFailed, limit);
    } else if s.phase == Ready && s.queue != [] {
      MarkProtects(s);
    } else if s.phase.Ingested? {
      RecordProtects(s);
    }
  }

  /** A persisted SUCCEEDED entry stays SUCCEEDED. */
  lemma StepKeepsSucceeded(s: State, t: State, path: string)
    requires Protected(s) && Step(s, t) && IsSucceeded(s.disk, path)
    ensures IsSucceeded(t.disk, path)
  {
    hide Find, UniquePaths, Attempts, SetStatus, Synchronize, Select;
  }

  /** The queue of a run keeps its files distinct. */
  lemma StepKeepsDistinct(s: State, t: State)
    requires Step(s, t) && NoDuplicates(s.queue) && (s.phase != Idle || t.phase != Synced)
    ensures NoDuplicates(t.queue)
  {
    hide NoDuplicates, Find, SetStatus, Synchronize, Select;
    if s.queue != [] {
      assert s.queue == [s.queue[0]] + s.queue[1..];
      NoDuplicatesAppend([s.queue[0]], s.queue[1..]);
    }
    NothingTwice<string>();
  }

  lemma NothingTwice<T(!new)>()
    ensures NoDuplicates<T>([])
  {
  }

  // ---------- whole histories ----------

  /** No manifest yet, nothing ingested. */
  const Fresh := State([], [], [], Idle, {}, map[])

  /** A history of folder runs and crashes, in any order. */
  ghost predicate History(states: seq<State>) {
    && states != [] && states[0] == Fresh
    && forall i :: 0 <= i < |states| - 1 ==> Step(states[i], states[i + 1])
  }

  lemma FreshInvariant()
    ensures Invariant(Fresh)
  {
  }

  lemma {:induction false} HistoryInvariant(states: seq<State>, i: nat)
    requires History(states) && i < |states|
    ensures Invariant(states[i])
  {
    hide Invariant, Step;
    if i == 0 {
      FreshInvariant();
    } else {
      HistoryInvariant(states, i - 1);
      StepKeepsInvariant(states[i - 1], states[i]);
    }
  }

  /** Every manifest that is ever on disk has one entry for each path in sorted order, at most one RUNNING entry,
      attempts that count the RUNNING writes of each path, and SUCCEEDED only for completed documents. */
  lemma ManifestSafety(states: seq<State>, i: nat)
    requires History(states) && i < |states|
    ensures WellFormed(states[i].disk)
    ensures AtMostOneRunning(states[i].disk)
    ensures forall path :: Attempts(states[i].disk, path) == Marks(states[i], path)
    ensures forall path :: IsSucceeded(states[i].disk, path) ==> path in states[i].completed
  {
    hide Find, Step, History, RunInvariant;
    HistoryInvariant(states, i);
  }

  /** No run of the history has selected a file twice. */
  ghost predicate DistinctRuns(states: seq<State>) {
    forall i :: 0 <= i < |states| && states[i].phase == Synced ==> NoDuplicates(states[i].queue)
  }

  lemma {:induction false} HistoryProtects(states: seq<State>, i: nat)
    requires History(states) && DistinctRuns(states) && i < |states|
    ensures Invariant(states[i]) && Protected(states[i]) && NoDuplicates(states[i].queue)
  {
    hide Invariant, Step, Protected, NoDuplicates;
    if i == 0 {
      FreshInvariant();
      FreshIsProtected();
    } else {
      HistoryProtects(states, i - 1);
      StepKeepsInvariant(states[i - 1], states[i]);
      StepProtects(states[i - 1], states[i]);
      if states[i].phase != Synced {
        StepKeepsDistinct(states[i - 1], states[i]);
      }
    }
  }

  lemma FreshIsProtected()
    ensures Protected(Fresh) && NoDuplicates(Fresh.queue)
  {
  }

  /** SUCCEEDED is never left, whatever runs and crashes follow, unless a run selects a file twice. */
  lemma {:induction false} SucceededIsFinal(states: seq<State>, i: nat, j: nat, path: string)
    requires History(states) && DistinctRuns(states) && i <= j < |states| && IsSucceeded(states[i].disk, path)
    ensures IsSucceeded(states[j].disk, path)
  {
    hide Invariant, Step, IsSucceeded, DistinctRuns, Protected;
    if i < j {
      SucceededIsFinal(states, i, j - 1, path);
      HistoryProtects(states, j - 1);
      StepKeepsSucceeded(states[j - 1], states[j], path);
    }
  }

  // ---------- runs whose ingests all succeed ----------

  /** The next state of a run whose ingests all succeed. */
  function SuccessStep(s: State): State {
    match s.phase
    case Idle => s
    case Synced => Write(s, Ready)
    case Ready => if s.queue == [] then Write(s, Idle) else Mark(s)
    case Marked => if s.queue == [] then s else WriteMark(s)
    case Ingesting => if s.queue == [] then s else Ingest(s, true, true)
    case Ingested(ok) => if s.queue == [] then s else Record(s, ok)
    case Recorded(_) => if s.queue == [] then s else WriteRecord(s, false)
  }

  function SuccessRun(s: State, n: nat): State {
    if n == 0 then s else SuccessStep(SuccessRun(s, n - 1))
  }

  /** Such a run takes a SUCCEEDED off the disk again. */
  ghost predicate UndoesSuccess(s: State, n: nat, path: string) {
    IsSucceeded(SuccessRun(s, n).disk, path) && !IsSucceeded(SuccessRun(s, n + 1).disk, path)
  }

  lemma SuccessStepIsStep(s: State)
    requires Invariant(s) && s.phase != Idle
    ensures Step(s, SuccessStep(s))
  {
    hide DiskInvariant, Find, WellFormed, Attempts, Mark, Write, WriteMark, Record, WriteRecord, Ingest;
  }

  lemma {:induction false} SuccessRunAdds(s: State, m: nat, n: nat)
    ensures SuccessRun(s, m + n) == SuccessRun(SuccessRun(s, m), n)
  {
    hide SuccessStep;
    if n > 0 {
      SuccessRunAdds(s, m, n - 1);
    }
  }

  /** While the queue's files are distinct, no success is undone. */
  lemma {:induction false} DistinctRunProtects(s: State, n: nat)
    requires Invariant(s) && Protected(s) && NoDuplicates(s.queue)
    ensures var t := SuccessRun(s, n); Invariant(t) && Protected(t) && NoDuplicates(t.queue)
  {
    hide Invariant, Protected, NoDuplicates, SuccessStep;
    if n > 0 {
      DistinctRunProtects(s, n - 1);
      var t := SuccessRun(s, n - 1);
      if t.phase == Idle {
        IdleStays(t);
      } else {
        hide Step;
        SuccessStepIsStep(t);
        StepKeepsInvariant(t, SuccessStep(t));
        StepProtects(t, SuccessStep(t));
        StepKeepsDistinct(t, SuccessStep(t));
      }
    }
  }

  lemma IdleStays(s: State)
    requires s.phase == Idle
    ensures SuccessStep(s) == s
  {
  }

  lemma DistinctRunUndoesNothing(s: State, n: nat, path: string)
    requires Invariant(s) && Protected(s) && NoDuplicates(s.queue)
    ensures !UndoesSuccess(s, n, path)
  {
    hide Invariant, Protected, NoDuplicates, IsSucceeded;
    DistinctRunProtects(s, n);
    var t := SuccessRun(s, n);
    hide SuccessStep;
    if t.phase == Idle {
      IdleStays(t);
    } else {
      SuccessStepIsStep(t);
      hide Step;
      if IsSucceeded(t.disk, path) {
        StepKeepsSucceeded(t, SuccessStep(t), path);
      }
    }
  }

  /** Between two files: what is in memory is on disk. */
  ghost predicate BetweenFiles(s: State) {
    s.phase == Ready && s.disk == s.memory && UniquePaths(s.memory)
  }

  lemma OneStepOn(s: State, n: nat, t: State)
    requires SuccessRun(s, n) == t
    ensures SuccessRun(s, n + 1) == SuccessStep(t)
  {
  }

  lemma FiveStepsOn(s: State, s1: State, s2: State, s3: State, s4: State)
    requires SuccessStep(s) == s1 && SuccessStep(s1) == s2 && SuccessStep(s2) == s3 && SuccessStep(s3) == s4
    ensures SuccessRun(s, 1) == s1 && SuccessRun(s, 2) == s2 && SuccessRun(s, 5) == SuccessStep(s4)
  {
    SuccessRunZero(s);
    hide SuccessRun, SuccessStep;
    OneStepOn(s, 0, s);
    OneStepOn(s, 1, s1);
    OneStepOn(s, 2, s2);
    OneStepOn(s, 3, s3);
    OneStepOn(s, 4, s4);
  }

  /** The five steps of one file. */
  lemma OneFile(s: State)
    requires BetweenFiles(s) && s.queue != []
    ensures var t := SuccessRun(s, 5);
      && BetweenFiles(t) && t.queue == s.queue[1..]
      && forall p :: IsSucceeded(t.disk, p) <==> p == s.queue[0] || IsSucceeded(s.disk, p)
    ensures SuccessRun(s, 1).disk == s.disk && !IsSucceeded(SuccessRun(s, 2).disk, s.queue[0])
  {
    hide Find, UniquePaths, SetStatus, SuccessRun;
    var q := s.queue[0];
    SetStatusSpec(s.memory, q, Running, 1);
    SetStatusSpec(SetStatus(s.memory, q, Running, 1), q, Succeeded, 0);
    var s1 := Mark(s);
    var s2 := WriteMark(s1);
    var s3 := Ingest(s2, true, true);
    var s4 := Record(s3, true);
    assert SuccessStep(s) == s1 && SuccessStep(s1) == s2 && SuccessStep(s2) == s3 && SuccessStep(s3) == s4;
    FiveStepsOn(s, s1, s2, s3, s4);
  }

  /** After the steps of `k` files, those are marked SUCCEEDED on disk. */
  lemma {:induction false} SomeFiles(s: State, k: nat)
    requires BetweenFiles(s) && k <= |s.queue|
    ensures var t := SuccessRun(s, 5 * k);
      && BetweenFiles(t) && t.queue == s.queue[k..]
      && forall p :: IsSucceeded(t.disk, p) <==> p in s.queue[..k] || IsSucceeded(s.disk, p)
  {
    hide BetweenFiles, IsSucceeded, SuccessRun;
    if k == 0 {
      SuccessRunZero(s);
      assert s.queue[0..] == s.queue;
    } else {
      SomeFiles(s, k - 1);
      var t := SuccessRun(s, 5 * (k - 1));
      SuccessRunAdds(s, 5 * (k - 1), 5);
      OneFile(t);
      assert s.queue[..k] == s.queue[..k - 1] + [s.queue[k - 1]];
      assert s.queue[k..] == s.queue[k - 1..][1..];
    }
  }

  lemma SuccessRunZero(s: State)
    ensures SuccessRun(s, 0) == s
  {
  }

  /** The second turn of a file takes its SUCCEEDED off the disk. */
  lemma SecondTurnUndoes(s: State, i: nat, j: nat)
    requires BetweenFiles(s) && i < j < |s.queue| && s.queue[i] == s.queue[j]
    ensures UndoesSuccess(s, SecondTurn(j), s.queue[j])
  {
    hide BetweenFiles, IsSucceeded, SuccessRun;
    SomeFiles(s, j);
    var t := SuccessRun(s, 5 * j);
    assert s.queue[j] == s.queue[..j][i] && t.queue[0] == s.queue[j];
    OneFile(t);
    SuccessRunAdds(s, 5 * j, 1);
    SuccessRunAdds(s, 5 * j, 2);
  }

  /** A run whose ingests all succeed takes a SUCCEEDED off the disk in between exactly when it has selected some
      file twice. A file that is found twice, say through two symbolic links, is so selected unless it had
      succeeded before, is filtered out, or comes again only behind the limit. */
  lemma RepeatedFileUndoesSuccess(s: State, names: seq<string>, onlyFailed: bool, limit: Option<nat>)
    requires Invariant(s) && s.phase == Idle
    ensures (exists n: nat, path :: UndoesSuccess(Start(s, names, onlyFailed, limit), n, path))
       <==> !NoDuplicates(Select(names, Synchronize(s.disk, names), onlyFailed, limit))
  {
    var start := Start(s, names, onlyFailed, limit);
    StartKeeps(s, names, onlyFailed, limit);
    StartProtects(s, names, onlyFailed, limit);
    if NoDuplicates(start.queue) {
      hide UndoesSuccess, Invariant, Protected, NoDuplicates, Start;
      forall n: nat, path ensures !UndoesSuccess(start, n, path) {
        DistinctRunUndoesNothing(start, n, path);
      }
    } else {
      hide UndoesSuccess, Invariant, Protected, Start;
      var n, path := RepeatedRunUndoes(s, names, onlyFailed, limit);
    }
  }

  lemma RepeatedRunUndoes(s: State, names: seq<string>, onlyFailed: bool, limit: Option<nat>) returns (n: nat, path: string)
    requires !NoDuplicates(Start(s, names, onlyFailed, limit).queue)
    ensures UndoesSuccess(Start(s, names, onlyFailed, limit), n, path)
  {
    hide *;
    var start := Start(s, names, onlyFailed, limit);
    StartIsWritten(s, names, onlyFailed, limit);
    var i, j := Repetition(start.queue);
    SuccessRunOne(start);
    n, path := 1 + SecondTurn(j), start.queue[j];
    SecondTurnOfStart(start, Write(start, Ready), i, j);
  }

  lemma SecondTurnOfStart(start: State, ready: State, i: nat, j: nat)
    requires SuccessRun(start, 1) == ready && ready.queue == start.queue && BetweenFiles(ready)
    requires i < j < |start.queue| && start.queue[i] == start.queue[j]
    ensures UndoesSuccess(start, 1 + SecondTurn(j), start.queue[j])
  {
    hide *;
    SecondTurnUndoes(ready, i, j);
    UndoneLater(start, 1, ready, SecondTurn(j), start.queue[j]);
  }

  /** After how many steps the file at place `j` of the queue is about to be marked on disk. */
  function SecondTurn(j: nat): nat {
    5 * j + 1
  }

  lemma Repetition(queue: seq<string>) returns (i: nat, j: nat)
    requires !NoDuplicates(queue)
    ensures i < j < |queue| && queue[i] == queue[j]
  {
    i, j :| 0 <= i < j < |queue| && queue[i] == queue[j];
  }

  lemma StartIsWritten(s: State, names: seq<string>, onlyFailed: bool, limit: Option<nat>)
    ensures var start := Start(s, names, onlyFailed, limit); var ready := Write(start, Ready);
      SuccessStep(start) == ready && ready.queue == start.queue && BetweenFiles(ready)
  {
    SynchronizeSpec(s.disk, names);
    hide Synchronize, Select, UniquePaths;
  }

  lemma UndoneLater(s: State, m: nat, t: State, n: nat, path: string)
    requires SuccessRun(s, m) == t && UndoesSuccess(t, n, path)
    ensures UndoesSuccess(s, m + n, path)
  {
    hide IsSucceeded, SuccessRun;
    SuccessRunAdds(s, m, n);
    SuccessRunAdds(s, m, n + 1);
  }

  lemma SuccessRunOne(s: State)
    ensures SuccessRun(s, 1) == SuccessStep(s)
  {
    assert SuccessRun(s, 0) == s;
  }

  /** A first run over a folder that lists one file twice. */
  lemma RepeatedFileExample()
    ensures Select(["a", "a"], Synchronize(Fresh.disk, ["a", "a"]), false, None) == ["a", "a"]
    ensures exists n: nat, path :: UndoesSuccess(Start(Fresh, ["a", "a"], false, None), n, path)
  {
    var names, files := ["a", "a"], Synchronize([], ["a", "a"]);
    SynchronizeSpec([], names);
    assert Selectable(Find(files, "a"), false);
    assert names[..1] == ["a"] && names[..1][..0] == [];
    assert SelectAll(names[..1], files, false) == ["a"];
    assert Select(names, files, false, None) == names;
    assert names[0] == names[1];
    FreshInvariant();
    hide Synchronize, Select, Find, UniquePaths, UndoesSuccess, Start;
    RepeatedFileUndoesSuccess(Fresh, names, false, None);
  }
}

/** `FolderIngestWorker`: the methods that carry out the protocol. */
module FolderIngest {
  import opened Common
  import opened Ordering
  import opened Manifest
  import opened FolderProtocol

  /** How one document ingest ends: it may complete and still be reported as failed when closing the store fails. */
  datatype DocumentOutcome = Completed | CompletedThenFailed | FailedEarly
  {
    predicate Done() { !FailedEarly? }
    predicate Ok() { Completed? }
  }

  type Ingester = string -> DocumentOutcome

  datatype FolderResult = FolderResult(
    matched: nat, skipped: nat, processed: nat, failed: nat, ok: bool, stoppedOnError: bool
  )

  /** The files that a run gets to: all of them, or up to the first failure. */
  function Taken(queue: seq<string>, ingest: Ingester, stopOnError: bool): (taken: seq<string>)
    ensures |taken| <= |queue|
  {
    if queue == [] then []
    else if stopOnError && !ingest(queue[0]).Ok() then [queue[0]]
    else [queue[0]] + Taken(queue[1..], ingest, stopOnError)
  }

  function Failures(taken: seq<string>, ingest: Ingester): nat {
    if taken == [] then 0 else (if ingest(taken[0]).Ok() then 0 else 1) + Failures(taken[1..], ingest)
  }

  /** The manifest after marking one file RUNNING and recording its result. */
  function Handled(files: seq<Entry>, path: string, ok: bool): seq<Entry> {
    SetStatus(SetStatus(files, path, Running, 1), path, if ok then Succeeded else Failed, 0)
  }

  /** The manifest after a run over `queue`. */
  function RunQueue(files: seq<Entry>, queue: seq<string>, ingest: Ingester, stopOnError: bool): seq<Entry>
    decreases |queue|
  {
    if queue == [] then files
    else
      var ok := ingest(queue[0]).Ok();
      var next := Handled(files, queue[0], ok);
      if stopOnError && !ok then next else RunQueue(next, queue[1..], ingest, stopOnError)
  }

  /** The manifest that a whole run leaves on disk. */
  function RunFolder(
    disk: seq<Entry>, names: seq<string>, onlyFailed: bool, limit: Option<nat>, ingest: Ingester, stopOnError: bool
  ): seq<Entry> {
    var files := Synchronize(disk, names);
    RunQueue(files, Select(names, files, onlyFailed, limit), ingest, stopOnError)
  }

  // ---------- traces ----------

  /** Consecutive states are steps of the protocol. */
  ghost predicate Chain(trace: seq<State>) {
    |trace| <= 1 || (Chain(trace[..|trace| - 1]) && Step(trace[|trace| - 2], trace[|trace| - 1]))
  }

  lemma ChainSnoc(trace: seq<State>, t: State)
    requires Chain(trace) && trace != [] && Step(trace[|trace| - 1], t)
    ensures Chain(trace + [t])
  {
    hide Step;
    assert (trace + [t])[..|trace|] == trace;
  }

  /** Each state of a trace is a place where the process may crash; extending a history by a trace gives a history. */
  lemma {:induction false} TraceExtendsHistory(history: seq<State>, trace: seq<State>)
    requires History(history) && Chain(trace) && trace != [] && trace[0] == history[|history| - 1]
    ensures History(history + trace[1..])
  {
    assert history != [] by {
      hide Step;
    }
    hide *;
    var n := |trace| - 1;
    if n == 0 {
      assert history + trace[1..] == history;
    } else {
      ChainInit(trace);
      TraceExtendsHistory(history, trace[..n]);
      var before := history + trace[..n][1..];
      assert before[|before| - 1] == trace[n - 1];
      HistorySnoc(before, trace[n]);
      assert history + trace[1..] == before + [trace[n]];
    }
  }

  lemma ChainInit(trace: seq<State>)
    requires Chain(trace) && |trace| > 1
    ensures Chain(trace[..|trace| - 1]) && Step(trace[|trace| - 2], trace[|trace| - 1])
  {
    hide Step;
  }

  lemma HistorySnoc(history: seq<State>, t: State)
    requires History(history) && Step(history[|history| - 1], t)
    ensures History(history + [t])
  {
    hide Step;
  }

  lemma FiveSteps(trace: seq<State>, s1: State, s2: State, s3: State, s4: State, s5: State)
    requires Chain(trace) && trace != [] && Step(trace[|trace| - 1], s1)
    requires Step(s1, s2) && Step(s2, s3) && Step(s3, s4) && Step(s4, s5)
    ensures Chain(trace + [s1, s2, s3, s4, s5])
  {
    hide Chain, Step;
    ChainSnoc(trace, s1);
    ChainSnoc(trace + [s1], s2);
    ChainSnoc(trace + [s1] + [s2], s3);
    ChainSnoc(trace + [s1] + [s2] + [s3], s4);
    ChainSnoc(trace + [s1] + [s2] + [s3] + [s4], s5);
    assert trace + [s1] + [s2] + [s3] + [s4] + [s5] == trace + [s1, s2, s3, s4, s5];
  }

  lemma StartStep(s: State, names: seq<string>, onlyFailed: bool, limit: Option<nat>)
    requires s.phase == Idle
    ensures Step(s, Start(s, names, onlyFailed, limit))
  {
    hide Start;
  }

  lemma IngestStep(s: State, done: bool, ok: bool)
    requires s.phase == Ingesting && s.queue != [] && (ok ==> done)
    ensures Step(s, Ingest(s, done, ok))
  {
    hide Ingest;
  }

  lemma RecordStep(s: State, stop: bool)
    requires s.phase.Recorded? && s.queue != [] && (stop ==> !s.phase.ok)
    ensures Step(s, WriteRecord(s, stop))
  {
    hide WriteRecord;
  }

  lemma OtherSteps(s: State)
    ensures s.phase == Synced ==> Step(s, Write(s, Ready))
    ensures s.phase == Ready && s.queue != [] ==> Step(s, Mark(s))
    ensures s.phase == Marked && s.queue != [] ==> Step(s, WriteMark(s))
    ensures s.phase.Ingested? && s.queue != [] ==> Step(s, Record(s, s.phase.ok))
    ensures s.phase == Ready && s.queue == [] ==> Step(s, Write(s, Idle))
  {
    hide Write, Mark, WriteMark, Record;
  }

  class FolderIngestWorker {
    var disk: seq<Entry>             // the manifest file
    var files: seq<Entry>            // the manifest object
    ghost var completed: set<string>
    ghost var marks: map<string, nat>

    ghost function Snapshot(queue: seq<string>, phase: Phase): State
      reads this
    {
      State(disk, files, queue, phase, completed, marks)
    }

    constructor ()
      ensures Snapshot([], Idle) == Fresh
    {
      disk, files, completed, marks := [], [], {}, map[];
    }

    /** `_synchronize_manifest_with_files` */
    method SynchronizeManifestWithFiles(names: seq<string>)
      modifies this`files
      ensures files == Synchronize(old(files), names)
    {
      var entries: seq<Entry> := [];
      var i := 0;
      while i < |files|
        invariant 0 <= i <= |files|
        invariant files == old(files) && entries == EntryMap(files[..i])
      {
        assert files[..i + 1][..i] == files[..i];
        entries := Put(entries, files[i]);
        i := i + 1;
      }
      assert files[..|files|] == files;
      var released: seq<Entry> := [];
      i := 0;
      while i < |entries|
        invariant 0 <= i <= |entries|
        invariant released == ReleaseAll(entries[..i])
      {
        assert entries[..i + 1][..i] == entries[..i];
        released := released + [Released(entries[i])];
        i := i + 1;
      }
      assert entries[..|entries|] == entries;
      var all := released;
      i := 0;
      while i < |names|
        invariant 0 <= i <= |names|
        invariant all == AddMissing(released, names[..i])
      {
        assert names[..i + 1][..i] == names[..i];
        if Find(all, names[i]).None? {
          all := all + [Entry(names[i], Pending, 0)];
        }
        i := i + 1;
      }
      assert names[..|names|] == names;
      files := Sort(EntryLe, all);
    }

    /** `_select_ingest_candidates` */
    method SelectIngestCandidates(names: seq<string>, onlyFailed: bool, limit: Option<nat>) returns (selected: seq<string>)
      ensures selected == Select(names, files, onlyFailed, limit)
    {
      selected := [];
      var i := 0;
      while i < |names|
        invariant 0 <= i <= |names|
        invariant selected == SelectAll(names[..i], files, onlyFailed)
      {
        assert names[..i + 1][..i] == names[..i];
        var e := Find(files, names[i]);
        if e.Some? && e.value.status == Succeeded {
        } else if onlyFailed && !(e.Some? && e.value.status == Failed) {
        } else {
          selected := selected + [names[i]];
        }
        i := i + 1;
      }
      assert names[..|names|] == names;
      if limit.Some? {
        selected := selected[..Min(limit.value, |selected|)];
      }
    }

    /** `_set_manifest_entry_status` */
    method SetManifestEntryStatus(path: string, status: Status, attemptsDelta: nat)
      modifies this`files
      ensures files == SetStatus(old(files), path, status, attemptsDelta)
    {
      var e := Find(files, path);
      if e.None? {
        files := files + [Entry(path, status, attemptsDelta)];
      } else {
        files := UpdateLast(files, Entry(path, status, e.value.attempts + attemptsDelta));
      }
      files := Sort(EntryLe, files);
    }

    /** `_write_ingest_manifest`: the manifest file is replaced in one step. */
    method WriteManifest()
      modifies this`disk
      ensures disk == files
    {
      disk := files;
    }

    /** One iteration of the folder loop, with persistence. */
    method IngestFile(queue: seq<string>, outcome: DocumentOutcome, stop: bool, ghost trace: seq<State>) returns (ghost longer: seq<State>)
      requires queue != [] && Chain(trace) && trace != [] && trace[|trace| - 1] == Snapshot(queue, Ready)
      requires stop ==> !outcome.Ok()
      modifies this
      ensures Chain(longer) && trace <= longer
      ensures longer[|longer| - 1] == Snapshot(if stop then [] else queue[1..], Ready)
      ensures files == Handled(old(files), queue[0], outcome.Ok()) && disk == files
    {
      hide Step, Chain, SetStatus;
      ghost var s0 := trace[|trace| - 1];
      SetManifestEntryStatus(queue[0], Running, 1);
      ghost var s1 := Snapshot(queue, Marked);
      WriteManifest();
      marks := marks[queue[0] := (if queue[0] in marks then marks[queue[0]] else 0) + 1];
      ghost var s2 := Snapshot(queue, Ingesting);
      completed := if outcome.Done() then completed + {queue[0]} else completed;
      ghost var s3 := Snapshot(queue, Ingested(outcome.Ok()));
      SetManifestEntryStatus(queue[0], if outcome.Ok() then Succeeded else Failed, 0);
      ghost var s4 := Snapshot(queue, Recorded(outcome.Ok()));
      WriteManifest();
      ghost var s5 := Snapshot(if stop then [] else queue[1..], Ready);

      OtherSteps(s0);
      OtherSteps(s1);
      IngestStep(s2, outcome.Done(), outcome.Ok());
      OtherSteps(s3);
      RecordStep(s4, stop);
      longer := trace + [s1, s2, s3, s4, s5];
      FiveSteps(trace, s1, s2, s3, s4, s5);
    }

    /** `ingest_folder` over the files `names`. The trace holds every point at which the process may stop. */
    method IngestFolder(
      names: seq<string>, onlyFailed: bool, limit: Option<nat>, stopOnError: bool, dryRun: bool, ingest: Ingester
    )
      returns (result: FolderResult, ghost trace: seq<State>)
      modifies this
      ensures Chain(trace) && trace != [] && trace[0] == old(Snapshot([], Idle))
      ensures dryRun ==> disk == old(disk) && completed == old(completed) && marks == old(marks)
      ensures !dryRun ==> trace[|trace| - 1] == Snapshot([], Idle)
      ensures !dryRun ==> disk == RunFolder(old(disk), names, onlyFailed, limit, ingest, stopOnError)
      ensures var selected := Select(names, Synchronize(old(disk), names), onlyFailed, limit);
        var taken := Taken(selected, ingest, stopOnError);
        && result.matched == |selected| && result.skipped == Max(0, |names| - |selected|)
        && result.processed == |taken| && result.failed == Failures(taken, ingest)
        && result.ok == (result.failed == 0) && result.stoppedOnError == (stopOnError && result.failed > 0)
    {
      hide Synchronize, Select, SetStatus, Step, Chain, Handled, RunQueue, Taken, Failures;
      hide Mark, WriteMark, Record, Attempts, Find, UniquePaths, Ingest, WriteRecord, Crash, RunFolder, EntryLe;
      NothingLeft(ingest, stopOnError);
      trace := [Snapshot([], Idle)];
      SingleChain(trace[0]);
      StartStep(trace[0], names, onlyFailed, limit);
      files := disk;
      SynchronizeManifestWithFiles(names);
      var queue := SelectIngestCandidates(names, onlyFailed, limit);
      ghost var selected, synced := queue, files;
      result := FolderResult(|queue|, Max(0, |names| - |queue|), 0, 0, true, false);
      if !dryRun {
        ChainSnoc(trace, Snapshot(queue, Synced));
        trace := trace + [Snapshot(queue, Synced)];
        OtherSteps(trace[|trace| - 1]);
        WriteManifest();
        ChainSnoc(trace, Snapshot(queue, Ready));
        trace := trace + [Snapshot(queue, Ready)];
      }
      while queue != []
        invariant Chain(trace) && trace != [] && trace[0] == old(Snapshot([], Idle))
        invariant dryRun ==> disk == old(disk) && completed == old(completed) && marks == old(marks)
        invariant !dryRun ==> disk == files && trace[|trace| - 1] == Snapshot(queue, Ready)
        invariant !dryRun ==> RunQueue(files, queue, ingest, stopOnError) == RunQueue(synced, selected, ingest, stopOnError)
        invariant result.matched == |selected| && result.skipped == Max(0, |names| - |selected|)
        invariant result.processed + |Taken(queue, ingest, stopOnError)| == |Taken(selected, ingest, stopOnError)|
        invariant result.failed + Failures(Taken(queue, ingest, stopOnError), ingest)
               == Failures(Taken(selected, ingest, stopOnError), ingest)
        invariant result.stoppedOnError == (stopOnError && result.failed > 0)
        invariant result.stoppedOnError ==> queue == []
        decreases |queue|
      {
        var outcome := ingest(queue[0]);
        var stop := stopOnError && !outcome.Ok();
        FirstOfQueue(files, queue, ingest, stopOnError);
        if !dryRun {
          trace := IngestFile(queue, outcome, stop, trace);
        }
        result := result.(processed := result.processed + 1, failed := result.failed + if outcome.Ok() then 0 else 1);
        if stop {
          result := result.(stoppedOnError := true);
          queue := [];
        } else {
          queue := queue[1..];
        }
      }
      result := result.(ok := result.failed == 0);
      RunFolderIs(old(disk), names, onlyFailed, limit, ingest, stopOnError);
      if !dryRun {
        OtherSteps(trace[|trace| - 1]);
        WriteManifest();
        ChainSnoc(trace, Snapshot([], Idle));
        trace := trace + [Snapshot([], Idle)];
      }
    }
  }

  lemma RunFolderIs(
    disk: seq<Entry>, names: seq<string>, onlyFailed: bool, limit: Option<nat>, ingest: Ingester, stopOnError: bool
  )
    ensures var files := Synchronize(disk, names);
      RunFolder(disk, names, onlyFailed, limit, ingest, stopOnError)
        == RunQueue(files, Select(names, files, onlyFailed, limit), ingest, stopOnError)
  {
  }

  lemma NothingLeft(ingest: Ingester, stopOnError: bool)
    ensures Taken([], ingest, stopOnError) == [] && Failures([], ingest) == 0
    ensures forall files :: RunQueue(files, [], ingest, stopOnError) == files
  {
  }

  /** What one iteration does to the queue's totals. */
  lemma FirstOfQueue(files: seq<Entry>, queue: seq<string>, ingest: Ingester, stopOnError: bool)
    requires queue != []
    ensures var ok := ingest(queue[0]).Ok();
      var rest := if stopOnError && !ok then [] else queue[1..];
      && RunQueue(files, queue, ingest, stopOnError) == RunQueue(Handled(files, queue[0], ok), rest, ingest, stopOnError)
      && |Taken(queue, ingest, stopOnError)| == 1 + |Taken(rest, ingest, stopOnError)|
      && Failures(Taken(queue, ingest, stopOnError), ingest)
      == (if ok then 0 else 1) + Failures(Taken(rest, ingest, stopOnError), ingest)
  {
    var rest := if stopOnError && !ingest(queue[0]).Ok() then [] else queue[1..];
    FailuresCons(queue[0], Taken(rest, ingest, stopOnError), ingest);
    assert Taken(queue, ingest, stopOnError) == [queue[0]] + Taken(rest, ingest, stopOnError);
    hide Handled;
  }

  lemma FailuresCons(path: string, rest: seq<string>, ingest: Ingester)
    ensures Failures([path] + rest, ingest) == (if ingest(path).Ok() then 0 else 1) + Failures(rest, ingest)
    ensures Failures([], ingest) == 0
  {
    assert ([path] + rest)[1..] == rest;
  }

  lemma SingleChain(s: State)
    ensures Chain([s])
  {
  }

  // ---------- progress ----------

  /** The files that still have to succeed. */
  function Open(names: seq<string>, files: seq<Entry>): seq<string> {
    SelectAll(names, files, false)
  }

  lemma HandledSpec(files: seq<Entry>, path: string, ok: bool)
    requires UniquePaths(files)
    ensures UniquePaths(Handled(files, path, ok))
    ensures forall p :: IsSucceeded(Handled(files, path, ok), p) <==> if p == path then ok else IsSucceeded(files, p)
  {
    hide Find, UniquePaths, SetStatus;
    SetStatusSpec(files, path, Running, 1);
    SetStatusSpec(SetStatus(files, path, Running, 1), path, if ok then Succeeded else Failed, 0);
  }

  /** A run in which every ingest succeeds marks its whole queue SUCCEEDED and changes no other file's success. */
  lemma {:induction false} QueueSucceeds(files: seq<Entry>, queue: seq<string>, ingest: Ingester, stopOnError: bool)
    requires UniquePaths(files) && forall path :: ingest(path).Ok()
    ensures var after := RunQueue(files, queue, ingest, stopOnError);
      UniquePaths(after) && forall p :: IsSucceeded(after, p) <==> p in queue || IsSucceeded(files, p)
    decreases |queue|
  {
    hide Handled, IsSucceeded, UniquePaths;
    if queue != [] {
      HandledSpec(files, queue[0], true);
      QueueSucceeds(Handled(files, queue[0], true), queue[1..], ingest, stopOnError);
      assert queue == [queue[0]] + queue[1..];
    }
  }

  /** The entry that a run leaves for a file that it has taken. */
  ghost predicate IsResult(before: Option<Entry>, after: Option<Entry>, path: string, ok: bool) {
    after == Some(Entry(path, if ok then Succeeded else Failed, (if before.Some? then before.value.attempts else 0) + 1))
  }

  lemma HandledEntries(files: seq<Entry>, path: string, ok: bool)
    requires UniquePaths(files)
    ensures UniquePaths(Handled(files, path, ok))
    ensures forall p :: p != path ==> Find(Handled(files, path, ok), p) == Find(files, p)
    ensures IsResult(Find(files, path), Find(Handled(files, path, ok), path), path, ok)
  {
    hide Find, UniquePaths, SetStatus;
    SetStatusSpec(files, path, Running, 1);
    SetStatusSpec(SetStatus(files, path, Running, 1), path, if ok then Succeeded else Failed, 0);
  }

  /** The taken files are the queue up to its first failure, if the run stops there, or all of it. */
  lemma {:induction false} TakenIs(queue: seq<string>, ingest: Ingester, stopOnError: bool)
    ensures var n := |Taken(queue, ingest, stopOnError)|;
      && n <= |queue| && Taken(queue, ingest, stopOnError) == queue[..n]
      && (!stopOnError ==> n == |queue|)
      && (n < |queue| ==> n > 0 && !ingest(queue[n - 1]).Ok())
      && (stopOnError ==> forall i :: 0 <= i < n - 1 ==> ingest(queue[i]).Ok())
  {
    if queue != [] && !(stopOnError && !ingest(queue[0]).Ok()) {
      TakenIs(queue[1..], ingest, stopOnError);
    }
  }

  /** After a run over distinct files, each file that it has taken is SUCCEEDED or FAILED as its ingest went, with one
      attempt more, and every other entry is as it was. */
  lemma {:induction false} QueueResults(files: seq<Entry>, queue: seq<string>, ingest: Ingester, stopOnError: bool, p: string)
    requires UniquePaths(files) && NoDuplicates(queue)
    ensures var after := RunQueue(files, queue, ingest, stopOnError);
      && UniquePaths(after)
      && if p in Taken(queue, ingest, stopOnError) then IsResult(Find(files, p), Find(after, p), p, ingest(p).Ok())
         else Find(after, p) == Find(files, p)
    decreases |queue|
  {
    hide Handled, UniquePaths, Find;
    if queue != [] {
      var ok := ingest(queue[0]).Ok();
      HandledEntries(files, queue[0], ok);
      NoDuplicatesAppend([queue[0]], queue[1..]);
      assert queue == [queue[0]] + queue[1..];
      if !(stopOnError && !ok) {
        QueueResults(Handled(files, queue[0], ok), queue[1..], ingest, stopOnError, p);
        TakenIs(queue[1..], ingest, stopOnError);
        assert queue[0] in [queue[0]];
      }
    }
  }

  /** What a folder run leaves in the manifest for every path: its result, if the run has taken it, and otherwise what
      synchronizing made of it. */
  lemma RunResults(
    disk: seq<Entry>, names: seq<string>, onlyFailed: bool, limit: Option<nat>, ingest: Ingester, stopOnError: bool, p: string
  )
    requires NoDuplicates(Select(names, Synchronize(disk, names), onlyFailed, limit))
    ensures var synced := SyncedEntry(Find(disk, p), p, names);
      var after := Find(RunFolder(disk, names, onlyFailed, limit, ingest, stopOnError), p);
      if p in Taken(Select(names, Synchronize(disk, names), onlyFailed, limit), ingest, stopOnError)
        then IsResult(synced, after, p, ingest(p).Ok()) else after == synced
  {
    hide Find, UniquePaths, Synchronize, Select, RunQueue, Taken, NoDuplicates, SyncedEntry, IsResult;
    SynchronizeSpec(disk, names);
    var files := Synchronize(disk, names);
    QueueResults(files, Select(names, files, onlyFailed, limit), ingest, stopOnError, p);
  }

  lemma SyncKeepsSuccess(files: seq<Entry>, names: seq<string>)
    ensures UniquePaths(Synchronize(files, names))
    ensures forall p :: IsSucceeded(Synchronize(files, names), p) <==> IsSucceeded(files, p)
  {
    hide Find, UniquePaths, Synchronize;
    SynchronizeSpec(files, names);
  }

  /** The open files depend only on which files have succeeded. */
  lemma {:induction false} OpenBySuccess(names: seq<string>, a: seq<Entry>, b: seq<Entry>)
    requires forall p :: p in names ==> (IsSucceeded(a, p) <==> IsSucceeded(b, p))
    ensures Open(names, a) == Open(names, b)
  {
    if names != [] {
      hide Find;
      var n := |names| - 1;
      OpenBySuccess(names[..n], a, b);
      assert names[n] in names;
    }
  }

  /** Taking the first `k` open files and finishing them leaves the others open. */
  lemma {:induction false} OpenAfter(names: seq<string>, before: seq<Entry>, after: seq<Entry>, k: nat)
    requires NoDuplicates(names) && k <= |Open(names, before)|
    requires forall p :: p in names ==> (IsSucceeded(after, p) <==> p in Open(names, before)[..k] || IsSucceeded(before, p))
    ensures Open(names, after) == Open(names, before)[k..]
  {
    var open := Open(names, before);
    if names != [] {
      hide Find;
      var n := |names| - 1;
      var last, init := names[n], Open(names[..n], before);
      NoDuplicatesAppend(names[..n], [last]);
      assert names == names[..n] + [last];
      SelectAllSelects(names[..n], before, false);
      assert last !in init;
      if k <= |init| {
        assert open[..k] == init[..k];
        OpenAfter(names[..n], before, after, k);
        assert last in init[..k] ==> last in init;
      } else {
        assert open == init + [last] && k == |open| && open[..k] == open;
        assert init[..|init|] == init;
        OpenAfter(names[..n], before, after, |init|);
      }
    }
  }

  function TakeCount(limit: Option<nat>, n: nat): nat {
    if limit.Some? then Min(limit.value, n) else n
  }

  /** One run over a fixed file set: it processes the first open files, as many as the limit allows. */
  lemma OneRunProgress(
    disk: seq<Entry>, names: seq<string>, limit: Option<nat>, ingest: Ingester, stopOnError: bool
  )
    requires NoDuplicates(names) && forall path :: ingest(path).Ok()
    ensures var k := TakeCount(limit, |Open(names, disk)|);
      var after := RunFolder(disk, names, false, limit, ingest, stopOnError);
      && Select(names, Synchronize(disk, names), false, limit) == Open(names, disk)[..k]
      && Open(names, after) == Open(names, disk)[k..]
  {
    hide IsSucceeded, UniquePaths, Synchronize, NoDuplicates, RunQueue, SelectAll;
    var files := Synchronize(disk, names);
    var k := TakeCount(limit, |Open(names, disk)|);
    SyncKeepsSuccess(disk, names);
    OpenBySuccess(names, disk, files);
    var queue := Open(names, files)[..k];
    assert Select(names, files, false, limit) == queue;
    QueueSucceeds(files, queue, ingest, stopOnError);
    OpenAfter(names, files, RunQueue(files, queue, ingest, stopOnError), k);
  }

  /** The manifest after `runs` such runs. */
  function AfterRuns(disk: seq<Entry>, names: seq<string>, limit: nat, ingest: Ingester, stopOnError: bool, runs: nat): seq<Entry> {
    if runs == 0 then disk
    else RunFolder(AfterRuns(disk, names, limit, ingest, stopOnError, runs - 1), names, false, Some(limit), ingest, stopOnError)
  }

  /** The files that run number `run` (counting from 0) processes. */
  function SelectedBy(disk: seq<Entry>, names: seq<string>, limit: nat, ingest: Ingester, stopOnError: bool, run: nat): seq<string> {
    Select(names, Synchronize(AfterRuns(disk, names, limit, ingest, stopOnError, run), names), false, Some(limit))
  }

  /** How many of `n` files are done after `runs` runs with limit `limit`: runs * limit, up to n. */
  function DoneCount(runs: nat, limit: nat, n: nat): (done: nat)
    ensures done <= n
  {
    if runs == 0 then 0 else Min(DoneCount(runs - 1, limit, n) + limit, n)
  }

  lemma {:induction false} DoneCountIs(runs: nat, limit: nat, n: nat)
    ensures DoneCount(runs, limit, n) == Min(runs * limit, n)
  {
    if runs > 0 {
      DoneCountIs(runs - 1, limit, n);
      assert (runs - 1) * limit + limit == runs * limit;
    }
  }

  lemma {:induction false} DoneCountGrows(i: nat, j: nat, limit: nat, n: nat)
    requires i <= j
    ensures DoneCount(i, limit, n) <= DoneCount(j, limit, n)
  {
    if i < j {
      DoneCountGrows(i, j - 1, limit, n);
    }
  }

  lemma {:induction false} OpenAfterRuns(
    disk: seq<Entry>, names: seq<string>, limit: nat, ingest: Ingester, stopOnError: bool, runs: nat
  )
    requires NoDuplicates(names) && forall path :: ingest(path).Ok()
    ensures var after := AfterRuns(disk, names, limit, ingest, stopOnError, runs);
      Open(names, after) == Open(names, disk)[DoneCount(runs, limit, |Open(names, disk)|)..]
  {
    hide UniquePaths, NoDuplicates, Open, RunFolder, Select;
    var open := Open(names, disk);
    if runs == 0 {
      assert open[0..] == open;
    } else {
      var before := AfterRuns(disk, names, limit, ingest, stopOnError, runs - 1);
      OpenAfterRuns(disk, names, limit, ingest, stopOnError, runs - 1);
      OneRunProgress(before, names, Some(limit), ingest, stopOnError);
      SliceOfSuffix(open, DoneCount(runs - 1, limit, |open|), TakeCount(Some(limit), |Open(names, before)|));
    }
  }

  /** Run `run` processes the next `limit` of the initially open files, or those that are left. */
  lemma RunSelects(
    disk: seq<Entry>, names: seq<string>, limit: nat, ingest: Ingester, stopOnError: bool, run: nat
  )
    requires NoDuplicates(names) && forall path :: ingest(path).Ok()
    ensures var open := Open(names, disk); var i, j := DoneCount(run, limit, |open|), DoneCount(run + 1, limit, |open|);
      i <= j && SelectedBy(disk, names, limit, ingest, stopOnError, run) == open[i..j]
  {
    hide UniquePaths, NoDuplicates, Open, RunFolder, Select, AfterRuns;
    var after := AfterRuns(disk, names, limit, ingest, stopOnError, run);
    OpenAfterRuns(disk, names, limit, ingest, stopOnError, run);
    OneRunProgress(after, names, Some(limit), ingest, stopOnError);
    SliceOfSuffix(Open(names, disk), DoneCount(run, limit, |Open(names, disk)|), TakeCount(Some(limit), |Open(names, after)|));
  }

  lemma SliceOfSuffix<T>(s: seq<T>, i: nat, k: nat)
    requires i <= |s| && k <= |s| - i
    ensures s[i..][k..] == s[i + k..] && s[i..][..k] == s[i..i + k]
  {
  }

  /** No file is processed by two runs. */
  lemma RunsAreDisjoint(
    disk: seq<Entry>, names: seq<string>, limit: nat, ingest: Ingester, stopOnError: bool, i: nat, j: nat, path: string
  )
    requires NoDuplicates(names) && forall path :: ingest(path).Ok()
    requires i < j && path in SelectedBy(disk, names, limit, ingest, stopOnError, i)
    ensures path !in SelectedBy(disk, names, limit, ingest, stopOnError, j)
  {
    hide UniquePaths, Open, SelectedBy, DoneCount, NoDuplicates;
    RunSelects(disk, names, limit, ingest, stopOnError, i);
    RunSelects(disk, names, limit, ingest, stopOnError, j);
    OpenHasNoDuplicates(names, disk);
    var open := Open(names, disk);
    DoneCountGrows(i + 1, j, limit, |open|);
    DisjointSlices(open, DoneCount(i, limit, |open|), DoneCount(i + 1, limit, |open|),
      DoneCount(j, limit, |open|), DoneCount(j + 1, limit, |open|), path);
  }

  lemma OpenHasNoDuplicates(names: seq<string>, files: seq<Entry>)
    requires NoDuplicates(names)
    ensures NoDuplicates(Open(names, files))
  {
    SelectAllSelects(names, files, false);
  }

  lemma DisjointSlices(s: seq<string>, a: nat, b: nat, c: nat, d: nat, x: string)
    requires NoDuplicates(s) && a <= b <= c <= d <= |s| && x in s[a..b]
    ensures x !in s[c..d]
  {
    var i :| a <= i < b && s[i] == x;
    forall j | c <= j < d ensures s[j] != x {
    }
  }

  /** k runs with limit L leave max(0, n - k * L) of n open files; enough runs finish them all. */
  lemma ManifestProgress(
    disk: seq<Entry>, names: seq<string>, limit: nat, ingest: Ingester, stopOnError: bool, runs: nat
  )
    requires NoDuplicates(names) && forall path :: ingest(path).Ok()
    ensures |Open(names, AfterRuns(disk, names, limit, ingest, stopOnError, runs))|
      == Max(0, |Open(names, disk)| - runs * limit)
  {
    hide UniquePaths, Open, AfterRuns, NoDuplicates, DoneCount;
    OpenAfterRuns(disk, names, limit, ingest, stopOnError, runs);
    DoneCountIs(runs, limit, |Open(names, disk)|);
  }
}
