/** The container's start, operate and drain protocol: any number of worker threads and one control thread,
    interleaved at every access to the shared fields. */
module DrainProtocol {
  import opened Common

  datatype Readiness = New | Starting | Ready | Stopping | Failed | Closed

  /** Where a worker is in `operation`. From `Entering` to `Admitted`, and at `Leaving`, it holds the lock. */
  datatype Worker =
    | Outside
    | Entering   // is about to read the readiness state
    | StateSeen  // read READY, is about to read the accepting flag
    | Admitted   // read both, is about to count itself in
    | Inside
    | Leaving    // is about to count itself out

  /** Where the control thread is. `start` takes no lock; `close` holds it at `CloseClearing`, `CloseMarking`
      and `CloseChecking`. */
  datatype Control =
    | Idle
    | StartMarking | StartClearing | StartInitializing | StartPublishing | StartAccepting
    | FailClearing | FailTearingDown | FailMarking
    | CloseClearing | CloseMarking | CloseChecking | CloseWaiting | CloseTearingDown | CloseFinishing

  datatype Owner = Nobody | ControlThread | WorkerThread(index: nat)

  /** `expired`: the deadline of the latest `close` has passed. `gaveUp`: the latest `close` that stopped waiting
      did so at its deadline, with operations still running. `draining`: no start has succeeded since the first
      critical section of the latest `close`. */
  datatype State = State(
    readiness: Readiness, accepting: bool, inFlight: int,
    workers: seq<Worker>, control: Control, owner: Owner, expired: bool, gaveUp: bool, draining: bool
  )

  datatype Action =
    | WorkerActs(index: nat)
    | CallStart
    | CallClose
    | ControlActs(succeeds: bool)
    | TimePasses

  function Initial(n: nat): State {
    State(New, false, 0, seq(n, i => Outside), Idle, Nobody, false, false, false)
  }

  // ---------- steps ----------

  function Goes(s: State, i: nat, w: Worker, owner: Owner): State
    requires i < |s.workers|
  {
    s.(workers := s.workers[i := w], owner := owner)
  }

  function WorkerStep(s: State, i: nat): Option<State>
    requires i < |s.workers|
  {
    match s.workers[i]
    case Outside => if s.owner == Nobody then Some(Goes(s, i, Entering, WorkerThread(i))) else None
    case Entering => Some(if s.readiness == Ready then Goes(s, i, StateSeen, s.owner) else Goes(s, i, Outside, Nobody))
    case StateSeen => Some(if s.accepting then Goes(s, i, Admitted, s.owner) else Goes(s, i, Outside, Nobody))
    case Admitted => Some(Goes(s, i, Inside, Nobody).(inFlight := s.inFlight + 1))
    case Inside => if s.owner == Nobody then Some(Goes(s, i, Leaving, WorkerThread(i))) else None
    case Leaving => Some(Goes(s, i, Outside, Nobody).(inFlight := s.inFlight - 1))
  }

  function ControlStep(s: State, succeeds: bool): Option<State> {
    match s.control
    case Idle => None
    case StartMarking => Some(s.(readiness := Starting, control := StartClearing))
    case StartClearing => Some(s.(accepting := false, control := StartInitializing))
    case StartInitializing => Some(s.(control := if succeeds then StartPublishing else FailClearing))
    case StartPublishing => Some(s.(readiness := Ready, control := StartAccepting))
    case StartAccepting => Some(s.(accepting := true, draining := false, control := Idle))
    case FailClearing => Some(s.(accepting := false, control := FailTearingDown))
    case FailTearingDown => Some(s.(control := FailMarking))
    case FailMarking => Some(s.(readiness := Failed, control := Idle))
    case CloseClearing => Some(s.(accepting := false, draining := true, control := CloseMarking))
    case CloseMarking =>
      Some(s.(readiness := if s.readiness == Ready then Stopping else s.readiness, expired := false, control := CloseChecking))
    case CloseChecking =>
      if s.inFlight > 0 && !s.expired then Some(s.(owner := Nobody, control := CloseWaiting))
      else Some(s.(owner := Nobody, gaveUp := s.inFlight > 0, control := CloseTearingDown))
    case CloseWaiting => if s.owner == Nobody then Some(s.(owner := ControlThread, control := CloseChecking)) else None
    case CloseTearingDown => Some(s.(control := CloseFinishing))
    case CloseFinishing => Some(s.(readiness := Closed, control := Idle))
  }

  /** The state after an action, unless it cannot happen now. */
  function Next(s: State, a: Action): Option<State> {
    match a
    case WorkerActs(i) => if i < |s.workers| then WorkerStep(s, i) else None
    case CallStart =>
      if s.control != Idle then None
      else if s.readiness in {Ready, Starting, Stopping} then Some(s)
      else Some(s.(control := StartMarking))
    case CallClose =>
      if s.control != Idle || s.owner != Nobody then None else Some(s.(owner := ControlThread, control := CloseClearing))
    case ControlActs(succeeds) => ControlStep(s, succeeds)
    case TimePasses => Some(s.(expired := true))
  }

  function Execute(s: State, actions: seq<Action>): Option<State>
    decreases |actions|
  {
    if actions == [] then Some(s)
    else
      match Next(s, actions[0])
      case None => None
      case Some(t) => Execute(t, actions[1..])
  }

  ghost predicate Reachable(s: State) {
    exists n: nat, actions :: Execute(Initial(n), actions) == Some(s)
  }

  // ---------- the invariant ----------

  predicate IsInside(w: Worker) {
    w == Inside || w == Leaving
  }

  function Presence(w: Worker): nat {
    if IsInside(w) then 1 else 0
  }

  function CountInside(ws: seq<Worker>): nat {
    if ws == [] then 0 else CountInside(ws[..|ws| - 1]) + Presence(ws[|ws| - 1])
  }

  predicate HoldsLock(w: Worker) {
    w == Entering || w == StateSeen || w == Admitted || w == Leaving
  }

  predicate AtLock(c: Control) {
    c == CloseClearing || c == CloseMarking || c == CloseChecking
  }

  predicate Closing(c: Control) {
    c in {CloseMarking, CloseChecking, CloseWaiting, CloseTearingDown, CloseFinishing}
  }

  predicate StartingUp(c: Control) {
    c in {StartMarking, StartClearing, StartInitializing, StartPublishing, FailClearing, FailTearingDown, FailMarking}
  }

  /** Exactly the owner is at a place where the lock is held. */
  ghost predicate LockIsHeld(s: State) {
    && (forall i :: 0 <= i < |s.workers| ==> (HoldsLock(s.workers[i]) <==> s.owner == WorkerThread(i)))
    && (AtLock(s.control) <==> s.owner == ControlThread)
    && (s.owner.WorkerThread? ==> s.owner.index < |s.workers|)
  }

  /** A worker that has read a field still finds it as read, although `start` writes without the lock. */
  ghost predicate ChecksHold(s: State) {
    forall i :: 0 <= i < |s.workers| ==>
      (s.workers[i] == StateSeen ==> s.readiness == Ready) && (s.workers[i] == Admitted ==> s.accepting)
  }

  predicate ControlFits(s: State) {
    && (s.accepting ==> s.readiness == Ready && !s.draining)
    && (Closing(s.control) ==> !s.accepting && s.draining)
    && (StartingUp(s.control) || s.control == StartAccepting ==> !s.accepting)
    && (s.control == StartAccepting ==> s.readiness == Ready)
    && (StartingUp(s.control) || s.control in {CloseChecking, CloseWaiting, CloseTearingDown, CloseFinishing} ==> s.readiness != Ready)
    && (s.control == CloseTearingDown ==> s.inFlight == 0 || s.expired)
    && (s.control == Idle && s.readiness == Ready ==> s.accepting)
  }

  /** The control thread is where no operation is accepted and no `close` is still going to wait. */
  predicate PastWaiting(s: State) {
    StartingUp(s.control) || s.control in {CloseTearingDown, CloseFinishing} || (s.control == Idle && s.readiness != Ready)
  }

  predicate WaitedFor(s: State) {
    PastWaiting(s) ==> !s.accepting && (s.inFlight == 0 || s.gaveUp)
  }

  ghost predicate Invariant(s: State) {
    LockIsHeld(s) && ChecksHold(s) && ControlFits(s) && WaitedFor(s) && s.inFlight == CountInside(s.workers)
  }

  lemma {:induction false} CountAfter(ws: seq<Worker>, i: nat, w: Worker)
    requires i < |ws|
    ensures CountInside(ws[i := w]) == CountInside(ws) - Presence(ws[i]) + Presence(w)
  {
    var k := |ws| - 1;
    if i < k {
      CountAfter(ws[..k], i, w);
      assert ws[i := w][..k] == ws[..k][i := w];
    } else {
      assert ws[i := w][..k] == ws[..k];
    }
  }

  lemma {:induction false} NobodyInside(n: nat)
    ensures CountInside(seq(n, i => Outside)) == 0
  {
    if n > 0 {
      NobodyInside(n - 1);
      assert seq(n, i => Outside)[..n - 1] == seq(n - 1, i => Outside);
    }
  }

  lemma InitialHolds(n: nat)
    ensures Invariant(Initial(n))
  {
    NobodyInside(n);
    hide CountInside;
  }

  /** A worker takes the free lock, keeps it or gives it back. */
  lemma GoesKeepsLock(s: State, i: nat, w: Worker, owner: Owner)
    requires LockIsHeld(s) && i < |s.workers| && s.owner in {Nobody, WorkerThread(i)}
    requires owner == if HoldsLock(w) then WorkerThread(i) else Nobody
    ensures LockIsHeld(Goes(s, i, w, owner))
  {
    hide HoldsLock;
    var t := Goes(s, i, w, owner);
    assert forall j :: 0 <= j < |s.workers| && j != i ==> t.workers[j] == s.workers[j];
  }

  lemma SameLock(s: State, t: State)
    requires LockIsHeld(s) && t.workers == s.workers && t.owner == s.owner && t.control == s.control
    ensures LockIsHeld(t)
  {
  }

  lemma WorkerMoves(s: State, i: nat)
    requires i < |s.workers| && WorkerStep(s, i).Some? && (HoldsLock(s.workers[i]) <==> s.owner == WorkerThread(i))
    ensures var t := WorkerStep(s, i).value;
      && (s.owner == Nobody || s.owner == WorkerThread(i)) && t.control == s.control
      && |t.workers| == |s.workers| && t.workers == s.workers[i := t.workers[i]]
      && t.owner == if HoldsLock(t.workers[i]) then WorkerThread(i) else Nobody
  {
  }

  lemma WorkerKeepsLock(s: State, i: nat)
    requires LockIsHeld(s) && i < |s.workers| && WorkerStep(s, i).Some?
    ensures LockIsHeld(WorkerStep(s, i).value)
  {
    hide WorkerStep, HoldsLock;
    var t := WorkerStep(s, i).value;
    WorkerMoves(s, i);
    hide LockIsHeld;
    GoesKeepsLock(s, i, t.workers[i], t.owner);
    SameLock(Goes(s, i, t.workers[i], t.owner), t);
  }

  lemma WorkerKeepsChecks(s: State, i: nat)
    requires ChecksHold(s) && i < |s.workers| && WorkerStep(s, i).Some?
    ensures ChecksHold(WorkerStep(s, i).value)
  {
  }

  lemma WorkerCounts(s: State, i: nat)
    requires i < |s.workers| && WorkerStep(s, i).Some?
    ensures var t := WorkerStep(s, i).value;
      && |t.workers| == |s.workers| && t.workers == s.workers[i := t.workers[i]]
      && t.inFlight == s.inFlight + Presence(t.workers[i]) - Presence(s.workers[i])
  {
    match s.workers[i]
    case Outside => assert WorkerStep(s, i) == Some(Goes(s, i, Entering, WorkerThread(i)));
    case Inside => assert WorkerStep(s, i) == Some(Goes(s, i, Leaving, WorkerThread(i)));
    case _ =>
  }

  lemma WorkerKeepsCount(s: State, i: nat)
    requires s.inFlight == CountInside(s.workers) && i < |s.workers| && WorkerStep(s, i).Some?
    ensures var t := WorkerStep(s, i).value; t.inFlight == CountInside(t.workers)
  {
    hide CountInside, WorkerStep, Presence;
    var t := WorkerStep(s, i).value;
    WorkerCounts(s, i);
    CountAfter(s.workers, i, t.workers[i]);
  }

  /** A worker changes its own place, the lock and the counter, and adds to the counter only when admitted. */
  lemma WorkerFrame(s: State, i: nat)
    requires ChecksHold(s) && s.inFlight == CountInside(s.workers) && i < |s.workers| && WorkerStep(s, i).Some?
    ensures var t := WorkerStep(s, i).value;
      && t == s.(workers := t.workers, owner := t.owner, inFlight := t.inFlight)
      && 0 <= t.inFlight && (!s.accepting ==> t.inFlight <= s.inFlight)
  {
    WorkerKeepsCount(s, i);
    hide CountInside;
    match s.workers[i]
    case Outside => assert WorkerStep(s, i) == Some(Goes(s, i, Entering, WorkerThread(i)));
    case Inside => assert WorkerStep(s, i) == Some(Goes(s, i, Leaving, WorkerThread(i)));
    case _ =>
  }

  lemma WorkerKeepsControl(s: State, i: nat)
    requires ControlFits(s) && WaitedFor(s) && ChecksHold(s) && s.inFlight == CountInside(s.workers)
    requires i < |s.workers| && WorkerStep(s, i).Some?
    ensures ControlFits(WorkerStep(s, i).value) && WaitedFor(WorkerStep(s, i).value)
  {
    WorkerFrame(s, i);
    hide CountInside, WorkerStep, ChecksHold;
  }

  lemma WorkerKeepsInvariant(s: State, i: nat)
    requires Invariant(s) && i < |s.workers| && WorkerStep(s, i).Some?
    ensures Invariant(WorkerStep(s, i).value)
  {
    hide CountInside, LockIsHeld, ChecksHold, ControlFits, WaitedFor, WorkerStep;
    WorkerKeepsLock(s, i);
    WorkerKeepsChecks(s, i);
    WorkerKeepsCount(s, i);
    WorkerKeepsControl(s, i);
  }

  /** The control thread takes the free lock or gives it back. */
  lemma SameHolders(s: State, t: State)
    requires LockIsHeld(s) && t.workers == s.workers
    requires t.owner == s.owner || (!s.owner.WorkerThread? && !t.owner.WorkerThread?)
    requires AtLock(t.control) <==> t.owner == ControlThread
    ensures LockIsHeld(t)
  {
    hide HoldsLock;
  }

  lemma ControlHoldsLock(s: State)
    requires LockIsHeld(s)
    ensures AtLock(s.control) <==> s.owner == ControlThread
  {
  }

  lemma ControlKeepsLock(s: State, succeeds: bool)
    requires LockIsHeld(s) && ControlStep(s, succeeds).Some?
    ensures LockIsHeld(ControlStep(s, succeeds).value)
  {
    hide LockIsHeld, HoldsLock;
    ControlHoldsLock(s);
    var t := ControlStep(s, succeeds).value;
    assert t.workers == s.workers;
    assert AtLock(t.control) <==> t.owner == ControlThread;
    SameHolders(s, t);
  }

  lemma ControlKeepsChecks(s: State, succeeds: bool)
    requires LockIsHeld(s) && ChecksHold(s) && ControlFits(s) && ControlStep(s, succeeds).Some?
    ensures ChecksHold(ControlStep(s, succeeds).value)
  {
  }

  lemma ControlKeepsInvariant(s: State, succeeds: bool)
    requires Invariant(s) && ControlStep(s, succeeds).Some?
    ensures Invariant(ControlStep(s, succeeds).value)
  {
    ControlKeepsLock(s, succeeds);
    ControlKeepsChecks(s, succeeds);
    hide CountInside, LockIsHeld, ChecksHold;
  }

  lemma NextKeepsInvariant(s: State, a: Action)
    requires Invariant(s) && Next(s, a).Some?
    ensures Invariant(Next(s, a).value)
  {
    hide CountInside, WorkerStep, ControlStep;
    match a
    case WorkerActs(i) => WorkerKeepsInvariant(s, i);
    case ControlActs(succeeds) => ControlKeepsInvariant(s, succeeds);
    case _ =>
  }

  lemma {:induction false} ExecuteKeepsInvariant(s: State, actions: seq<Action>)
    requires Invariant(s) && Execute(s, actions).Some?
    ensures Invariant(Execute(s, actions).value)
    decreases |actions|
  {
    hide Invariant, Next;
    if actions != [] {
      NextKeepsInvariant(s, actions[0]);
      ExecuteKeepsInvariant(Next(s, actions[0]).value, actions[1..]);
    }
  }

  lemma ReachableHolds(s: State)
    requires Reachable(s)
    ensures Invariant(s)
  {
    var n: nat, actions :| Execute(Initial(n), actions) == Some(s);
    hide Invariant, Execute;
    InitialHolds(n);
    ExecuteKeepsInvariant(Initial(n), actions);
  }

  // ---------- what the protocol guarantees ----------

  /** Whatever the interleaving, the counter equals the number of workers inside an operation, operations are
      accepted only in state READY, and `close` releases the resources only with nobody inside or after the
      deadline. */
  lemma CounterIsExact(s: State)
    requires Reachable(s)
    ensures s.inFlight == CountInside(s.workers)
    ensures s.accepting ==> s.readiness == Ready
    ensures s.control == CloseTearingDown ==> CountInside(s.workers) == 0 || s.expired
  {
    ReachableHolds(s);
    hide CountInside;
  }

  /** A worker enters only while operations are accepted, and so never between the first critical section of a
      `close` and the next successful start. */
  lemma NobodyEntersWhileDraining(s: State, a: Action)
    requires Reachable(s) && Next(s, a).Some? && CountInside(Next(s, a).value.workers) > CountInside(s.workers)
    ensures s.accepting && s.readiness == Ready && !s.draining
  {
    ReachableHolds(s);
    hide *;
    var i := OnlyAWorkerEnters(s, a);
    OnlyAdmittedEnters(s, i);
    AdmittedMeansReady(s, i);
  }

  lemma OnlyAWorkerEnters(s: State, a: Action) returns (i: nat)
    requires Next(s, a).Some? && CountInside(Next(s, a).value.workers) > CountInside(s.workers)
    ensures i < |s.workers| && Next(s, a) == WorkerStep(s, i)
  {
    hide CountInside;
    i :| a == WorkerActs(i);
  }

  lemma AdmittedMeansReady(s: State, i: nat)
    requires Invariant(s) && i < |s.workers| && s.workers[i] == Admitted
    ensures s.accepting && s.readiness == Ready && !s.draining
  {
    hide CountInside, LockIsHeld, WaitedFor;
  }

  lemma OnlyAdmittedEnters(s: State, i: nat)
    requires i < |s.workers| && WorkerStep(s, i).Some?
    requires CountInside(WorkerStep(s, i).value.workers) > CountInside(s.workers)
    ensures s.workers[i] == Admitted
  {
    hide CountInside;
    var t := WorkerStep(s, i).value;
    assert t.workers == s.workers[i := t.workers[i]];
    CountAfter(s.workers, i, t.workers[i]);
  }

  /** Once `close` has cleared the flag, `draining` holds until a start accepts operations again. */
  lemma DrainingLasts(s: State, a: Action)
    requires Next(s, a).Some? && s.draining && !Next(s, a).value.draining
    ensures s.control == StartAccepting && a.ControlActs? && Next(s, a).value.accepting
  {
  }

  /** Nobody is kept out for ever: in state READY and idle, a worker that finds the lock free gets in. */
  lemma ReadyAdmits(s: State, i: nat)
    requires Reachable(s) && s.control == Idle && s.readiness == Ready && s.owner == Nobody
    requires i < |s.workers| && s.workers[i] == Outside
    ensures var act := WorkerActs(i);
      Execute(s, [act, act, act, act]) == Some(s.(workers := s.workers[i := Inside], inFlight := s.inFlight + 1))
  {
    ReachableHolds(s);
    var act := WorkerActs(i);
    var s1 := Goes(s, i, Entering, WorkerThread(i));
    var s2 := Goes(s1, i, StateSeen, WorkerThread(i));
    var s3 := Goes(s2, i, Admitted, WorkerThread(i));
    var s4 := Goes(s3, i, Inside, Nobody).(inFlight := s.inFlight + 1);
    assert Next(s, act) == Some(s1) && Next(s1, act) == Some(s2) && Next(s2, act) == Some(s3) && Next(s3, act) == Some(s4);
    hide Next, Goes, Invariant, Reachable;
    ExecuteCons(s, s1, act, [act, act, act]);
    ExecuteCons(s1, s2, act, [act, act]);
    ExecuteCons(s2, s3, act, [act]);
    ExecuteCons(s3, s4, act, []);
    assert s4.workers == s.workers[i := Inside];
  }

  lemma ExecuteCons(s: State, t: State, a: Action, rest: seq<Action>)
    requires Next(s, a) == Some(t)
    ensures Execute(s, [a] + rest) == Execute(t, rest)
  {
    assert ([a] + rest)[1..] == rest;
  }

  lemma {:induction false} ExecuteAppend(s: State, a: seq<Action>, b: seq<Action>)
    requires Execute(s, a).Some?
    ensures Execute(s, a + b) == Execute(Execute(s, a).value, b)
    decreases |a|
  {
    if a == [] {
      assert a + b == b;
    } else {
      assert (a + b)[1..] == a[1..] + b;
      ExecuteAppend(Next(s, a[0]).value, a[1..], b);
    }
  }

  // ---------- a failed start releases the resources under running operations ----------

  /** One worker inside an operation, the container ready. */
  function Operating(): State {
    State(Ready, true, 1, [Inside], Idle, Nobody, false, false, false)
  }

  lemma ReachableNext(s: State, t: State, a: Action)
    requires Reachable(s) && Next(s, a) == Some(t)
    ensures Reachable(t)
  {
    var n: nat, actions :| Execute(Initial(n), actions) == Some(s);
    hide Next;
    ExecuteAppend(Initial(n), actions, [a]);
    ExecuteCons(s, t, a, []);
    assert [a] + [] == [a] && Execute(t, []) == Some(t);
    assert Execute(Initial(n), actions + [a]) == Some(t);
  }

  lemma InitialIsReachable(n: nat)
    ensures Reachable(Initial(n))
  {
    assert Execute(Initial(n), []) == Some(Initial(n));
  }

  /** Whatever the number of workers, a start that succeeds leaves an idle, ready container. */
  lemma StartSucceeds(s: State)
    requires Reachable(s) && s.control == Idle && s.readiness in {New, Failed, Closed}
    ensures Reachable(s.(readiness := Ready, accepting := true, draining := false))
  {
    var go := ControlActs(true);
    var s1 := s.(control := StartMarking);
    var s2 := s1.(readiness := Starting, control := StartClearing);
    var s3 := s2.(accepting := false, control := StartInitializing);
    var s4 := s3.(control := StartPublishing);
    var s5 := s4.(readiness := Ready, control := StartAccepting);
    var s6 := s5.(accepting := true, draining := false, control := Idle);
    assert Next(s, CallStart) == Some(s1) && Next(s1, go) == Some(s2) && Next(s2, go) == Some(s3)
        && Next(s3, go) == Some(s4) && Next(s4, go) == Some(s5) && Next(s5, go) == Some(s6);
    hide Next, Reachable;
    ReachableNext(s, s1, CallStart);
    ReachableNext(s1, s2, go);
    ReachableNext(s2, s3, go);
    ReachableNext(s3, s4, go);
    ReachableNext(s4, s5, go);
    ReachableNext(s5, s6, go);
  }

  lemma OperatingIsReachable()
    ensures Reachable(Operating())
  {
    InitialIsReachable(1);
    StartSucceeds(Initial(1));
    var s := Initial(1).(readiness := Ready, accepting := true, draining := false);
    assert s == State(Ready, true, 0, [Outside], Idle, Nobody, false, false, false);
    hide Reachable, Next;
    ReadyAdmits(s, 0);
    var act := WorkerActs(0);
    assert s.(workers := s.workers[0 := Inside], inFlight := s.inFlight + 1) == Operating();
    ReachableRun(s, Operating(), [act, act, act, act]);
  }

  lemma ReachableRun(s: State, t: State, more: seq<Action>)
    requires Reachable(s) && Execute(s, more) == Some(t)
    ensures Reachable(t)
  {
    var n: nat, actions :| Execute(Initial(n), actions) == Some(s);
    hide Next;
    ExecuteAppend(Initial(n), actions, more);
    assert Execute(Initial(n), actions + more) == Some(t);
  }

  /** A `close` whose deadline passes ends with the container closed and the operation still running. */
  function Abandoned(): State {
    State(Closed, false, 1, [Inside], Idle, Nobody, true, true, true)
  }

  lemma GivesUp(s: State)
    requires Reachable(s) && s.control == CloseChecking && s.owner == ControlThread && s.inFlight > 0
    ensures Reachable(s.(expired := true, gaveUp := true, owner := Nobody, control := Idle, readiness := Closed))
  {
    var go := ControlActs(true);
    var s1 := s.(expired := true);
    var s2 := s1.(owner := Nobody, gaveUp := true, control := CloseTearingDown);
    var s3 := s2.(control := CloseFinishing);
    var s4 := s3.(readiness := Closed, control := Idle);
    assert Next(s, TimePasses) == Some(s1) && Next(s1, go) == Some(s2) && Next(s2, go) == Some(s3) && Next(s3, go) == Some(s4);
    hide Next, Reachable;
    ReachableNext(s, s1, TimePasses);
    ReachableNext(s1, s2, go);
    ReachableNext(s2, s3, go);
    ReachableNext(s3, s4, go);
  }

  lemma AbandonedIsReachable()
    ensures Reachable(Abandoned())
  {
    OperatingIsReachable();
    var go := ControlActs(true);
    var s0 := Operating();
    var s1 := s0.(owner := ControlThread, control := CloseClearing);
    var s2 := s1.(accepting := false, draining := true, control := CloseMarking);
    var s3 := s2.(readiness := Stopping, control := CloseChecking);
    assert Next(s0, CallClose) == Some(s1) && Next(s1, go) == Some(s2) && Next(s2, go) == Some(s3);
    hide Next, Reachable;
    ReachableNext(s0, s1, CallClose);
    ReachableNext(s1, s2, go);
    ReachableNext(s2, s3, go);
    GivesUp(s3);
  }

  /** What follows a call of `start` until the control thread is called again. */
  predicate WithinOneCall(rest: seq<Action>) {
    forall i :: 0 <= i < |rest| ==> !rest[i].CallStart? && !rest[i].CallClose?
  }

  /** The start called in `s` fails after `rest` and releases the resources with somebody inside. */
  ghost predicate FailsOverOperation(s: State, rest: seq<Action>) {
    && WithinOneCall(rest)
    && var after := Execute(s, [CallStart] + rest);
      after.Some? && after.value.control == FailTearingDown && CountInside(after.value.workers) > 0
  }

  /** While a start has not accepted operations, the counter does not grow. */
  lemma StartingUpAdmitsNobody(s: State, a: Action)
    requires Invariant(s) && Next(s, a).Some? && !a.CallStart? && !a.CallClose? && StartingUp(Next(s, a).value.control)
    ensures StartingUp(s.control) && Next(s, a).value.inFlight <= s.inFlight
  {
    hide CountInside, LockIsHeld, WaitedFor;
    match a
    case WorkerActs(i) =>
      WorkerFrame(s, i);
      hide WorkerStep;
    case _ =>
  }

  lemma {:induction false} WithinOneStart(s: State, rest: seq<Action>)
    requires Invariant(s) && WithinOneCall(rest) && Execute(s, rest).Some? && StartingUp(Execute(s, rest).value.control)
    ensures Invariant(Execute(s, rest).value)
    ensures StartingUp(s.control) && Execute(s, rest).value.inFlight <= s.inFlight
    decreases |rest|
  {
    hide Invariant, Next, StartingUp;
    if rest != [] {
      NextKeepsInvariant(s, rest[0]);
      WithinOneStart(Next(s, rest[0]).value, rest[1..]);
      StartingUpAdmitsNobody(s, rest[0]);
    }
  }

  /** A start that fails at once ends up releasing the resources, whoever is inside. */
  lemma StartFails(s: State) returns (rest: seq<Action>)
    requires s.control == Idle && s.readiness in {New, Failed, Closed}
    ensures WithinOneCall(rest)
    ensures var after := Execute(s, [CallStart] + rest);
      after.Some? && after.value.control == FailTearingDown && after.value.workers == s.workers
  {
    var go, fail := ControlActs(true), ControlActs(false);
    var t1 := s.(control := StartMarking);
    var t2 := t1.(readiness := Starting, control := StartClearing);
    var t3 := t2.(accepting := false, control := StartInitializing);
    var t4 := t3.(control := FailClearing);
    var t5 := t4.(control := FailTearingDown);
    rest := [go, go, fail, go];
    assert Next(s, CallStart) == Some(t1) && Next(t1, go) == Some(t2) && Next(t2, go) == Some(t3)
        && Next(t3, fail) == Some(t4) && Next(t4, go) == Some(t5);
    hide Next;
    ExecuteCons(s, t1, CallStart, rest);
    ExecuteCons(t1, t2, go, [go, fail, go]);
    ExecuteCons(t2, t3, go, [fail, go]);
    ExecuteCons(t3, t4, fail, [go]);
    ExecuteCons(t4, t5, go, []);
  }

  /** Only `close` waits. A start that does its work may fail and release the resources while an operation is
      running exactly when one is running at the call: during the start none can begin, and none is awaited. */
  lemma FailedStartDoesNotWait(s: State)
    requires Reachable(s) && s.control == Idle && s.readiness in {New, Failed, Closed}
    ensures (exists rest :: FailsOverOperation(s, rest)) <==> s.inFlight > 0
  {
    ReachableHolds(s);
    hide Reachable;
    if s.inFlight > 0 {
      hide Execute;
      var rest := StartFails(s);
      assert FailsOverOperation(s, rest);
    }
    if rest :| FailsOverOperation(s, rest) {
      var t := s.(control := StartMarking);
      assert Next(s, CallStart) == Some(t);
      ExecuteCons(s, t, CallStart, rest);
      hide Execute, CountInside, LockIsHeld;
      NextKeepsInvariant(s, CallStart);
      WithinOneStart(t, rest);
    }
  }

  /** Resources are released only with nobody inside, or after the latest `close` gave up at its deadline. */
  lemma ReleaseAfterWaiting(s: State)
    requires Reachable(s) && s.control in {CloseTearingDown, FailTearingDown}
    ensures CountInside(s.workers) == 0 || s.gaveUp
  {
    ReachableHolds(s);
    hide CountInside, Reachable, LockIsHeld;
  }

  /** `gaveUp` tells the truth: it is set by a check past the deadline with operations running, and cleared by
      a check that found none. */
  lemma GaveUpMeans(s: State, a: Action)
    requires Reachable(s) && Next(s, a).Some? && Next(s, a).value.gaveUp != s.gaveUp
    ensures s.control == CloseChecking && a.ControlActs? && Next(s, a).value.control == CloseTearingDown
    ensures if s.gaveUp then CountInside(s.workers) == 0 else s.expired && CountInside(s.workers) > 0
  {
    ReachableHolds(s);
    hide CountInside, Reachable, LockIsHeld;
  }

  /** The container and an operation that show it: after a `close` that gave up, the next start fails. */
  lemma AbandonedOperationMeetsFailedStart()
    ensures exists s :: Reachable(s) && s.control == FailTearingDown && CountInside(s.workers) == 1
  {
    AbandonedIsReachable();
    var s := Abandoned();
    assert CountInside(s.workers) == 1;
    hide Reachable, CountInside, Execute;
    var rest := StartFails(s);
    ReachableRun(s, Execute(s, [CallStart] + rest).value, [CallStart] + rest);
  }

  // ---------- how a call ends ----------

  /** A call of the control thread ends in one of three ways: started and accepting, failed, or closed; the latter two
      refuse all operations. */
  lemma CallsEnd(s: State, a: Action)
    requires Reachable(s) && Next(s, a).Some? && s.control != Idle && Next(s, a).value.control == Idle
    ensures var t := Next(s, a).value;
      && (s.control == StartAccepting ==> t.readiness == Ready && t.accepting)
      && (s.control == FailMarking ==> t.readiness == Failed && !t.accepting)
      && (s.control == CloseFinishing ==> t.readiness == Closed && !t.accepting)
      && (s.control == StartAccepting || s.control == FailMarking || s.control == CloseFinishing)
  {
    ReachableHolds(s);
    hide CountInside, Reachable, LockIsHeld;
  }

  /** A close that finds nobody inside, or finds its deadline passed, ends without waiting. */
  lemma CloseEnds(s: State)
    requires Reachable(s) && s.control == CloseChecking && (s.inFlight == 0 || s.expired)
    ensures var go := ControlActs(true); var after := Execute(s, [go, go, go]);
      after.Some? && after.value.control == Idle && after.value.readiness == Closed && after.value.owner == Nobody
      && after.value.workers == s.workers
  {
    var go := ControlActs(true);
    var s1 := s.(owner := Nobody, gaveUp := s.inFlight > 0, control := CloseTearingDown);
    var s2 := s1.(control := CloseFinishing);
    var s3 := s2.(readiness := Closed, control := Idle);
    CheckingIsEmptyHanded(s);
    assert Next(s, go) == Some(s1) && Next(s1, go) == Some(s2) && Next(s2, go) == Some(s3);
    hide Next, Reachable;
    ExecuteCons(s, s1, go, [go, go]);
    ExecuteCons(s1, s2, go, [go]);
    ExecuteCons(s2, s3, go, []);
  }

  lemma CheckingIsEmptyHanded(s: State)
    requires Reachable(s)
    ensures s.inFlight >= 0
  {
    ReachableHolds(s);
  }

  /** While a close waits with the lock free, a worker inside can leave, and time can pass. */
  lemma WaitingLetsGo(s: State, i: nat)
    requires Reachable(s) && s.control == CloseWaiting && s.owner == Nobody && i < |s.workers| && s.workers[i] == Inside
    ensures var act := WorkerActs(i);
      Execute(s, [act, act]) == Some(s.(workers := s.workers[i := Outside], inFlight := s.inFlight - 1))
  {
    var act := WorkerActs(i);
    var s1 := Goes(s, i, Leaving, WorkerThread(i));
    var s2 := Goes(s1, i, Outside, Nobody).(inFlight := s.inFlight - 1);
    assert Next(s, act) == Some(s1) && Next(s1, act) == Some(s2);
    hide Next, Reachable;
    ExecuteCons(s, s1, act, [act]);
    ExecuteCons(s1, s2, act, []);
    assert s2.workers == s.workers[i := Outside];
  }
}
