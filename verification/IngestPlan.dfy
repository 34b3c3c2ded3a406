/** What one document ingest is meant to do to the store, key by key. */
module IngestPlan {
  import opened Common
  import opened Store

  datatype RemovedChunkPolicy = MarkRemovedChunk | HardDelete

  datatype Op =
    | InsertOp(memory: Create)
    | ReplaceOp(existing: Record, memory: Create)
    | RemoveOp(existing: Record)

  function KeyOf(op: Op): Option<string> {
    if op.RemoveOp? then op.existing.data.sourceHash else op.memory.sourceHash
  }

  /** Python's `a or b` on optional strings. */
  function Or(a: Option<string>, b: Option<string>): Option<string> {
    if a.Some? && a.value != "" then a else b
  }

  function ApplyOp(policy: RemovedChunkPolicy, now: int, db: Database, op: Op): Result<Database> {
    match op
    case InsertOp(memory) => Ok(Insert(db, memory, now))
    case ReplaceOp(existing, memory) =>
      (match Or(memory.stableKey, Or(existing.data.stableKey, existing.data.sourceHash))
       case None => Err(PersistenceError)
       case Some(key) => PersistExisting(db, ReplaceRecord(existing, memory, key, now)))
    case RemoveOp(existing) =>
      if policy.HardDelete? then Delete(db, existing.memoryId) else MarkRemoved(db, existing, now)
  }

  function ApplyOps(policy: RemovedChunkPolicy, now: int, db: Database, ops: seq<Op>): Result<Database> {
    if ops == [] then Ok(db)
    else
      match ApplyOps(policy, now, db, ops[..|ops| - 1])
      case Err(e) => Err(e)
      case Ok(before) => ApplyOp(policy, now, before, ops[|ops| - 1])
  }

  lemma {:induction false} ApplyOpsAppend(policy: RemovedChunkPolicy, now: int, db: Database, a: seq<Op>, b: seq<Op>)
    ensures ApplyOps(policy, now, db, a + b) ==
      match ApplyOps(policy, now, db, a) { case Err(e) => Err(e) case Ok(mid) => ApplyOps(policy, now, mid, b) }
  {
    hide ApplyOp;
    if b == [] {
      assert a + b == a;
    } else {
      assert (a + b)[..|a + b| - 1] == a + b[..|b| - 1];
      ApplyOpsAppend(policy, now, db, a, b[..|b| - 1]);
    }
  }

  // ---------- the document by key ----------

  /** The stored chunk of `doc` with source hash `key`. */
  ghost function At(db: Database, doc: Document, key: string): Option<Record> {
    if exists id :: Mine(db, doc, id) && db.records[id].data.sourceHash == Some(key) then
      var id :| Mine(db, doc, id) && db.records[id].data.sourceHash == Some(key);
      Some(db.records[id])
    else None
  }

  lemma AtIs(db: Database, doc: Document, id: nat, key: string)
    requires Tidy(db, doc) && Mine(db, doc, id) && db.records[id].data.sourceHash == Some(key)
    ensures At(db, doc, key) == Some(db.records[id])
  {
  }

  lemma AtIsMine(db: Database, doc: Document, key: string)
    requires Tidy(db, doc) && At(db, doc, key).Some?
    ensures var r := At(db, doc, key).value;
      Mine(db, doc, r.memoryId) && r == db.records[r.memoryId] && r.data.sourceHash == Some(key)
  {
  }

  /** A record without its id and its timestamps. */
  function Erase(r: Record): Record {
    r.(memoryId := 0, createdAt := 0, updatedAt := 0)
  }

  function EraseOption(r: Option<Record>): Option<Record> {
    if r.Some? then Some(Erase(r.value)) else None
  }

  /** The document up to memory ids and timestamps. */
  ghost function View(db: Database, doc: Document, key: string): Option<Record> {
    EraseOption(At(db, doc, key))
  }

  /** Everything that does not belong to the document. */
  function Others(db: Database, doc: Document): map<nat, Record> {
    map id | id in db.records && !BelongsTo(db.records[id].data, doc) :: db.records[id]
  }

  // ---------- the target ----------

  /** The test for an unchanged chunk. */
  predicate Matches(r: Record, c: Create) {
    && r.data.chunkId == c.chunkId
    && r.data.contentHash == c.contentHash
    && r.data.status == Active
    && r.data.allowRetrieval
    && r.data.allowLlmContext
  }

  predicate Gone(r: Record) {
    r.data.status == Removed || r.data.status == Deleted
  }

  /** A planned chunk of `doc` under its own key. */
  predicate IsChunkOf(doc: Document, key: string, c: Create) {
    && BelongsTo(c, doc)
    && key != "" && c.sourceHash == Some(key) && c.stableKey == Some(key)
    && c.status == Active && c.allowRetrieval && c.allowLlmContext && !c.documentRemoved
  }

  ghost predicate PlannedFor(doc: Document, planned: map<string, Create>) {
    forall key :: key in planned ==> IsChunkOf(doc, key, planned[key])
  }

  function Marked(r: Record): Record {
    r.(version := r.version + 1,
       data := r.data.(status := Removed, allowRetrieval := false, allowLlmContext := false, documentRemoved := true))
  }

  /** What a stored chunk (or its absence) should become, given the chunk planned under the same key, if any. */
  function Target(policy: RemovedChunkPolicy, chunk: Option<Create>, current: Option<Record>): Option<Record> {
    match (chunk, current)
    case (Some(c), None) => Some(Record(0, c, "", 1, 0, 0))
    case (Some(c), Some(r)) => if Matches(r, c) then current else Some(r.(data := c, version := r.version + 1))
    case (None, None) => None
    case (None, Some(r)) =>
      if Gone(r) then current
      else if policy.HardDelete? then None
      else Some(Marked(r))
  }

  function Planned(planned: map<string, Create>, key: string): Option<Create> {
    if key in planned then Some(planned[key]) else None
  }

  /** Reaching the target once is enough. */
  lemma TargetIsStable(policy: RemovedChunkPolicy, doc: Document, key: string, chunk: Option<Create>, current: Option<Record>)
    requires chunk.Some? ==> IsChunkOf(doc, key, chunk.value)
    ensures Target(policy, chunk, Target(policy, chunk, current)) == Target(policy, chunk, current)
  {
  }

  // ---------- plans ----------

  /** `op` is what the target asks for at its key. */
  ghost predicate OpFits(db: Database, doc: Document, planned: map<string, Create>, key: string, op: Op) {
    match op
    case InsertOp(memory) =>
      key in planned && memory == planned[key] && At(db, doc, key).None?
    case ReplaceOp(existing, memory) =>
      key in planned && memory == planned[key] && At(db, doc, key) == Some(existing) && !Matches(existing, memory)
    case RemoveOp(existing) =>
      key !in planned && At(db, doc, key) == Some(existing) && !Gone(existing)
  }

  /** Everything an operation does: its own key reaches the target, nothing else changes. */
  ghost predicate Hits(
    policy: RemovedChunkPolicy, db: Database, doc: Document, planned: map<string, Create>, key: string, after: Database
  ) {
    && Tidy(after, doc)
    && View(after, doc, key) == Target(policy, Planned(planned, key), View(db, doc, key))
    && (forall other :: other != key ==> At(after, doc, other) == At(db, doc, other))
    && Others(after, doc) == Others(db, doc)
  }

  lemma InsertHits(policy: RemovedChunkPolicy, now: int, db: Database, doc: Document, planned: map<string, Create>, key: string)
    requires Tidy(db, doc) && key in planned && IsChunkOf(doc, key, planned[key]) && At(db, doc, key).None?
    ensures Hits(policy, db, doc, planned, key, Insert(db, planned[key], now))
  {
    var after := Insert(db, planned[key], now);
    InsertKeepsTidy(now, db, doc, planned[key], key);
    AtIs(after, doc, db.nextId, key);
    forall other | other != key ensures At(after, doc, other) == At(db, doc, other) {
      SameAt(db, after, doc, other, db.nextId);
    }
    assert Others(after, doc) == Others(db, doc);
  }

  lemma InsertKeepsTidy(now: int, db: Database, doc: Document, c: Create, key: string)
    requires Tidy(db, doc) && IsChunkOf(doc, key, c) && At(db, doc, key).None?
    ensures Tidy(Insert(db, c, now), doc)
  {
    assert forall id :: Mine(db, doc, id) ==> db.records[id].data.sourceHash != Some(key);
  }

  /** If only record `touched` differs, keys that it never has are unaffected. */
  lemma SameAt(db: Database, after: Database, doc: Document, other: string, touched: nat)
    requires Tidy(db, doc) && Tidy(after, doc)
    requires forall id :: id != touched ==> (id in db.records <==> id in after.records)
    requires forall id :: id != touched && id in db.records ==> after.records[id] == db.records[id]
    requires Mine(db, doc, touched) ==> db.records[touched].data.sourceHash != Some(other)
    requires Mine(after, doc, touched) ==> after.records[touched].data.sourceHash != Some(other)
    ensures At(after, doc, other) == At(db, doc, other)
  {
    if At(db, doc, other).Some? {
      AtIsMine(db, doc, other);
      var id := At(db, doc, other).value.memoryId;
      assert Mine(after, doc, id);
      AtIs(after, doc, id, other);
    } else if At(after, doc, other).Some? {
      AtIsMine(after, doc, other);
      assert Mine(db, doc, At(after, doc, other).value.memoryId);
    }
  }

  /** Storing a new version of the chunk under the same key. */
  lemma RewriteHits(
    policy: RemovedChunkPolicy, db: Database, doc: Document, planned: map<string, Create>, key: string, old_: Record, new_: Record
  )
    requires Tidy(db, doc) && At(db, doc, key) == Some(old_)
    requires new_.memoryId == old_.memoryId && BelongsTo(new_.data, doc) && new_.data.sourceHash == Some(key)
    requires Some(Erase(new_)) == Target(policy, Planned(planned, key), Some(Erase(old_)))
    ensures PersistExisting(db, new_).Ok? && Hits(policy, db, doc, planned, key, PersistExisting(db, new_).value)
  {
    hide Target;
    AtIsMine(db, doc, key);
    var id, after := old_.memoryId, db.(records := db.records[old_.memoryId := new_]);
    assert Tidy(after, doc);
    AtIs(after, doc, id, key);
    forall other | other != key ensures At(after, doc, other) == At(db, doc, other) {
      SameAt(db, after, doc, other, id);
    }
    assert Others(after, doc) == Others(db, doc);
  }

  lemma DeleteHits(policy: RemovedChunkPolicy, db: Database, doc: Document, planned: map<string, Create>, key: string, old_: Record)
    requires Tidy(db, doc) && At(db, doc, key) == Some(old_) && !Gone(old_)
    requires policy.HardDelete? && key !in planned
    ensures Delete(db, old_.memoryId).Ok? && Hits(policy, db, doc, planned, key, Delete(db, old_.memoryId).value)
  {
    AtIsMine(db, doc, key);
    var id, after := old_.memoryId, db.(records := db.records - {old_.memoryId});
    assert Tidy(after, doc);
    assert At(after, doc, key).None?;
    forall other | other != key ensures At(after, doc, other) == At(db, doc, other) {
      SameAt(db, after, doc, other, id);
    }
    assert Others(after, doc) == Others(db, doc);
  }

  lemma OpHits(
    policy: RemovedChunkPolicy, now: int, db: Database, doc: Document, planned: map<string, Create>, key: string, op: Op
  )
    requires Tidy(db, doc) && PlannedFor(doc, planned) && OpFits(db, doc, planned, key, op)
    ensures ApplyOp(policy, now, db, op).Ok?
    ensures Hits(policy, db, doc, planned, key, ApplyOp(policy, now, db, op).value)
  {
    hide Hits, At;
    match op
    case InsertOp(memory) =>
      InsertHits(policy, now, db, doc, planned, key);
    case ReplaceOp(existing, memory) =>
      RewriteHits(policy, db, doc, planned, key, existing, ReplaceRecord(existing, memory, key, now));
    case RemoveOp(existing) =>
      if policy.HardDelete? {
        DeleteHits(policy, db, doc, planned, key, existing);
      } else {
        RemovalHits(policy, now, db, doc, planned, key, existing);
      }
  }

  lemma RemovalHits(
    policy: RemovedChunkPolicy, now: int, db: Database, doc: Document, planned: map<string, Create>, key: string, existing: Record
  )
    requires Tidy(db, doc) && !policy.HardDelete? && key !in planned
    requires At(db, doc, key) == Some(existing) && !Gone(existing)
    ensures MarkRemoved(db, existing, now).Ok?
    ensures Hits(policy, db, doc, planned, key, MarkRemoved(db, existing, now).value)
  {
    AtIsMine(db, doc, key);
    hide Hits, At;
    RewriteHits(policy, db, doc, planned, key, existing, Marked(existing).(updatedAt := now));
  }

  // ---------- runs of operations ----------

  function OpKey(op: Op): string {
    if KeyOf(op).Some? then KeyOf(op).value else ""
  }

  function OpKeys(ops: seq<Op>): (keys: seq<string>)
    ensures |keys| == |ops|
  {
    seq(|ops|, k requires 0 <= k < |ops| => OpKey(ops[k]))
  }

  /** One fitting operation for every key that is off target, and no other. */
  ghost predicate IsPlan(
    policy: RemovedChunkPolicy, db: Database, doc: Document, planned: map<string, Create>, ops: seq<Op>
  ) {
    && NoDuplicates(OpKeys(ops))
    && (forall k :: 0 <= k < |ops| ==> OpFits(db, doc, planned, OpKey(ops[k]), ops[k]))
    && (forall key :: key !in OpKeys(ops) ==>
          Target(policy, Planned(planned, key), View(db, doc, key)) == View(db, doc, key))
  }

  /** Every key is where it was or where it should be. */
  ghost predicate Progress(
    policy: RemovedChunkPolicy, db: Database, doc: Document, planned: map<string, Create>, after: Database
  ) {
    && Tidy(after, doc)
    && Others(after, doc) == Others(db, doc)
    && (forall key ::
          || View(after, doc, key) == View(db, doc, key)
          || View(after, doc, key) == Target(policy, Planned(planned, key), View(db, doc, key)))
  }

  /** Every key is where it should be. */
  ghost predicate Reached(
    policy: RemovedChunkPolicy, db: Database, doc: Document, planned: map<string, Create>, after: Database
  ) {
    && Tidy(after, doc)
    && Others(after, doc) == Others(db, doc)
    && (forall key :: View(after, doc, key) == Target(policy, Planned(planned, key), View(db, doc, key)))
  }

  /** After some operations: their keys are on target, all other chunks are the very same records. */
  ghost predicate Partly(
    policy: RemovedChunkPolicy, db: Database, doc: Document, planned: map<string, Create>, done: seq<string>, after: Database
  ) {
    && Tidy(after, doc)
    && Others(after, doc) == Others(db, doc)
    && (forall key :: key in done ==> View(after, doc, key) == Target(policy, Planned(planned, key), View(db, doc, key)))
    && (forall key :: key !in done ==> At(after, doc, key) == At(db, doc, key))
  }

  lemma PartlyNext(
    policy: RemovedChunkPolicy, db: Database, doc: Document, planned: map<string, Create>,
    done: seq<string>, mid: Database, key: string, after: Database
  )
    requires Partly(policy, db, doc, planned, done, mid) && key !in done
    requires Hits(policy, mid, doc, planned, key, after)
    ensures Partly(policy, db, doc, planned, done + [key], after)
  {
    hide Target, Tidy, Others, At;
    forall other | other in done ensures View(after, doc, other) == Target(policy, Planned(planned, other), View(db, doc, other)) {
      assert other != key;
      assert At(after, doc, other) == At(mid, doc, other);
    }
  }

  lemma OpStillFits(
    policy: RemovedChunkPolicy, db: Database, doc: Document, planned: map<string, Create>,
    done: seq<string>, mid: Database, key: string, op: Op
  )
    requires Partly(policy, db, doc, planned, done, mid) && key !in done && OpFits(db, doc, planned, key, op)
    ensures OpFits(mid, doc, planned, key, op)
  {
    hide Target, Tidy, Others, At, Gone, Matches;
  }

  lemma PartlyStep(
    policy: RemovedChunkPolicy, now: int, db: Database, doc: Document, planned: map<string, Create>, ops: seq<Op>,
    k: nat, mid: Database
  )
    requires PlannedFor(doc, planned) && IsPlan(policy, db, doc, planned, ops) && k < |ops|
    requires Partly(policy, db, doc, planned, OpKeys(ops)[..k], mid)
    ensures ApplyOp(policy, now, mid, ops[k]).Ok?
    ensures Partly(policy, db, doc, planned, OpKeys(ops)[..k + 1], ApplyOp(policy, now, mid, ops[k]).value)
  {
    var done, key := OpKeys(ops)[..k], OpKeys(ops)[k];
    assert key == OpKey(ops[k]) && OpFits(db, doc, planned, key, ops[k]);
    NoDuplicatesPrefix(OpKeys(ops), k);
    assert OpKeys(ops)[..k + 1] == done + [key];
    hide *;
    OpStillFits(policy, db, doc, planned, done, mid, key, ops[k]);
    PartlyIsTidy(policy, db, doc, planned, done, mid);
    OpHits(policy, now, mid, doc, planned, key, ops[k]);
    PartlyNext(policy, db, doc, planned, done, mid, key, ApplyOp(policy, now, mid, ops[k]).value);
  }

  lemma PartlyStart(policy: RemovedChunkPolicy, db: Database, doc: Document, planned: map<string, Create>)
    requires Tidy(db, doc)
    ensures Partly(policy, db, doc, planned, [], db)
  {
  }

  /** Applying the first `k` operations of a plan puts exactly their keys on target. */
  lemma {:induction false} PrefixIsPartly(
    policy: RemovedChunkPolicy, now: int, db: Database, doc: Document, planned: map<string, Create>, ops: seq<Op>, k: nat
  )
    requires Tidy(db, doc) && PlannedFor(doc, planned) && IsPlan(policy, db, doc, planned, ops) && k <= |ops|
    ensures ApplyOps(policy, now, db, ops[..k]).Ok?
    ensures Partly(policy, db, doc, planned, OpKeys(ops)[..k], ApplyOps(policy, now, db, ops[..k]).value)
  {
    hide Partly, Tidy, PlannedFor, ApplyOp, IsPlan, OpKeys;
    if k == 0 {
      PartlyStart(policy, db, doc, planned);
    } else {
      PrefixIsPartly(policy, now, db, doc, planned, ops, k - 1);
      assert ops[..k][..k - 1] == ops[..k - 1];
      PartlyStep(policy, now, db, doc, planned, ops, k - 1, ApplyOps(policy, now, db, ops[..k - 1]).value);
    }
  }

  lemma PartlyIsTidy(
    policy: RemovedChunkPolicy, db: Database, doc: Document, planned: map<string, Create>, done: seq<string>, after: Database
  )
    requires Partly(policy, db, doc, planned, done, after)
    ensures Tidy(after, doc)
  {
  }

  lemma PartlyIsProgress(
    policy: RemovedChunkPolicy, db: Database, doc: Document, planned: map<string, Create>, done: seq<string>, after: Database
  )
    requires Partly(policy, db, doc, planned, done, after)
    ensures Progress(policy, db, doc, planned, after)
  {
    hide Target, Tidy, Others, At;
    forall key ensures
      || View(after, doc, key) == View(db, doc, key)
      || View(after, doc, key) == Target(policy, Planned(planned, key), View(db, doc, key))
    {
      if key !in done {
        assert At(after, doc, key) == At(db, doc, key);
      }
    }
  }

  /** Interrupted after any number of operations, a plan has made progress. */
  lemma PrefixIsProgress(
    policy: RemovedChunkPolicy, now: int, db: Database, doc: Document, planned: map<string, Create>, ops: seq<Op>, k: nat
  )
    requires Tidy(db, doc) && PlannedFor(doc, planned) && IsPlan(policy, db, doc, planned, ops) && k <= |ops|
    ensures ApplyOps(policy, now, db, ops[..k]).Ok?
    ensures Progress(policy, db, doc, planned, ApplyOps(policy, now, db, ops[..k]).value)
  {
    hide *;
    PrefixIsPartly(policy, now, db, doc, planned, ops, k);
    PartlyIsProgress(policy, db, doc, planned, OpKeys(ops)[..k], ApplyOps(policy, now, db, ops[..k]).value);
  }

  /** Carried out in full, a plan reaches the target. */
  lemma PlanReachesTarget(
    policy: RemovedChunkPolicy, now: int, db: Database, doc: Document, planned: map<string, Create>, ops: seq<Op>
  )
    requires Tidy(db, doc) && PlannedFor(doc, planned) && IsPlan(policy, db, doc, planned, ops)
    ensures ApplyOps(policy, now, db, ops).Ok?
    ensures Reached(policy, db, doc, planned, ApplyOps(policy, now, db, ops).value)
  {
    PrefixIsPartly(policy, now, db, doc, planned, ops, |ops|);
    assert ops[..|ops|] == ops && OpKeys(ops)[..|ops|] == OpKeys(ops);
    hide Target, Tidy, Others, At, ApplyOps, OpFits, NoDuplicates;
    var after := ApplyOps(policy, now, db, ops).value;
    forall key ensures View(after, doc, key) == Target(policy, Planned(planned, key), View(db, doc, key)) {
      if key !in OpKeys(ops) {
        assert At(after, doc, key) == At(db, doc, key);
      }
    }
  }

  // ---------- convergence and crash recovery ----------

  lemma TargetOfEither(
    policy: RemovedChunkPolicy, doc: Document, planned: map<string, Create>, key: string,
    before: Option<Record>, mid: Option<Record>
  )
    requires PlannedFor(doc, planned)
    requires mid == before || mid == Target(policy, Planned(planned, key), before)
    ensures Target(policy, Planned(planned, key), mid) == Target(policy, Planned(planned, key), before)
  {
    TargetIsStable(policy, doc, key, Planned(planned, key), before);
  }

  /** Progress on top of progress is progress: any number of interrupted ingests. */
  lemma ProgressContinues(
    policy: RemovedChunkPolicy, db: Database, mid: Database, after: Database, doc: Document, planned: map<string, Create>
  )
    requires PlannedFor(doc, planned)
    requires Progress(policy, db, doc, planned, mid) && Progress(policy, mid, doc, planned, after)
    ensures Progress(policy, db, doc, planned, after)
  {
    hide Target, Tidy, Others, PlannedFor, View, Planned;
    forall key ensures
      || View(after, doc, key) == View(db, doc, key)
      || View(after, doc, key) == Target(policy, Planned(planned, key), View(db, doc, key))
    {
      TargetOfEither(policy, doc, planned, key, View(db, doc, key), View(mid, doc, key));
    }
  }

  /** A completed ingest on top of interrupted ones reaches the target of the original state. */
  lemma ProgressCompletes(
    policy: RemovedChunkPolicy, db: Database, mid: Database, after: Database, doc: Document, planned: map<string, Create>
  )
    requires PlannedFor(doc, planned)
    requires Progress(policy, db, doc, planned, mid) && Reached(policy, mid, doc, planned, after)
    ensures Reached(policy, db, doc, planned, after)
  {
    hide Target, Tidy, Others, PlannedFor, View, Planned;
    forall key ensures View(after, doc, key) == Target(policy, Planned(planned, key), View(db, doc, key)) {
      TargetOfEither(policy, doc, planned, key, View(db, doc, key), View(mid, doc, key));
    }
  }

  /** Two stores that agree on everything but the ids and timestamps of the document's chunks. */
  ghost predicate SameUpToIdsAndTimes(a: Database, b: Database, doc: Document) {
    && Others(a, doc) == Others(b, doc)
    && (forall key :: View(a, doc, key) == View(b, doc, key))
  }

  /** Crash recovery: whatever prefix of its plan an ingest committed, ingesting again leaves the same store as
      one uninterrupted ingest, up to fresh ids and timestamps. */
  lemma CrashRecovery(
    policy: RemovedChunkPolicy, t1: int, t2: int, db: Database, doc: Document, planned: map<string, Create>,
    ops: seq<Op>, committed: nat, again: seq<Op>
  )
    requires Tidy(db, doc) && PlannedFor(doc, planned) && IsPlan(policy, db, doc, planned, ops) && committed <= |ops|
    requires ApplyOps(policy, t1, db, ops[..committed]).Ok? ==>
      IsPlan(policy, ApplyOps(policy, t1, db, ops[..committed]).value, doc, planned, again)
    ensures ApplyOps(policy, t1, db, ops[..committed]).Ok? && ApplyOps(policy, t1, db, ops).Ok?
    ensures var crashed := ApplyOps(policy, t1, db, ops[..committed]).value;
      && ApplyOps(policy, t2, crashed, again).Ok?
      && SameUpToIdsAndTimes(ApplyOps(policy, t2, crashed, again).value, ApplyOps(policy, t1, db, ops).value, doc)
  {
    PrefixIsProgress(policy, t1, db, doc, planned, ops, committed);
    hide ApplyOps, IsPlan, PlannedFor, Tidy, View, Others, Target;
    PlanReachesTarget(policy, t1, db, doc, planned, ops);
    var crashed := ApplyOps(policy, t1, db, ops[..committed]).value;
    PlanReachesTarget(policy, t2, crashed, doc, planned, again);
    ProgressCompletes(policy, db, crashed, ApplyOps(policy, t2, crashed, again).value, doc, planned);
  }

  /** On target there is nothing left to plan: ingesting again writes nothing. */
  lemma NothingLeftToPlan(
    policy: RemovedChunkPolicy, db: Database, after: Database, doc: Document, planned: map<string, Create>, ops: seq<Op>
  )
    requires PlannedFor(doc, planned) && Reached(policy, db, doc, planned, after)
    requires IsPlan(policy, after, doc, planned, ops)
    ensures ops == []
  {
    if ops != [] {
      var op := ops[0];
      var key := OpKey(op);
      assert OpFits(after, doc, planned, key, op);
      hide At, IsPlan, Tidy, Others, OpKey;
      TargetIsStable(policy, doc, key, Planned(planned, key), View(db, doc, key));
      FittingOpChanges(policy, after, doc, planned, key, op);
    }
  }

  lemma FittingOpChanges(
    policy: RemovedChunkPolicy, db: Database, doc: Document, planned: map<string, Create>, key: string, op: Op
  )
    requires OpFits(db, doc, planned, key, op)
    ensures Target(policy, Planned(planned, key), View(db, doc, key)) != View(db, doc, key)
  {
    hide At;
  }

  /** Chunk `id` of the document is live under `key`. */
  predicate IsActive(db: Database, doc: Document, id: nat, key: string) {
    Mine(db, doc, id) && db.records[id].data.sourceHash == Some(key) && db.records[id].data.status == Active
  }

  /** Convergence: after a completed ingest the active chunks of the document are exactly the planned ones,
      with their planned ids and content, whatever was stored before. */
  lemma Convergence(
    policy: RemovedChunkPolicy, db: Database, after: Database, doc: Document, planned: map<string, Create>, key: string
  )
    requires PlannedFor(doc, planned) && Reached(policy, db, doc, planned, after)
    ensures key in planned <==> exists id :: IsActive(after, doc, id, key)
    ensures forall id :: IsActive(after, doc, id, key) ==>
      && key in planned
      && after.records[id].data.chunkId == planned[key].chunkId
      && after.records[id].data.contentHash == planned[key].contentHash
      && after.records[id].data.allowRetrieval && after.records[id].data.allowLlmContext
  {
    var target := Target(policy, Planned(planned, key), View(db, doc, key));
    assert View(after, doc, key) == target;
    TargetIsActive(policy, doc, planned, key, View(db, doc, key));
    hide Target, Reached, PlannedFor, View;
    if key in planned {
      AtFromView(after, doc, key);
      AtIsMine(after, doc, key);
      assert IsActive(after, doc, At(after, doc, key).value.memoryId, key);
    }
    forall id | IsActive(after, doc, id, key) ensures View(after, doc, key) == Some(Erase(after.records[id])) {
      AtIs(after, doc, id, key);
      AtFromView(after, doc, key);
    }
  }

  /** The stored chunk under `key` already has the planned identity and content, but another place in the document. */
  predicate IsMisplaced(stored: Option<Record>, chunk: Create) {
    && stored.Some? && Matches(stored.value, chunk)
    && stored.value.data.payload.documentChunkIndex != chunk.payload.documentChunkIndex
  }

  /** Where a chunk stands in the document takes no part in the comparison: after a completed ingest a planned chunk
      has its planned place exactly unless it was stored unchanged before under another one. */
  lemma PlacesGoStale(
    policy: RemovedChunkPolicy, db: Database, after: Database, doc: Document, planned: map<string, Create>, key: string
  )
    requires Reached(policy, db, doc, planned, after) && key in planned
    ensures At(after, doc, key).Some?
    ensures At(after, doc, key).value.data.payload.documentChunkIndex == planned[key].payload.documentChunkIndex
       <==> !IsMisplaced(At(db, doc, key), planned[key])
  {
    AtFromView(after, doc, key);
    AtFromView(db, doc, key);
    assert View(after, doc, key) == Target(policy, Planned(planned, key), View(db, doc, key));
    hide At, Tidy, Others, View, Reached;
  }

  lemma AtFromView(db: Database, doc: Document, key: string)
    ensures View(db, doc, key) == EraseOption(At(db, doc, key))
  {
  }

  lemma TargetIsActive(
    policy: RemovedChunkPolicy, doc: Document, planned: map<string, Create>, key: string, current: Option<Record>
  )
    requires PlannedFor(doc, planned)
    ensures var target := Target(policy, Planned(planned, key), current);
      && (key in planned ==> target.Some? && target.value.data.status == Active)
      && (target.Some? && target.value.data.status == Active ==>
            && key in planned
            && target.value.data.chunkId == planned[key].chunkId
            && target.value.data.contentHash == planned[key].contentHash
            && target.value.data.allowRetrieval && target.value.data.allowLlmContext)
  {
  }
}
