/** The two services that change stored agent memories. */
module LifecycleService {
  import opened Common
  import opened Store
  import opened Metadata
  import opened Lifecycle
  import opened Privacy

  datatype Edge = Edge(from: string, to: string, kind: string)

  class MemoryRepository {
    var records: Memories
    var edges: seq<Edge>

    constructor (records: Memories)
      ensures this.records == records && edges == []
    {
      this.records, edges := records, [];
    }

    /** Two records and an edge in one managed transaction, when the database carries out only the first `writes`
        of its writes: on a failure everything written so far is rolled back. */
    method WriteLinked(a: string, x: AgentMemory, b: string, y: AgentMemory, edge: Edge, writes: nat) returns (r: Result<()>)
      modifies this
      ensures if writes >= 3
        then r == Ok(()) && records == old(records)[a := x][b := y] && edges == old(edges) + [edge]
        else r == Err(PersistenceError) && records == old(records) && edges == old(edges)
    {
      var before, edgesBefore, done := records, edges, 0;
      if done < writes {
        records, done := records[a := x], done + 1;
        if done < writes {
          records, done := records[b := y], done + 1;
          if done < writes {
            edges, done := edges + [edge], done + 1;
            return Ok(());
          }
        }
      }
      records, edges := before, edgesBefore;
      r := Err(PersistenceError);
    }
  }

  class MemoryLifecycleManager {
    const repository: MemoryRepository

    constructor (repository: MemoryRepository)
      ensures this.repository == repository
    {
      this.repository := repository;
    }

    method PromoteMemory(id: string, reason: Option<string>) returns (r: Result<AgentMemory>)
      modifies repository`records
      ensures match Promote(old(repository.records), id, reason)
        case Err(e) => r == Err(e) && repository.records == old(repository.records)
        case Ok(after) => repository.records == after && id in after && r == Ok(after[id])
    {
      r := Transitionable(repository.records, id, TERMINAL + {Expired, Superseded});
      if r.Ok? {
        var record := r.value;
        record := record.(status := Active, confidence := AtLeast(record.confidence, PROMOTION_CONFIDENCE_FLOOR),
                          importance := AtLeast(record.importance, PROMOTION_IMPORTANCE_FLOOR));
        record := Updated(r.value, record, "promote", reason, None);
        repository.records := repository.records[id := record];
        r := Ok(record);
      }
    }

    /** The caller's two records, checked in the order of the source. */
    method RequireBoth(a: string, b: string) returns (r: Result<(AgentMemory, AgentMemory)>)
      ensures r == BothTransitionable(repository.records, a, b)
    {
      if a == b {
        return Err(LifecycleError);
      }
      var first := RequireAgentMemory(repository.records, a);
      if first.Err? {
        return Err(first.error);
      }
      var second := RequireAgentMemory(repository.records, b);
      if second.Err? {
        return Err(second.error);
      }
      if first.value.status in TERMINAL {
        return Err(LifecycleError);
      }
      if second.value.status in TERMINAL {
        return Err(LifecycleError);
      }
      r := Ok((first.value, second.value));
    }

    method SupersedeMemory(oldId: string, newId: string, reason: Option<string>, writes: nat) returns (r: Result<()>)
      modifies repository
      ensures match Supersede(old(repository.records), oldId, newId, reason)
        case Err(e) => r == Err(e) && repository.records == old(repository.records)
        case Ok(after) =>
          if writes >= 3 then r == Ok(()) && repository.records == after
          else r == Err(PersistenceError) && repository.records == old(repository.records)
      ensures repository.edges == old(repository.edges) + if r.Ok? then [Edge(newId, oldId, "SUPERSEDES")] else []
    {
      var both := RequireBoth(oldId, newId);
      if both.Err? {
        return Err(both.error);
      }
      var (oldRecord, newRecord) := both.value;
      var replaced := oldRecord.(status := Superseded, supersededBy := Some(newId), allowRetrieval := false);
      replaced := Updated(oldRecord, replaced, "supersede", reason, Some(newId));
      var replacement := newRecord.(status := Active, allowRetrieval := true);
      replacement := Updated(newRecord, replacement, "supersede", reason, Some(oldId));
      r := repository.WriteLinked(oldId, replaced, newId, replacement, Edge(newId, oldId, "SUPERSEDES"), writes);
    }

    method ContradictMemory(a: string, b: string, reason: Option<string>, writes: nat) returns (r: Result<()>)
      modifies repository
      ensures match Contradict(old(repository.records), a, b, reason)
        case Err(e) => r == Err(e) && repository.records == old(repository.records)
        case Ok(after) =>
          if writes >= 3 then r == Ok(()) && repository.records == after
          else r == Err(PersistenceError) && repository.records == old(repository.records)
      ensures repository.edges == old(repository.edges) + if r.Ok? then [Edge(a, b, "CONTRADICTS")] else []
    {
      var both := RequireBoth(a, b);
      if both.Err? {
        return Err(both.error);
      }
      var (left, right) := both.value;
      var nextLeft := left.(status := Contradicted, confidence := AtLeast(left.confidence - CONTRADICTION_CONFIDENCE_DELTA, 0.0));
      var nextRight := right.(status := Contradicted, confidence := AtLeast(right.confidence - CONTRADICTION_CONFIDENCE_DELTA, 0.0));
      nextLeft := Updated(left, nextLeft, "contradict", reason, Some(b));
      nextRight := Updated(right, nextRight, "contradict", reason, Some(a));
      r := repository.WriteLinked(a, nextLeft, b, nextRight, Edge(a, b, "CONTRADICTS"), writes);
    }

    method ExpireMemory(id: string, reason: Option<string>, now: int) returns (r: Result<AgentMemory>)
      modifies repository`records
      ensures match Expire(old(repository.records), id, reason, now)
        case Err(e) => r == Err(e) && repository.records == old(repository.records)
        case Ok(after) => repository.records == after && id in after && r == Ok(after[id])
    {
      r := Transitionable(repository.records, id, TERMINAL);
      if r.Ok? {
        var expiresAt := if r.value.expiresAt.Some? then r.value.expiresAt else Some(now);
        var record := r.value.(status := Expired, expiresAt := expiresAt, allowRetrieval := false);
        record := Updated(r.value, record, "expire", reason, None);
        repository.records := repository.records[id := record];
        r := Ok(record);
      }
    }

    method ForgetMemory(id: string, reason: Option<string>) returns (r: Result<AgentMemory>)
      modifies repository`records
      ensures match Forget(old(repository.records), id, reason)
        case Err(e) => r == Err(e) && repository.records == old(repository.records)
        case Ok(after) => repository.records == after && id in after && r == Ok(after[id])
    {
      r := Transitionable(repository.records, id, TERMINAL);
      if r.Ok? {
        var record := r.value.(status := Forgotten, allowRetrieval := false, allowLlmContext := false);
        record := Updated(r.value, record, "forget", reason, None);
        repository.records := repository.records[id := record];
        r := Ok(record);
      }
    }

    method AddMemoryFeedback(id: string, feedback: Feedback) returns (r: Result<AgentMemory>)
      modifies repository`records
      ensures match AddFeedback(old(repository.records), id, feedback)
        case Err(e) => r == Err(e) && repository.records == old(repository.records)
        case Ok(after) => repository.records == after && id in after && r == Ok(after[id])
    {
      r := Transitionable(repository.records, id, TERMINAL);
      if r.Ok? {
        var confidence, importance := r.value.confidence, r.value.importance;
        if feedback.positive == Some(true) {
          confidence := AtMost(confidence + POSITIVE_FEEDBACK_DELTA, 1.0);
        } else if feedback.positive == Some(false) {
          confidence := AtLeast(confidence - NEGATIVE_FEEDBACK_DELTA, 0.0);
        }
        if feedback.confirmed == Some(true) {
          confidence := AtLeast(confidence, PROMOTION_CONFIDENCE_FLOOR);
          importance := AtLeast(importance, PROMOTION_IMPORTANCE_FLOOR);
        } else if feedback.confirmed == Some(false) {
          confidence := AtLeast(confidence - CONTRADICTION_CONFIDENCE_DELTA, 0.0);
        }
        if feedback.confidence.Some? {
          confidence := feedback.confidence.value;
        }
        if feedback.importance.Some? {
          importance := feedback.importance.value;
        }
        assert confidence == FeedbackConfidence(r.value.confidence, feedback);
        assert importance == FeedbackImportance(r.value.importance, feedback);
        hide FeedbackConfidence, FeedbackImportance;
        var metadata := WithEvent(r.value.metadata, "feedback_events", feedback.note, "last_feedback_at", JNull);
        var rating := if feedback.userRating.Some? then feedback.userRating else r.value.userRating;
        var record := r.value.(metadata := metadata, confidence := confidence, importance := importance, userRating := rating);
        record := Updated(r.value, record, "feedback", None, None);
        repository.records := repository.records[id := record];
        r := Ok(record);
      }
    }
  }

  /** How many of the listed records the operation changes. */
  function CountAffected(s: Memories, ids: seq<string>, op: ScopeOperation): nat {
    if ids == [] then 0
    else
      var id := ids[|ids| - 1];
      CountAffected(s, ids[..|ids| - 1], op) + if id in s && Affected(s[id], op).Some? then 1 else 0
  }

  lemma ForAllSnoc(s: Memories, ids: seq<string>, id: string, op: ScopeOperation)
    requires id in s && id !in ids
    ensures id in ForAll(s, ids, op) && ForAll(s, ids, op)[id] == s[id]
    ensures ForAll(s, ids + [id], op)
         == match Affected(s[id], op) case Some(r) => ForAll(s, ids, op)[id := r] case None => ForAll(s, ids, op)
  {
    hide Affected;
    assert forall x :: x in ids + [id] <==> x in ids || x == id;
  }

  lemma AdjustStep(s: Memories, ids: seq<string>, i: nat, op: ScopeOperation)
    requires NoDuplicates(ids) && i < |ids| && ids[i] in s
    ensures ids[i] in ForAll(s, ids[..i], op)
    ensures var before, after := ForAll(s, ids[..i], op), ForAll(s, ids[..i + 1], op);
      match Affected(before[ids[i]], op) case None => after == before case Some(r) => after == before[ids[i] := r]
    ensures CountAffected(s, ids[..i + 1], op)
         == CountAffected(s, ids[..i], op) + if Affected(ForAll(s, ids[..i], op)[ids[i]], op).Some? then 1 else 0
  {
    NoDuplicatesPrefix(ids, i);
    assert ids[..i + 1] == ids[..i] + [ids[i]] && ids[..i + 1][..i] == ids[..i];
    hide Affected, ForAll;
    ForAllSnoc(s, ids[..i], ids[i], op);
  }

  class PrivacyController {
    const repository: MemoryRepository

    constructor (repository: MemoryRepository)
      ensures this.repository == repository
    {
      this.repository := repository;
    }

    /** One pass over the records of a scope, in one transaction; `ids` lists each record of the scope once. */
    method AdjustScope(ids: seq<string>, op: ScopeOperation) returns (count: nat)
      requires NoDuplicates(ids) && forall i :: 0 <= i < |ids| ==> ids[i] in repository.records
      modifies repository`records
      ensures repository.records == ForAll(old(repository.records), ids, op)
      ensures count == CountAffected(old(repository.records), ids, op)
    {
      ghost var was := repository.records;
      count := 0;
      assert ForAll(was, ids[..0], op) == was && CountAffected(was, ids[..0], op) == 0;
      assert ids[..|ids|] == ids;
      hide *;
      for i := 0 to |ids|
        invariant repository.records == ForAll(was, ids[..i], op)
        invariant count == CountAffected(was, ids[..i], op)
      {
        AdjustStep(was, ids, i, op);
        match Affected(repository.records[ids[i]], op)
        case None =>
        case Some(record) =>
          repository.records := repository.records[ids[i] := record];
          count := count + 1;
      }
    }

    method RedactScope(ids: seq<string>, patterns: seq<Pattern>) returns (r: Result<nat>)
      requires NoDuplicates(ids) && forall i :: 0 <= i < |ids| ==> ids[i] in repository.records
      modifies repository`records
      ensures patterns == [] ==> r == Err(PrivacyError) && repository.records == old(repository.records)
      ensures patterns != [] ==> repository.records == ForAll(old(repository.records), ids, Redact(patterns))
      ensures patterns != [] ==> r == Ok(CountAffected(old(repository.records), ids, Redact(patterns)))
    {
      if |patterns| == 0 {
        return Err(PrivacyError);
      }
      hide ForAll, CountAffected;
      var count := AdjustScope(ids, Redact(patterns));
      r := Ok(count);
    }
  }
}
