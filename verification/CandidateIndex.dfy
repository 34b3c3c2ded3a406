/** Candidates by memory id, as the dictionaries of the pipeline hold them. */
module CandidateIndex {
  import opened Common
  import opened Candidates

  /** The candidate with that id; the last one, should there be several. */
  function Find(cs: seq<Snapshot>, id: string): (r: Option<nat>)
    ensures r.Some? ==> r.value < |cs| && cs[r.value].memory.memoryId == id
    ensures r.None? ==> forall i :: 0 <= i < |cs| ==> cs[i].memory.memoryId != id
  {
    if cs == [] then None
    else if cs[|cs| - 1].memory.memoryId == id then Some(|cs| - 1)
    else Find(cs[..|cs| - 1], id)
  }

  /** The candidate of a memory is made when it is new. */
  function Ensured(cs: seq<Snapshot>, memory: Memory, sources: seq<string>): (r: seq<Snapshot>)
    ensures Find(r, memory.memoryId).Some?
  {
    if Find(cs, memory.memoryId).Some? then cs else cs + [NewSnapshot(memory, sources)]
  }

  /** The named score of the candidate with that id. */
  function ScoreOf(cs: seq<Snapshot>, id: string, name: string): real {
    match Find(cs, id)
    case Some(i) => Get(cs[i].componentScores, name)
    case None => 0.0
  }

  ghost predicate DistinctIds(cs: seq<Snapshot>) {
    forall i, j :: 0 <= i < j < |cs| ==> cs[i].memory.memoryId != cs[j].memory.memoryId
  }

  lemma FindsIt(cs: seq<Snapshot>, i: nat)
    requires DistinctIds(cs) && i < |cs|
    ensures Find(cs, cs[i].memory.memoryId) == Some(i)
  {
  }

  lemma EnsuredAdds(cs: seq<Snapshot>, memory: Memory, sources: seq<string>, id: string, name: string)
    requires DistinctIds(cs)
    ensures DistinctIds(Ensured(cs, memory, sources))
    ensures Find(Ensured(cs, memory, sources), id).Some? <==> Find(cs, id).Some? || id == memory.memoryId
    ensures ScoreOf(Ensured(cs, memory, sources), id, name) == ScoreOf(cs, id, name)
  {
    if Find(cs, memory.memoryId).None? {
      assert (cs + [NewSnapshot(memory, sources)])[..|cs|] == cs;
    }
  }

  /** Updating the candidate of `to` leaves ids alone, and changes only its own scores. */
  lemma UpdateKeepsIds(cs: seq<Snapshot>, to: string, s: Snapshot, id: string, name: string)
    requires DistinctIds(cs) && Find(cs, to).Some? && s.memory == cs[Find(cs, to).value].memory
    ensures var after := cs[Find(cs, to).value := s];
      && DistinctIds(after) && Find(after, id) == Find(cs, id)
      && ScoreOf(after, id, name) == if id == to then Get(s.componentScores, name) else ScoreOf(cs, id, name)
  {
    var after := cs[Find(cs, to).value := s];
    assert forall j :: 0 <= j < |cs| ==> after[j].memory == cs[j].memory;
    SameFind(cs, after, id);
  }

  lemma {:induction false} SameFind(a: seq<Snapshot>, b: seq<Snapshot>, id: string)
    requires |a| == |b| && forall j :: 0 <= j < |a| ==> a[j].memory == b[j].memory
    ensures Find(a, id) == Find(b, id)
  {
    if a != [] {
      SameFind(a[..|a| - 1], b[..|b| - 1], id);
    }
  }

  // ---------- the dictionary ----------

  ghost predicate Indexes(byId: map<string, RetrievalCandidate>, cs: seq<RetrievalCandidate>, values: seq<Snapshot>)
    requires |values| == |cs|
  {
    forall id :: match Find(values, id)
      case Some(i) => id in byId && byId[id] == cs[i]
      case None => id !in byId
  }

  /** `candidates_by_memory_id`: the dictionary, beside its values in insertion order. */
  ghost predicate IsIndex(byId: map<string, RetrievalCandidate>, cs: seq<RetrievalCandidate>)
    reads cs
  {
    Indexes(byId, cs, Snapshots(cs))
  }

  lemma IndexGrows(byId: map<string, RetrievalCandidate>, cs: seq<RetrievalCandidate>, values: seq<Snapshot>,
                   c: RetrievalCandidate, value: Snapshot)
    requires |values| == |cs| && Indexes(byId, cs, values) && value.memory.memoryId !in byId
    ensures Indexes(byId[value.memory.memoryId := c], cs + [c], values + [value])
  {
    assert (values + [value])[..|cs|] == values;
    var _ := Find(values, value.memory.memoryId);
  }

  lemma SameIndex(byId: map<string, RetrievalCandidate>, cs: seq<RetrievalCandidate>, a: seq<Snapshot>, b: seq<Snapshot>)
    requires |a| == |b| == |cs| && Indexes(byId, cs, a)
    requires forall i :: 0 <= i < |cs| ==> a[i].memory == b[i].memory
    ensures Indexes(byId, cs, b)
  {
    hide Find;
    forall id ensures Find(a, id) == Find(b, id) {
      SameFind(a, b, id);
    }
  }

  lemma SnapshotsSnoc(cs: seq<RetrievalCandidate>, c: RetrievalCandidate)
    ensures Snapshots(cs + [c]) == Snapshots(cs) + [c.Value()]
  {
    assert (cs + [c])[..|cs|] == cs;
  }

  /** All candidates are objects from `repr`. */
  ghost predicate From(cs: seq<RetrievalCandidate>, repr: set<RetrievalCandidate>) {
    forall i :: 0 <= i < |cs| ==> cs[i] in repr
  }

  method EnsureCandidate(cs: seq<RetrievalCandidate>, byId: map<string, RetrievalCandidate>,
                         ghost repr: set<RetrievalCandidate>, memory: Memory, sources: seq<string>)
    returns (order: seq<RetrievalCandidate>, index: map<string, RetrievalCandidate>, ghost all: set<RetrievalCandidate>)
    requires Distinct(cs) && IsIndex(byId, cs) && From(cs, repr)
    ensures Distinct(order) && IsIndex(index, order) && From(order, all)
    ensures Snapshots(order) == Ensured(Snapshots(cs), memory, sources) && cs <= order
    ensures repr <= all && fresh(all - repr)
  {
    order, index, all := cs, byId, repr;
    assert match Find(Snapshots(cs), memory.memoryId) case Some(i) => memory.memoryId in byId case None => memory.memoryId !in byId;
    ghost var was := Snapshots(cs);
    hide Indexes, Snapshots, Find;
    if memory.memoryId !in index {
      var candidate := new RetrievalCandidate(memory, sources);
      assert Snapshots(cs) == was;
      IndexGrows(index, order, was, candidate, candidate.Value());
      SnapshotsSnoc(order, candidate);
      order := order + [candidate];
      index := index[memory.memoryId := candidate];
      all := all + {candidate};
    }
  }

  lemma EnsuredFinds(cs: seq<Snapshot>, memory: Memory, sources: seq<string>)
    ensures Find(Ensured(cs, memory, sources), memory.memoryId).Some?
  {
  }

  /** One candidate took a new value for the same memory. */
  lemma UpdatedIndex(cs: seq<RetrievalCandidate>, byId: map<string, RetrievalCandidate>, was: seq<Snapshot>, i: nat, s: Snapshot)
    requires |was| == |cs| && i < |cs| && Indexes(byId, cs, was) && s.memory == was[i].memory
    requires forall j :: 0 <= j < |cs| ==> cs[j].Value() == was[i := s][j]
    ensures Snapshots(cs) == was[i := s] && IsIndex(byId, cs)
  {
    SnapshotsAre(cs, was[i := s]);
    hide Snapshots, Indexes;
    SameIndex(byId, cs, was, was[i := s]);
  }

  /** The two variables of a loop: the candidates, all from `repr`, hold `values`; the dictionary finds them. */
  ghost predicate Holds(cs: seq<RetrievalCandidate>, byId: map<string, RetrievalCandidate>, values: seq<Snapshot>,
                        repr: set<RetrievalCandidate>)
    reads cs
  {
    Distinct(cs) && IsIndex(byId, cs) && Snapshots(cs) == values && From(cs, repr)
  }

  lemma Held(cs: seq<RetrievalCandidate>, byId: map<string, RetrievalCandidate>, values: seq<Snapshot>,
             repr: set<RetrievalCandidate>)
    requires Holds(cs, byId, values, repr)
    ensures Distinct(cs) && IsIndex(byId, cs) && Snapshots(cs) == values && From(cs, repr)
  {
  }
}
