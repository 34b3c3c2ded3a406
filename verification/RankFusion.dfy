/** Reciprocal rank fusion of two ranked lists. */
module RankFusion {
  import opened Common
  import opened Ordering
  import opened Candidates
  import opened CandidateIndex
  import opened Ranking

  const FUSION := "retrieval_fusion"

  /** One match more for a candidate. */
  function Credit(s: Snapshot, source: string, rank: nat, score: real, k: nat): (r: Snapshot)
    requires rank > 0
    ensures r.memory == s.memory
  {
    var scores := s.componentScores[source := score];
    s.(componentScores := scores[FUSION := Get(scores, FUSION) + 1.0 / (k + rank) as real],
       debug := s.debug.(sourceRanks := s.debug.sourceRanks[source := rank],
                         sources := if source in s.debug.sources then s.debug.sources else s.debug.sources + [source]))
  }

  function CreditIn(cs: seq<Snapshot>, id: string, source: string, rank: nat, score: real, k: nat): (r: seq<Snapshot>)
    requires rank > 0 && Find(cs, id).Some?
    ensures |r| == |cs|
  {
    var i := Find(cs, id).value;
    cs[i := Credit(cs[i], source, rank, score, k)]
  }

  function FuseOne(cs: seq<Snapshot>, source: string, m: Match, rank: nat, k: nat): seq<Snapshot>
    requires rank > 0
  {
    CreditIn(Ensured(cs, m.memory, []), m.memory.memoryId, source, rank, m.score, k)
  }

  function FuseSource(cs: seq<Snapshot>, source: string, matches: seq<Match>, k: nat): seq<Snapshot> {
    if matches == [] then cs
    else
      var n := |matches| - 1;
      FuseOne(FuseSource(cs, source, matches[..n], k), source, matches[n], n + 1, k)
  }

  /** The candidates in the order in which their first match was met. */
  function Collected(vector: seq<Match>, fullText: seq<Match>, k: nat): seq<Snapshot> {
    FuseSource(FuseSource([], "vector", vector, k), "full_text", fullText, k)
  }

  // ---------- what fusion computes ----------

  /** The sum of `1 / (k + rank)` over the places where `id` occurs. */
  function Contribution(matches: seq<Match>, id: string, k: nat): (r: real)
    ensures r >= 0.0
  {
    if matches == [] then 0.0
    else
      var n := |matches| - 1;
      Contribution(matches[..n], id, k) + if matches[n].memory.memoryId == id then 1.0 / (k + n + 1) as real else 0.0
  }

  predicate Occurs(matches: seq<Match>, id: string) {
    exists i :: 0 <= i < |matches| && matches[i].memory.memoryId == id
  }

  lemma FuseOneAdds(cs: seq<Snapshot>, source: string, m: Match, rank: nat, k: nat, id: string)
    requires DistinctIds(cs) && rank > 0 && source != FUSION
    ensures DistinctIds(FuseOne(cs, source, m, rank, k))
    ensures Find(FuseOne(cs, source, m, rank, k), id).Some? <==> Find(cs, id).Some? || id == m.memory.memoryId
    ensures ScoreOf(FuseOne(cs, source, m, rank, k), id, FUSION)
         == ScoreOf(cs, id, FUSION) + if id == m.memory.memoryId then 1.0 / (k + rank) as real else 0.0
  {
    EnsuredAdds(cs, m.memory, [], id, FUSION);
    var ensured := Ensured(cs, m.memory, []);
    var to := Find(ensured, m.memory.memoryId).value;
    UpdateKeepsIds(ensured, m.memory.memoryId, Credit(ensured[to], source, rank, m.score, k), id, FUSION);
  }

  lemma OccursSnoc(matches: seq<Match>, id: string)
    requires matches != []
    ensures Occurs(matches, id) <==>
      Occurs(matches[..|matches| - 1], id) || id == matches[|matches| - 1].memory.memoryId
  {
    var n := |matches| - 1;
    if Occurs(matches[..n], id) {
      var i :| 0 <= i < n && matches[..n][i].memory.memoryId == id;
      assert matches[i].memory.memoryId == id;
    }
    if Occurs(matches, id) && id != matches[n].memory.memoryId {
      var i :| 0 <= i < |matches| && matches[i].memory.memoryId == id;
      assert matches[..n][i].memory.memoryId == id;
    }
  }

  lemma {:induction false} FuseSourceAdds(cs: seq<Snapshot>, source: string, matches: seq<Match>, k: nat, id: string)
    requires DistinctIds(cs) && source != FUSION
    ensures DistinctIds(FuseSource(cs, source, matches, k))
    ensures Find(FuseSource(cs, source, matches, k), id).Some? <==> Find(cs, id).Some? || Occurs(matches, id)
    ensures ScoreOf(FuseSource(cs, source, matches, k), id, FUSION)
         == ScoreOf(cs, id, FUSION) + Contribution(matches, id, k)
  {
    if matches != [] {
      var n := |matches| - 1;
      FuseSourceAdds(cs, source, matches[..n], k, id);
      var before := FuseSource(cs, source, matches[..n], k);
      FuseOneAdds(before, source, matches[n], n + 1, k, id);
      OccursSnoc(matches, id);
      hide FuseOne, ScoreOf, Find, DistinctIds, Occurs;
    }
  }

  /** One candidate for each memory that was matched, with the sum of its reciprocal ranks. */
  lemma CollectedSums(vector: seq<Match>, fullText: seq<Match>, k: nat, id: string)
    ensures DistinctIds(Collected(vector, fullText, k))
    ensures Find(Collected(vector, fullText, k), id).Some? <==> Occurs(vector, id) || Occurs(fullText, id)
    ensures ScoreOf(Collected(vector, fullText, k), id, FUSION) == Contribution(vector, id, k) + Contribution(fullText, id, k)
  {
    assert DistinctIds([]) && Find([], id).None? && ScoreOf([], id, FUSION) == 0.0;
    hide DistinctIds, Find, ScoreOf, FuseSource, Contribution, Occurs;
    FuseSourceAdds([], "vector", vector, k, id);
    FuseSourceAdds(FuseSource([], "vector", vector, k), "full_text", fullText, k, id);
  }

  // ---------- the result ----------

  function RankOf(ranks: map<string, nat>, source: string): nat {
    if source in ranks then ranks[source] else 10000
  }

  function SortedSources(debug: Debug): seq<string> {
    Sort((a: string, b: string) => RankOf(debug.sourceRanks, a) <= RankOf(debug.sourceRanks, b), debug.sources)
  }

  function WithSortedSources(s: Snapshot): (r: Snapshot)
    ensures r.memory == s.memory && r.componentScores == s.componentScores && r.finalScore == s.finalScore
  {
    s.(debug := s.debug.(sources := SortedSources(s.debug)))
  }

  ghost function AllWithSortedSources(cs: seq<Snapshot>): (r: seq<Snapshot>)
    ensures |r| == |cs|
  {
    seq(|cs|, i requires 0 <= i < |cs| => WithSortedSources(cs[i]))
  }

  ghost function Fused(vector: seq<Match>, fullText: seq<Match>, k: nat): seq<Snapshot> {
    AllWithSortedSources(Ranked(ByFusion, Collected(vector, fullText, k)))
  }

  /** Fused candidates have distinct memories, and come in falling order of fusion score, then by id. */
  ghost predicate InFusionOrder(cs: seq<Snapshot>) {
    forall i, j :: 0 <= i < j < |cs| ==> FusionLe(RankKeys(cs)[i], RankKeys(cs)[j]) && cs[i].memory.memoryId != cs[j].memory.memoryId
  }

  lemma RankedOrder(cs: seq<Snapshot>)
    requires DistinctIds(cs)
    ensures InFusionOrder(AllWithSortedSources(Ranked(ByFusion, cs)))
    ensures forall c :: c in cs <==> c in Ranked(ByFusion, cs)
  {
    var order := Order(ByFusion, RankKeys(cs));
    var r := Ranked(ByFusion, cs);
    OrderPermutes(ByFusion, RankKeys(cs));
    ByFusionIsOrder();
    RankedIsPicked(ByFusion, cs);
    hide Order, Ranked, TotalPreorder, WithSortedSources;
    assert forall i :: 0 <= i < |r| ==> r[i] == cs[order[i]];
    forall i, j | 0 <= i < j < |r|
      ensures FusionLe(RankKeys(AllWithSortedSources(r))[i], RankKeys(AllWithSortedSources(r))[j])
      ensures r[i].memory.memoryId != r[j].memory.memoryId
    {
      assert order[i] != order[j];
      assert ByFusion(Keyed(RankKeys(cs)[order[i]], order[i]), Keyed(RankKeys(cs)[order[j]], order[j]));
    }
    forall c | c in cs ensures c in r {
      var k :| 0 <= k < |cs| && cs[k] == c;
      assert k in order;
      var i :| 0 <= i < |order| && order[i] == k;
      assert r[i] == c;
    }
  }

  /** A memory is in the result exactly when it was matched, once, and its fusion score is the sum of its
      reciprocal ranks in both lists. */
  lemma ReciprocalRanks(vector: seq<Match>, fullText: seq<Match>, k: nat, id: string)
    ensures InFusionOrder(Fused(vector, fullText, k))
    ensures (exists c :: c in Fused(vector, fullText, k) && c.memory.memoryId == id) <==> Occurs(vector, id) || Occurs(fullText, id)
    ensures forall c :: c in Fused(vector, fullText, k) && c.memory.memoryId == id ==>
      Get(c.componentScores, FUSION) == Contribution(vector, id, k) + Contribution(fullText, id, k)
  {
    var cs := Collected(vector, fullText, k);
    CollectedSums(vector, fullText, k, id);
    RankedOrder(cs);
    assert Fused(vector, fullText, k) == AllWithSortedSources(Ranked(ByFusion, cs));
    hide *;
    FoundIsResult(cs, id);
  }

  lemma FoundIsResult(cs: seq<Snapshot>, id: string)
    requires DistinctIds(cs)
    requires forall c :: c in cs <==> c in Ranked(ByFusion, cs)
    ensures (exists c :: c in AllWithSortedSources(Ranked(ByFusion, cs)) && c.memory.memoryId == id) <==> Find(cs, id).Some?
    ensures forall c :: c in AllWithSortedSources(Ranked(ByFusion, cs)) && c.memory.memoryId == id ==>
      Get(c.componentScores, FUSION) == ScoreOf(cs, id, FUSION)
  {
    var r := Ranked(ByFusion, cs);
    var f := AllWithSortedSources(r);
    assert forall i :: 0 <= i < |f| ==> f[i] == WithSortedSources(r[i]);
    hide Ranked, WithSortedSources, AllWithSortedSources;
    forall c | c in f && c.memory.memoryId == id
      ensures Find(cs, id).Some? && Get(c.componentScores, FUSION) == ScoreOf(cs, id, FUSION)
    {
      var j :| 0 <= j < |f| && f[j] == c;
      assert r[j] in cs;
      var i :| 0 <= i < |cs| && cs[i] == r[j];
      FindsIt(cs, i);
    }
    if Find(cs, id).Some? {
      var i := Find(cs, id).value;
      assert cs[i] in r;
      var j :| 0 <= j < |r| && r[j] == cs[i];
      assert f[j] in f && f[j].memory.memoryId == id;
    }
  }

  // ---------- where the candidates come from ----------

  /** Every candidate's memory was matched. */
  ghost predicate FromMatches(cs: seq<Snapshot>, matches: seq<Match>) {
    forall c :: c in cs ==> exists m :: m in matches && m.memory == c.memory
  }

  lemma {:induction false} FuseSourceFrom(cs: seq<Snapshot>, source: string, matches: seq<Match>, k: nat, all: seq<Match>)
    requires FromMatches(cs, all) && forall m :: m in matches ==> m in all
    ensures FromMatches(FuseSource(cs, source, matches, k), all)
  {
    if matches != [] {
      var n := |matches| - 1;
      FuseSourceFrom(cs, source, matches[..n], k, all);
      assert matches[n] in all;
      hide Find, Credit;
    }
  }

  lemma CollectedFromMatches(vector: seq<Match>, fullText: seq<Match>, k: nat)
    ensures FromMatches(Collected(vector, fullText, k), vector + fullText)
  {
    hide FuseSource;
    FuseSourceFrom([], "vector", vector, k, vector + fullText);
    FuseSourceFrom(FuseSource([], "vector", vector, k), "full_text", fullText, k, vector + fullText);
  }

  lemma RankedFrom(cs: seq<Snapshot>, c: Snapshot)
    requires c in AllWithSortedSources(Ranked(ByFusion, cs))
    ensures exists d :: d in cs && d.memory == c.memory && d.componentScores == c.componentScores
  {
    RankedIsPicked(ByFusion, cs);
    var r := Ranked(ByFusion, cs);
    var f := AllWithSortedSources(r);
    assert forall i :: 0 <= i < |f| ==> f[i] == WithSortedSources(r[i]);
    hide Ranked, AllWithSortedSources, WithSortedSources, Order;
    var i :| 0 <= i < |f| && f[i] == c;
    assert r[i] in cs;
  }

  lemma FusedFrom(vector: seq<Match>, fullText: seq<Match>, k: nat, c: Snapshot)
    requires c in Fused(vector, fullText, k)
    ensures exists d :: d in Collected(vector, fullText, k) && d.memory == c.memory && d.componentScores == c.componentScores
  {
    assert Fused(vector, fullText, k) == AllWithSortedSources(Ranked(ByFusion, Collected(vector, fullText, k)));
    hide *;
    RankedFrom(Collected(vector, fullText, k), c);
  }

  /** The memories of the fused candidates are those of the matches. */
  lemma FusedFromMatches(vector: seq<Match>, fullText: seq<Match>, k: nat)
    ensures FromMatches(Fused(vector, fullText, k), vector + fullText)
  {
    CollectedFromMatches(vector, fullText, k);
    hide Fused, Collected;
    forall c | c in Fused(vector, fullText, k) ensures exists m :: m in vector + fullText && m.memory == c.memory {
      FusedFrom(vector, fullText, k, c);
    }
  }

  lemma {:induction false} ContributionIsPositive(matches: seq<Match>, id: string, k: nat)
    requires Occurs(matches, id)
    ensures Contribution(matches, id, k) > 0.0
  {
    var n := |matches| - 1;
    OccursSnoc(matches, id);
    if Occurs(matches[..n], id) {
      ContributionIsPositive(matches[..n], id, k);
    }
  }

  /** Every fused candidate has a positive fusion score. */
  lemma FusedIsPositive(vector: seq<Match>, fullText: seq<Match>, k: nat, i: nat)
    requires i < |Fused(vector, fullText, k)|
    ensures FUSION in Fused(vector, fullText, k)[i].componentScores
    ensures Fused(vector, fullText, k)[i].componentScores[FUSION] > 0.0
  {
    var c := Fused(vector, fullText, k)[i];
    var id := c.memory.memoryId;
    assert c in Fused(vector, fullText, k);
    hide Fused, InFusionOrder, Occurs, Contribution;
    ReciprocalRanks(vector, fullText, k, id);
    if Occurs(vector, id) {
      ContributionIsPositive(vector, id, k);
    }
    if Occurs(fullText, id) {
      ContributionIsPositive(fullText, id, k);
    }
  }

  /** No candidate has the named score. */
  ghost predicate Lacks(cs: seq<Snapshot>, name: string) {
    forall c :: c in cs ==> name !in c.componentScores
  }

  lemma {:induction false} FuseSourceLacks(cs: seq<Snapshot>, source: string, matches: seq<Match>, k: nat, name: string)
    requires Lacks(cs, name) && name != source && name != FUSION
    ensures Lacks(FuseSource(cs, source, matches, k), name)
  {
    if matches != [] {
      FuseSourceLacks(cs, source, matches[..|matches| - 1], k, name);
      hide Find;
    }
  }

  /** Fusion sets no score but its own and those of its sources. */
  lemma FusedLacks(vector: seq<Match>, fullText: seq<Match>, k: nat, name: string)
    requires name !in {"vector", "full_text", FUSION}
    ensures Lacks(Fused(vector, fullText, k), name)
  {
    var cs := Collected(vector, fullText, k);
    FuseSourceLacks([], "vector", vector, k, name);
    FuseSourceLacks(FuseSource([], "vector", vector, k), "full_text", fullText, k, name);
    hide Fused, FuseSource;
    forall c | c in Fused(vector, fullText, k) ensures name !in c.componentScores {
      FusedFrom(vector, fullText, k, c);
    }
  }

  // ---------- the loops ----------

  method CreditCandidate(c: RetrievalCandidate, source: string, rank: nat, score: real, k: nat)
    requires rank > 0
    modifies c
    ensures c.Value() == Credit(old(c.Value()), source, rank, score, k)
  {
    c.componentScores := c.componentScores[source := score];
    c.componentScores := c.componentScores[FUSION := Get(c.componentScores, FUSION) + 1.0 / (k + rank) as real];
    c.debug := c.debug.(sourceRanks := c.debug.sourceRanks[source := rank]);
    if source !in c.debug.sources {
      c.debug := c.debug.(sources := c.debug.sources + [source]);
    }
  }

  /** Credit the candidate that the dictionary holds. */
  method CreditIndexed(ghost cs: seq<RetrievalCandidate>, byId: map<string, RetrievalCandidate>, id: string,
                       source: string, rank: nat, score: real, k: nat)
    requires Distinct(cs) && IsIndex(byId, cs) && Find(Snapshots(cs), id).Some? && rank > 0
    modifies cs
    ensures IsIndex(byId, cs)
    ensures Snapshots(cs) == CreditIn(old(Snapshots(cs)), id, source, rank, score, k)
  {
    ghost var was := Snapshots(cs);
    ghost var i := Find(was, id).value;
    AllSnapshots(cs);
    var candidate := byId[id];
    assert candidate == cs[i] && Indexes(byId, cs, was);
    assert CreditIn(was, id, source, rank, score, k) == was[i := Credit(was[i], source, rank, score, k)];
    hide *;
    CreditCandidate(candidate, source, rank, score, k);
    UpdatedIndex(cs, byId, was, i, Credit(was[i], source, rank, score, k));
  }

  method FuseMatch(cs: seq<RetrievalCandidate>, byId: map<string, RetrievalCandidate>,
                   ghost was: seq<Snapshot>, ghost repr: set<RetrievalCandidate>,
                   source: string, m: Match, rank: nat, k: nat)
    returns (order: seq<RetrievalCandidate>, index: map<string, RetrievalCandidate>, ghost all: set<RetrievalCandidate>)
    requires Holds(cs, byId, was, repr) && rank > 0
    modifies repr
    ensures Holds(order, index, FuseOne(was, source, m, rank, k), all) && repr <= all && fresh(all - repr)
  {
    assert FuseOne(was, source, m, rank, k) == CreditIn(Ensured(was, m.memory, []), m.memory.memoryId, source, rank, m.score, k);
    assert Distinct(cs) && IsIndex(byId, cs) && Snapshots(cs) == was && From(cs, repr);
    hide CreditIn, Ensured, FuseOne, Snapshots, IsIndex, Distinct, Find;
    order, index, all := EnsureCandidate(cs, byId, repr, m.memory, []);
    EnsuredFinds(was, m.memory, []);
    CreditIndexed(order, index, m.memory.memoryId, source, rank, m.score, k);
  }

  method FuseMatches(cs: seq<RetrievalCandidate>, byId: map<string, RetrievalCandidate>,
                     ghost was: seq<Snapshot>, ghost repr: set<RetrievalCandidate>,
                     source: string, matches: seq<Match>, k: nat)
    returns (order: seq<RetrievalCandidate>, index: map<string, RetrievalCandidate>, ghost all: set<RetrievalCandidate>)
    requires Holds(cs, byId, was, repr)
    modifies repr
    ensures Holds(order, index, FuseSource(was, source, matches, k), all) && repr <= all && fresh(all - repr)
  {
    order, index, all := cs, byId, repr;
    assert FuseSource(was, source, matches[..0], k) == was;
    assert matches[..|matches|] == matches;
    hide *;
    for n := 0 to |matches|
      invariant Holds(order, index, FuseSource(was, source, matches[..n], k), all)
      invariant repr <= all && fresh(all - repr)
    {
      FuseSourceSnoc(was, source, matches, n, k);
      order, index, all :=
        FuseMatch(order, index, FuseSource(was, source, matches[..n], k), all, source, matches[n], n + 1, k);
    }
  }

  lemma FuseSourceSnoc(cs: seq<Snapshot>, source: string, matches: seq<Match>, n: nat, k: nat)
    requires n < |matches|
    ensures FuseSource(cs, source, matches[..n + 1], k)
         == FuseOne(FuseSource(cs, source, matches[..n], k), source, matches[n], n + 1, k)
  {
    assert matches[..n + 1][..n] == matches[..n];
  }

  method SortOwnSources(c: RetrievalCandidate)
    modifies c
    ensures c.Value() == WithSortedSources(old(c.Value()))
  {
    c.debug := c.debug.(sources := SortedSources(c.debug));
  }

  method SortAllSources(cs: seq<RetrievalCandidate>)
    requires Distinct(cs)
    modifies cs
    ensures Snapshots(cs) == AllWithSortedSources(old(Snapshots(cs)))
  {
    ghost var was := Snapshots(cs);
    ghost var now := AllWithSortedSources(was);
    NoneDone(cs, now);
    assert forall i :: 0 <= i < |was| ==> now[i] == WithSortedSources(was[i]);
    hide *;
    for i := 0 to |cs|
      invariant Halfway(cs, now, was, i)
    {
      OneTurn(cs, now, was, i);
      SortOwnSources(cs[i]);
      OneDone(cs, now, was, i);
    }
    AllDone(cs, now, was);
  }

  lemma PickedFrom(cs: seq<RetrievalCandidate>, repr: set<RetrievalCandidate>, order: seq<nat>)
    requires From(cs, repr) && forall i :: 0 <= i < |order| ==> order[i] < |cs|
    ensures forall i :: 0 <= i < |order| ==> Pick(cs, order)[i] in repr
  {
  }

  method CollectMatches(vectorMatches: seq<Match>, fullTextMatches: seq<Match>, rrfK: nat)
    returns (cs: seq<RetrievalCandidate>, ghost all: set<RetrievalCandidate>)
    ensures Distinct(cs) && From(cs, all) && fresh(all)
    ensures Snapshots(cs) == Collected(vectorMatches, fullTextMatches, rrfK)
  {
    cs := [];
    all := {};
    var byId: map<string, RetrievalCandidate> := map[];
    assert Snapshots(cs) == [] && Holds(cs, byId, [], all);
    ghost var first := FuseSource([], "vector", vectorMatches, rrfK);
    ghost var collected := FuseSource(first, "full_text", fullTextMatches, rrfK);
    assert collected == Collected(vectorMatches, fullTextMatches, rrfK);
    hide *;
    cs, byId, all := FuseMatches(cs, byId, [], all, "vector", vectorMatches, rrfK);
    cs, byId, all := FuseMatches(cs, byId, first, all, "full_text", fullTextMatches, rrfK);
    Held(cs, byId, collected, all);
  }

  method ReciprocalRankFuse(vectorMatches: seq<Match>, fullTextMatches: seq<Match>, rrfK: nat)
    returns (ordered: seq<RetrievalCandidate>)
    ensures fresh(ordered) && Distinct(ordered)
    ensures Snapshots(ordered) == Fused(vectorMatches, fullTextMatches, rrfK)
  {
    ghost var collected := Collected(vectorMatches, fullTextMatches, rrfK);
    assert Fused(vectorMatches, fullTextMatches, rrfK) == AllWithSortedSources(Ranked(ByFusion, collected));
    hide *;
    var cs; ghost var all;
    cs, all := CollectMatches(vectorMatches, fullTextMatches, rrfK);
    ordered := SortCandidates(ByFusion, cs);
    PickIsDistinct(cs, Order(ByFusion, RankKeys(collected)));
    PickedFrom(cs, all, Order(ByFusion, RankKeys(collected)));
    SortAllSources(ordered);
  }
}
