/** The two orders in which candidates are sorted. */
module Ranking {
  import opened Common
  import opened Candidates
  import opened Ordering

  datatype RankKey = RankKey(final: real, fusion: real, memoryId: string)

  /** A key and the position it came from. */
  datatype Keyed = Keyed(key: RankKey, position: nat)

  /** `(-retrieval_fusion, memory_id)` */
  predicate FusionLe(a: RankKey, b: RankKey) {
    a.fusion > b.fusion || (a.fusion == b.fusion && StrLe(a.memoryId, b.memoryId))
  }

  /** `(-final_score, -retrieval_fusion, memory_id)` */
  predicate FinalLe(a: RankKey, b: RankKey) {
    a.final > b.final || (a.final == b.final && FusionLe(a, b))
  }

  predicate ByFusion(a: Keyed, b: Keyed) {
    FusionLe(a.key, b.key)
  }

  predicate ByFinal(a: Keyed, b: Keyed) {
    FinalLe(a.key, b.key)
  }

  lemma ByFusionIsOrder()
    ensures TotalPreorder(ByFusion)
  {
    forall a, b ensures ByFusion(a, b) || ByFusion(b, a) {
      StrLeTotal(a.key.memoryId, b.key.memoryId);
    }
    forall a, b, c | ByFusion(a, b) && ByFusion(b, c) ensures ByFusion(a, c) {
      FusionLeTransitive(a.key, b.key, c.key);
    }
  }

  lemma FusionLeTransitive(a: RankKey, b: RankKey, c: RankKey)
    requires FusionLe(a, b) && FusionLe(b, c)
    ensures FusionLe(a, c)
  {
    if a.fusion == b.fusion == c.fusion {
      StrLeTransitive(a.memoryId, b.memoryId, c.memoryId);
    }
  }

  lemma ByFinalIsOrder()
    ensures TotalPreorder(ByFinal)
  {
    forall a, b ensures ByFinal(a, b) || ByFinal(b, a) {
      StrLeTotal(a.key.memoryId, b.key.memoryId);
    }
    forall a, b, c | ByFinal(a, b) && ByFinal(b, c) ensures ByFinal(a, c) {
      if a.key.final == b.key.final == c.key.final {
        FusionLeTransitive(a.key, b.key, c.key);
      }
    }
  }

  // ---------- sorting by key ----------

  function Decorated(keys: seq<RankKey>): (r: seq<Keyed>)
    ensures |r| == |keys|
  {
    seq(|keys|, i requires 0 <= i < |keys| => Keyed(keys[i], i))
  }

  function Positions(ks: seq<Keyed>): (r: seq<nat>)
    ensures |r| == |ks|
  {
    seq(|ks|, i requires 0 <= i < |ks| => ks[i].position)
  }

  /** The positions of the keys, smallest key first; equal keys keep their order. */
  function Order(le: (Keyed, Keyed) -> bool, keys: seq<RankKey>): (r: seq<nat>)
    ensures |r| == |keys|
  {
    Positions(Sort(le, Decorated(keys)))
  }

  ghost predicate IsPermutation(order: seq<nat>, n: nat) {
    && |order| == n && NoDuplicates(order)
    && (forall i :: 0 <= i < n ==> order[i] < n)
    && (forall k: nat :: k < n ==> k in order)
  }

  ghost predicate KeysAscend(le: (Keyed, Keyed) -> bool, keys: seq<RankKey>, order: seq<nat>)
    requires forall i :: 0 <= i < |order| ==> order[i] < |keys|
  {
    forall i, j :: 0 <= i < j < |order| ==> le(Keyed(keys[order[i]], order[i]), Keyed(keys[order[j]], order[j]))
  }

  lemma OrderPermutes(le: (Keyed, Keyed) -> bool, keys: seq<RankKey>)
    ensures IsPermutation(Order(le, keys), |keys|)
    ensures TotalPreorder(le) ==> KeysAscend(le, keys, Order(le, keys))
  {
    var d := Decorated(keys);
    var s := Sort(le, d);
    SortMembers(le, d);
    SortKeepsMembers(le, d);
    assert NoDuplicates(d);
    SameMembersNoDuplicates(d, s);
    if TotalPreorder(le) {
      SortSorts(le, d);
    }
    var order := Order(le, keys);
    hide Sort, InsertSorted, TotalPreorder;
    assert forall i :: 0 <= i < |s| ==> s[i] in d && s[i] == Keyed(keys[order[i]], order[i]);
    forall k: nat | k < |keys| ensures k in order {
      assert d[k] in s;
      var i :| 0 <= i < |s| && s[i] == d[k];
      assert order[i] == k;
    }
  }

  ghost function RankKeys(cs: seq<Snapshot>): (r: seq<RankKey>)
    ensures |r| == |cs|
  {
    seq(|cs|, i requires 0 <= i < |cs| =>
      RankKey(cs[i].finalScore, Get(cs[i].componentScores, "retrieval_fusion"), cs[i].memory.memoryId))
  }

  /** The candidates in the order of their keys. */
  ghost function Ranked(le: (Keyed, Keyed) -> bool, cs: seq<Snapshot>): (r: seq<Snapshot>)
    ensures |r| == |cs|
  {
    OrderPermutes(le, RankKeys(cs));
    Pick(cs, Order(le, RankKeys(cs)))
  }

  method SortCandidates(le: (Keyed, Keyed) -> bool, cs: seq<RetrievalCandidate>) returns (sorted: seq<RetrievalCandidate>)
    ensures IsPermutation(Order(le, RankKeys(Snapshots(cs))), |cs|)
    ensures sorted == Pick(cs, Order(le, RankKeys(Snapshots(cs))))
    ensures Snapshots(sorted) == Ranked(le, Snapshots(cs))
  {
    var keys := [];
    for i := 0 to |cs|
      invariant keys == RankKeys(Snapshots(cs))[..i]
    {
      SnapshotsAt(cs, i);
      keys := keys + [RankKey(cs[i].finalScore, Get(cs[i].componentScores, "retrieval_fusion"), cs[i].memory.memoryId)];
    }
    assert keys == RankKeys(Snapshots(cs));
    OrderPermutes(le, keys);
    hide *;
    sorted := Pick(cs, Order(le, keys));
    PickedSnapshots(cs, Order(le, keys));
    RankedIsPicked(le, Snapshots(cs));
  }

  lemma PickIsDistinct(cs: seq<RetrievalCandidate>, order: seq<nat>)
    requires Distinct(cs) && IsPermutation(order, |cs|)
    ensures Distinct(Pick(cs, order)) && forall c :: c in Pick(cs, order) <==> c in cs
  {
    forall c | c in cs ensures c in Pick(cs, order) {
      var i :| 0 <= i < |cs| && cs[i] == c;
      assert i in order;
      var j :| 0 <= j < |order| && order[j] == i;
      assert Pick(cs, order)[j] == c;
    }
  }

  lemma RankedIsPicked(le: (Keyed, Keyed) -> bool, cs: seq<Snapshot>)
    ensures IsPermutation(Order(le, RankKeys(cs)), |cs|)
    ensures Ranked(le, cs) == Pick(cs, Order(le, RankKeys(cs)))
  {
    OrderPermutes(le, RankKeys(cs));
  }

  lemma PickedSnapshots(cs: seq<RetrievalCandidate>, order: seq<nat>)
    requires forall i :: 0 <= i < |order| ==> order[i] < |cs|
    ensures Snapshots(Pick(cs, order)) == Pick(Snapshots(cs), order)
  {
    var sorted := Pick(cs, order);
    hide Snapshots;
    forall i | 0 <= i < |sorted| ensures Snapshots(sorted)[i] == Pick(Snapshots(cs), order)[i] {
      SnapshotsAt(sorted, i);
      SnapshotsAt(cs, order[i]);
    }
  }
}
