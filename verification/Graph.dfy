/** One-hop graph expansion. */
module GraphExpansion {
  import opened Common
  import opened Candidates
  import opened CandidateIndex
  import opened Filters
  import opened RankFusion

  datatype Link = Link(edgeType: string, neighbor: Memory)

  /** `read_one_hop_links`; a memory without an entry is not in the store. */
  type Links = map<string, seq<Link>>

  function BaseScore(s: Snapshot): real {
    if Get(s.componentScores, FUSION) <= 0.0 then RealMax(Get(s.componentScores, "vector"), Get(s.componentScores, "full_text"))
    else Get(s.componentScores, FUSION)
  }

  predicate Admissible(seed: string, neighbor: Memory, f: HardFilter, now: int) {
    neighbor.memoryId != seed && MatchesHardFilters(neighbor, f, now)
  }

  /** One link more for a candidate. */
  function Boost(s: Snapshot, seed: string, edgeType: string, base: real): (r: Snapshot)
    ensures r.memory == s.memory
  {
    var d := s.debug;
    s.(componentScores := s.componentScores["graph" := Get(s.componentScores, "graph") + base],
       debug := d.(sources := if "graph" in d.sources then d.sources else d.sources + ["graph"], graphExpanded := true,
                   graphSources := if (seed, edgeType) in d.graphSources then d.graphSources else d.graphSources + [(seed, edgeType)]))
  }

  function BoostIn(cs: seq<Snapshot>, id: string, seed: string, edgeType: string, base: real): (r: seq<Snapshot>)
    requires Find(cs, id).Some?
    ensures |r| == |cs|
  {
    var i := Find(cs, id).value;
    cs[i := Boost(cs[i], seed, edgeType, base)]
  }

  function FollowLink(cs: seq<Snapshot>, seed: string, base: real, link: Link, f: HardFilter, now: int): seq<Snapshot> {
    if !Admissible(seed, link.neighbor, f, now) then cs
    else BoostIn(Ensured(cs, link.neighbor, ["graph"]), link.neighbor.memoryId, seed, link.edgeType, base)
  }

  function FollowLinks(cs: seq<Snapshot>, seed: string, base: real, links: seq<Link>, f: HardFilter, now: int): seq<Snapshot> {
    if links == [] then cs
    else
      var n := |links| - 1;
      FollowLink(FollowLinks(cs, seed, base, links[..n], f, now), seed, base, links[n], f, now)
  }

  function LinksOf(links: Links, id: string): seq<Link> {
    if id in links then links[id] else []
  }

  /** The links of one seed, unless it has no score to pass on. */
  function Spread(cs: seq<Snapshot>, i: nat, links: Links, f: HardFilter, now: int): Result<seq<Snapshot>>
    requires i < |cs|
  {
    var base, id := BaseScore(cs[i]), cs[i].memory.memoryId;
    if base <= 0.0 then Ok(cs)
    else if id !in links then Err(MemoryNotFoundError)
    else Ok(FollowLinks(cs, id, base, links[id], f, now))
  }

  /** The first `n` candidates have passed on their scores. */
  function Expanded(cs: seq<Snapshot>, n: nat, links: Links, f: HardFilter, now: int): (r: Result<seq<Snapshot>>)
    requires n <= |cs|
    ensures r.Ok? ==> |r.value| >= |cs|
  {
    if n == 0 then Ok(cs)
    else
      match Expanded(cs, n - 1, links, f, now)
      case Err(e) => Err(e)
      case Ok(before) =>
        var seed := before[n - 1];
        FollowLinksGrow(before, seed.memory.memoryId, BaseScore(seed), LinksOf(links, seed.memory.memoryId), f, now);
        Spread(before, n - 1, links, f, now)
  }

  lemma {:induction false} FollowLinksGrow(cs: seq<Snapshot>, seed: string, base: real, links: seq<Link>, f: HardFilter, now: int)
    ensures |FollowLinks(cs, seed, base, links, f, now)| >= |cs|
  {
    if links != [] {
      FollowLinksGrow(cs, seed, base, links[..|links| - 1], f, now);
    }
  }

  // ---------- what expansion computes ----------

  /** `base` once for every admissible link to `id`. */
  function LinkSum(links: seq<Link>, seed: string, base: real, id: string, f: HardFilter, now: int): (r: real)
    requires base >= 0.0
    ensures r >= 0.0
  {
    if links == [] then 0.0
    else
      var n := |links| - 1;
      LinkSum(links[..n], seed, base, id, f, now)
        + if links[n].neighbor.memoryId == id && Admissible(seed, links[n].neighbor, f, now) then base else 0.0
  }

  function SeedSupport(seed: Snapshot, links: Links, id: string, f: HardFilter, now: int): (r: real)
    ensures r >= 0.0
  {
    if BaseScore(seed) <= 0.0 then 0.0
    else LinkSum(LinksOf(links, seed.memory.memoryId), seed.memory.memoryId, BaseScore(seed), id, f, now)
  }

  /** What the seeds give to `id`, each from the score it had at first. */
  function Support(seeds: seq<Snapshot>, links: Links, id: string, f: HardFilter, now: int): (r: real)
    ensures r >= 0.0
  {
    if seeds == [] then 0.0
    else Support(seeds[..|seeds| - 1], links, id, f, now) + SeedSupport(seeds[|seeds| - 1], links, id, f, now)
  }

  /** The seeds are where they were, with the scores that they pass on. */
  ghost predicate SameSeeds(a: seq<Snapshot>, b: seq<Snapshot>) {
    && |a| <= |b|
    && (forall i :: 0 <= i < |a| ==> a[i].memory == b[i].memory && BaseScore(a[i]) == BaseScore(b[i]))
  }

  /** `b` is `a` after `id` was given `amount` more; a new candidate appears only for a positive amount. */
  ghost predicate Gains(a: seq<Snapshot>, b: seq<Snapshot>, id: string, amount: real) {
    && ScoreOf(b, id, "graph") == ScoreOf(a, id, "graph") + amount
    && (Find(b, id).Some? <==> Find(a, id).Some? || amount > 0.0)
  }

  lemma FollowLinkGains(cs: seq<Snapshot>, seed: string, base: real, link: Link, f: HardFilter, now: int, id: string)
    requires DistinctIds(cs) && base > 0.0
    ensures DistinctIds(FollowLink(cs, seed, base, link, f, now)) && SameSeeds(cs, FollowLink(cs, seed, base, link, f, now))
    ensures Gains(cs, FollowLink(cs, seed, base, link, f, now), id,
                  if link.neighbor.memoryId == id && Admissible(seed, link.neighbor, f, now) then base else 0.0)
  {
    if Admissible(seed, link.neighbor, f, now) {
      EnsuredAdds(cs, link.neighbor, ["graph"], id, "graph");
      var ensured := Ensured(cs, link.neighbor, ["graph"]);
      var i := Find(ensured, link.neighbor.memoryId).value;
      UpdateKeepsIds(ensured, link.neighbor.memoryId, Boost(ensured[i], seed, link.edgeType, base), id, "graph");
    }
  }

  lemma {:induction false} FollowLinksGain(cs: seq<Snapshot>, seed: string, base: real, links: seq<Link>, f: HardFilter, now: int, id: string)
    requires DistinctIds(cs) && base > 0.0
    ensures DistinctIds(FollowLinks(cs, seed, base, links, f, now)) && SameSeeds(cs, FollowLinks(cs, seed, base, links, f, now))
    ensures Gains(cs, FollowLinks(cs, seed, base, links, f, now), id, LinkSum(links, seed, base, id, f, now))
  {
    hide DistinctIds, FollowLink, ScoreOf, Find, Admissible, BaseScore, SameSeeds, Gains;
    if links == [] {
      NothingGained(cs, id);
    } else {
      var n := |links| - 1;
      var before := FollowLinks(cs, seed, base, links[..n], f, now);
      FollowLinksGain(cs, seed, base, links[..n], f, now, id);
      FollowLinkGains(before, seed, base, links[n], f, now, id);
      var after := FollowLinks(cs, seed, base, links, f, now);
      GainsAddUp(cs, before, after, id, LinkSum(links[..n], seed, base, id, f, now),
                 if links[n].neighbor.memoryId == id && Admissible(seed, links[n].neighbor, f, now) then base else 0.0);
    }
  }

  lemma NothingGained(cs: seq<Snapshot>, id: string)
    ensures SameSeeds(cs, cs) && Gains(cs, cs, id, 0.0)
  {
  }

  lemma GainsAddUp(a: seq<Snapshot>, b: seq<Snapshot>, c: seq<Snapshot>, id: string, x: real, y: real)
    requires SameSeeds(a, b) && SameSeeds(b, c) && Gains(a, b, id, x) && Gains(b, c, id, y) && x >= 0.0 && y >= 0.0
    ensures SameSeeds(a, c) && Gains(a, c, id, x + y)
  {
    hide BaseScore, Find, ScoreOf;
  }

  lemma SpreadGains(cs: seq<Snapshot>, i: nat, links: Links, f: HardFilter, now: int, id: string)
    requires DistinctIds(cs) && i < |cs| && Spread(cs, i, links, f, now).Ok?
    ensures DistinctIds(Spread(cs, i, links, f, now).value) && SameSeeds(cs, Spread(cs, i, links, f, now).value)
    ensures Gains(cs, Spread(cs, i, links, f, now).value, id, SeedSupport(cs[i], links, id, f, now))
  {
    hide DistinctIds, FollowLinks, ScoreOf, Find, BaseScore, LinkSum;
    var seed := cs[i];
    if BaseScore(seed) > 0.0 {
      FollowLinksGain(cs, seed.memory.memoryId, BaseScore(seed), links[seed.memory.memoryId], f, now, id);
    }
  }

  lemma SameSupport(a: seq<Snapshot>, b: seq<Snapshot>, i: nat, links: Links, id: string, f: HardFilter, now: int)
    requires SameSeeds(a, b) && i < |a|
    ensures SeedSupport(a[i], links, id, f, now) == SeedSupport(b[i], links, id, f, now)
  {
    hide BaseScore, LinkSum;
  }

  lemma SupportSnoc(cs: seq<Snapshot>, n: nat, links: Links, id: string, f: HardFilter, now: int)
    requires n < |cs|
    ensures Support(cs[..n + 1], links, id, f, now) == Support(cs[..n], links, id, f, now) + SeedSupport(cs[n], links, id, f, now)
  {
    assert cs[..n + 1][..n] == cs[..n];
  }

  /** The graph score of a memory is the sum of the base scores of the seeds over their admissible links to it.
      A seed passes on the score that it had before expansion, so nothing cascades; and a memory that was
      no candidate becomes one exactly when it receives something. */
  lemma {:induction false} GraphScoresAreSums(cs: seq<Snapshot>, n: nat, links: Links, f: HardFilter, now: int, id: string)
    requires DistinctIds(cs) && n <= |cs| && Expanded(cs, n, links, f, now).Ok?
    ensures DistinctIds(Expanded(cs, n, links, f, now).value) && SameSeeds(cs, Expanded(cs, n, links, f, now).value)
    ensures Gains(cs, Expanded(cs, n, links, f, now).value, id, Support(cs[..n], links, id, f, now))
  {
    hide *;
    ExpandedStep(cs, n, links, f, now);
    if n == 0 {
      NothingGained(cs, id);
      NoSupport(cs, links, id, f, now);
    } else {
      GraphScoresAreSums(cs, n - 1, links, f, now, id);
      var before, after := Expanded(cs, n - 1, links, f, now).value, Expanded(cs, n, links, f, now).value;
      SpreadGains(before, n - 1, links, f, now, id);
      SupportSnoc(cs, n - 1, links, id, f, now);
      SameSupport(cs, before, n - 1, links, id, f, now);
      GainsAddUp(cs, before, after, id, Support(cs[..n - 1], links, id, f, now), SeedSupport(cs[n - 1], links, id, f, now));
    }
  }

  lemma NoSupport(cs: seq<Snapshot>, links: Links, id: string, f: HardFilter, now: int)
    ensures Support(cs[..0], links, id, f, now) == 0.0
  {
  }

  lemma ExpandedStep(cs: seq<Snapshot>, n: nat, links: Links, f: HardFilter, now: int)
    requires n <= |cs| && Expanded(cs, n, links, f, now).Ok?
    ensures n == 0 ==> Expanded(cs, n, links, f, now) == Ok(cs)
    ensures n > 0 ==> Expanded(cs, n - 1, links, f, now).Ok?
    ensures n > 0 ==> Expanded(cs, n, links, f, now) == Spread(Expanded(cs, n - 1, links, f, now).value, n - 1, links, f, now)
  {
    hide Spread;
  }

  /** Expansion fails exactly when a seed with a score is not in the store. */
  lemma {:induction false} ExpansionFailsOnMissingSeed(cs: seq<Snapshot>, n: nat, links: Links, f: HardFilter, now: int)
    requires DistinctIds(cs) && n <= |cs|
    ensures Expanded(cs, n, links, f, now).Err?
       <==> exists i :: 0 <= i < n && BaseScore(cs[i]) > 0.0 && cs[i].memory.memoryId !in links
  {
    if n > 0 {
      ExpansionFailsOnMissingSeed(cs, n - 1, links, f, now);
      if Expanded(cs, n - 1, links, f, now).Ok? {
        GraphScoresAreSums(cs, n - 1, links, f, now, "");
      }
      hide DistinctIds, FollowLinks, ScoreOf, Find, BaseScore, Gains, Support;
    }
  }

  /** Every candidate that expansion adds satisfies the filter. */
  lemma {:induction false} FollowLinksKeepMatching(cs: seq<Snapshot>, seed: string, base: real, links: seq<Link>, f: HardFilter, now: int)
    requires AllMatch(cs, f, now)
    ensures AllMatch(FollowLinks(cs, seed, base, links, f, now), f, now)
  {
    if links != [] {
      var n := |links| - 1;
      FollowLinksKeepMatching(cs, seed, base, links[..n], f, now);
      hide MatchesHardFilters;
    }
  }

  lemma {:induction false} ExpansionKeepsMatching(cs: seq<Snapshot>, n: nat, links: Links, f: HardFilter, now: int)
    requires AllMatch(cs, f, now) && n <= |cs| && Expanded(cs, n, links, f, now).Ok?
    ensures AllMatch(Expanded(cs, n, links, f, now).value, f, now)
  {
    if n > 0 {
      ExpansionKeepsMatching(cs, n - 1, links, f, now);
      var before := Expanded(cs, n - 1, links, f, now).value;
      var seed := before[n - 1];
      FollowLinksKeepMatching(before, seed.memory.memoryId, BaseScore(seed), LinksOf(links, seed.memory.memoryId), f, now);
    }
  }

  // ---------- links that leave a scope ----------

  /** An admissible link leads from one of the seeds to `id`. */
  ghost predicate LinkedTo(seeds: seq<Snapshot>, links: Links, id: string, f: HardFilter, now: int) {
    exists i, link ::
      && 0 <= i < |seeds| && BaseScore(seeds[i]) > 0.0
      && link in LinksOf(links, seeds[i].memory.memoryId)
      && link.neighbor.memoryId == id && Admissible(seeds[i].memory.memoryId, link.neighbor, f, now)
  }

  lemma {:induction false} LinkSumSign(links: seq<Link>, seed: string, base: real, id: string, f: HardFilter, now: int)
    requires base > 0.0
    ensures LinkSum(links, seed, base, id, f, now) > 0.0
       <==> exists link :: link in links && link.neighbor.memoryId == id && Admissible(seed, link.neighbor, f, now)
  {
    hide Admissible;
    if links != [] {
      var n := |links| - 1;
      LinkSumSign(links[..n], seed, base, id, f, now);
      assert links == links[..n] + [links[n]];
    }
  }

  lemma SeedSupportSign(seed: Snapshot, links: Links, id: string, f: HardFilter, now: int)
    ensures SeedSupport(seed, links, id, f, now) > 0.0 <==> LinkedTo([seed], links, id, f, now)
  {
    hide Admissible, LinksOf, LinkSum;
    if BaseScore(seed) > 0.0 {
      LinkSumSign(LinksOf(links, seed.memory.memoryId), seed.memory.memoryId, BaseScore(seed), id, f, now);
    }
    hide BaseScore;
    assert [seed][0] == seed;
  }

  lemma LinkedToSnoc(seeds: seq<Snapshot>, seed: Snapshot, links: Links, id: string, f: HardFilter, now: int)
    ensures LinkedTo(seeds + [seed], links, id, f, now)
       <==> LinkedTo(seeds, links, id, f, now) || LinkedTo([seed], links, id, f, now)
  {
    hide Admissible, LinksOf, BaseScore;
    var all := seeds + [seed];
    assert forall i :: 0 <= i < |seeds| ==> all[i] == seeds[i];
    assert all[|seeds|] == seed && [seed][0] == seed;
  }

  lemma {:induction false} SupportSign(seeds: seq<Snapshot>, links: Links, id: string, f: HardFilter, now: int)
    ensures Support(seeds, links, id, f, now) > 0.0 <==> LinkedTo(seeds, links, id, f, now)
  {
    if seeds == [] {
      assert !LinkedTo(seeds, links, id, f, now);
    } else {
      var n := |seeds| - 1;
      hide LinkedTo, SeedSupport;
      SupportSign(seeds[..n], links, id, f, now);
      SeedSupportSign(seeds[n], links, id, f, now);
      LinkedToSnoc(seeds[..n], seeds[n], links, id, f, now);
      assert seeds == seeds[..n] + [seeds[n]];
    }
  }

  /** The candidates whose ids are in `scope`. */
  ghost predicate AllWithin(cs: seq<Snapshot>, scope: set<string>) {
    forall i :: 0 <= i < |cs| ==> cs[i].memory.memoryId in scope
  }

  ghost predicate NoLinkLeaves(seeds: seq<Snapshot>, links: Links, scope: set<string>, f: HardFilter, now: int) {
    forall id :: LinkedTo(seeds, links, id, f, now) ==> id in scope
  }

  lemma WithinById(cs: seq<Snapshot>, scope: set<string>)
    ensures AllWithin(cs, scope) <==> forall id :: Find(cs, id).Some? ==> id in scope
  {
    if AllWithin(cs, scope) {
      forall id | Find(cs, id).Some? ensures id in scope {
        assert cs[Find(cs, id).value].memory.memoryId == id;
      }
    }
    assert forall i :: 0 <= i < |cs| ==> Find(cs, cs[i].memory.memoryId).Some?;
  }

  /** The hard filter does not look at the scope of a query: candidates that were retrieved within it stay within it
      through expansion exactly when no admissible link of a seed with a positive score leads out of it. */
  lemma ExpansionStaysWithin(cs: seq<Snapshot>, links: Links, scope: set<string>, f: HardFilter, now: int)
    requires DistinctIds(cs) && AllWithin(cs, scope) && Expanded(cs, |cs|, links, f, now).Ok?
    ensures AllWithin(Expanded(cs, |cs|, links, f, now).value, scope) <==> NoLinkLeaves(cs, links, scope, f, now)
  {
    var expanded := Expanded(cs, |cs|, links, f, now).value;
    hide Expanded, LinkedTo, AllWithin, DistinctIds, Find, Support;
    WithinById(cs, scope);
    WithinById(expanded, scope);
    assert cs[..|cs|] == cs;
    forall id ensures Find(expanded, id).Some? <==> Find(cs, id).Some? || LinkedTo(cs, links, id, f, now) {
      GraphScoresAreSums(cs, |cs|, links, f, now, id);
      SupportSign(cs, links, id, f, now);
    }
  }

  // ---------- the order of the seeds does not matter ----------

  lemma {:induction false} SupportWithout(seeds: seq<Snapshot>, i: nat, links: Links, id: string, f: HardFilter, now: int)
    requires i < |seeds|
    ensures Support(seeds, links, id, f, now)
         == Support(seeds[..i] + seeds[i + 1..], links, id, f, now) + SeedSupport(seeds[i], links, id, f, now)
  {
    var n := |seeds| - 1;
    var rest := seeds[..i] + seeds[i + 1..];
    hide *;
    SupportLast(seeds, links, id, f, now);
    if i == n {
      assert rest == seeds[..n];
    } else {
      SupportWithout(seeds[..n], i, links, id, f, now);
      SupportLast(rest, links, id, f, now);
      RemovedBeforeLast(seeds, i);
    }
  }

  lemma RemovedBeforeLast<T>(s: seq<T>, i: nat)
    requires i < |s| - 1
    ensures var n, rest := |s| - 1, s[..i] + s[i + 1..];
      rest[..|rest| - 1] == s[..n][..i] + s[..n][i + 1..] && rest[|rest| - 1] == s[n]
  {
  }

  lemma SupportLast(seeds: seq<Snapshot>, links: Links, id: string, f: HardFilter, now: int)
    requires seeds != []
    ensures Support(seeds, links, id, f, now)
         == Support(seeds[..|seeds| - 1], links, id, f, now) + SeedSupport(seeds[|seeds| - 1], links, id, f, now)
  {
    hide SeedSupport;
  }

  lemma {:induction false} SupportIgnoresOrder(a: seq<Snapshot>, b: seq<Snapshot>, links: Links, id: string, f: HardFilter, now: int)
    requires multiset(a) == multiset(b)
    ensures Support(a, links, id, f, now) == Support(b, links, id, f, now)
  {
    if a == [] {
      assert |multiset(b)| == |b|;
    } else {
      var x := a[|a| - 1];
      assert x in multiset(b);
      var i :| 0 <= i < |b| && b[i] == x;
      var rest := b[..i] + b[i + 1..];
      hide SeedSupport;
      WithoutOne(a, b, i);
      SupportIgnoresOrder(a[..|a| - 1], rest, links, id, f, now);
      SupportWithout(b, i, links, id, f, now);
    }
  }

  // ---------- the loops ----------

  method BoostIndexed(ghost cs: seq<RetrievalCandidate>, byId: map<string, RetrievalCandidate>, id: string,
                      seed: string, edgeType: string, base: real)
    requires Distinct(cs) && IsIndex(byId, cs) && Find(Snapshots(cs), id).Some?
    modifies cs
    ensures IsIndex(byId, cs)
    ensures Snapshots(cs) == BoostIn(old(Snapshots(cs)), id, seed, edgeType, base)
  {
    ghost var was := Snapshots(cs);
    ghost var i := Find(was, id).value;
    AllSnapshots(cs);
    var candidate := byId[id];
    assert candidate == cs[i] && Indexes(byId, cs, was);
    assert BoostIn(was, id, seed, edgeType, base) == was[i := Boost(was[i], seed, edgeType, base)];
    hide *;
    BoostCandidate(candidate, seed, edgeType, base);
    UpdatedIndex(cs, byId, was, i, Boost(was[i], seed, edgeType, base));
  }

  method BoostCandidate(c: RetrievalCandidate, seed: string, edgeType: string, base: real)
    modifies c
    ensures c.Value() == Boost(old(c.Value()), seed, edgeType, base)
  {
    if "graph" !in c.debug.sources {
      c.debug := c.debug.(sources := c.debug.sources + ["graph"]);
    }
    c.componentScores := c.componentScores["graph" := Get(c.componentScores, "graph") + base];
    c.debug := c.debug.(graphExpanded := true);
    if (seed, edgeType) !in c.debug.graphSources {
      c.debug := c.debug.(graphSources := c.debug.graphSources + [(seed, edgeType)]);
    }
  }

  method FollowOne(cs: seq<RetrievalCandidate>, byId: map<string, RetrievalCandidate>,
                   ghost was: seq<Snapshot>, ghost repr: set<RetrievalCandidate>,
                   seed: string, base: real, link: Link, f: HardFilter, now: int)
    returns (order: seq<RetrievalCandidate>, index: map<string, RetrievalCandidate>, ghost all: set<RetrievalCandidate>)
    requires Holds(cs, byId, was, repr)
    modifies repr
    ensures Holds(order, index, FollowLink(was, seed, base, link, f, now), all) && cs <= order
    ensures repr <= all && fresh(all - repr)
  {
    order, index, all := cs, byId, repr;
    assert Distinct(cs) && IsIndex(byId, cs) && Snapshots(cs) == was && From(cs, repr);
    hide BoostIn, Ensured, Snapshots, IsIndex, Distinct, Find, MatchesHardFilters;
    if !Admissible(seed, link.neighbor, f, now) {
      return;
    }
    order, index, all := EnsureCandidate(cs, byId, repr, link.neighbor, ["graph"]);
    EnsuredFinds(was, link.neighbor, ["graph"]);
    BoostIndexed(order, index, link.neighbor.memoryId, seed, link.edgeType, base);
  }

  lemma FollowLinksSnoc(cs: seq<Snapshot>, seed: string, base: real, links: seq<Link>, n: nat, f: HardFilter, now: int)
    requires n < |links|
    ensures FollowLinks(cs, seed, base, links[..n + 1], f, now)
         == FollowLink(FollowLinks(cs, seed, base, links[..n], f, now), seed, base, links[n], f, now)
  {
    assert links[..n + 1][..n] == links[..n];
  }

  method FollowAll(cs: seq<RetrievalCandidate>, byId: map<string, RetrievalCandidate>,
                   ghost was: seq<Snapshot>, ghost repr: set<RetrievalCandidate>,
                   seed: string, base: real, links: seq<Link>, f: HardFilter, now: int)
    returns (order: seq<RetrievalCandidate>, index: map<string, RetrievalCandidate>, ghost all: set<RetrievalCandidate>)
    requires Holds(cs, byId, was, repr)
    modifies repr
    ensures Holds(order, index, FollowLinks(was, seed, base, links, f, now), all) && cs <= order
    ensures repr <= all && fresh(all - repr)
  {
    order, index, all := cs, byId, repr;
    assert FollowLinks(was, seed, base, links[..0], f, now) == was;
    assert links[..|links|] == links;
    hide *;
    for n := 0 to |links|
      invariant Holds(order, index, FollowLinks(was, seed, base, links[..n], f, now), all) && cs <= order
      invariant repr <= all && fresh(all - repr)
    {
      FollowLinksSnoc(was, seed, base, links, n, f, now);
      order, index, all :=
        FollowOne(order, index, FollowLinks(was, seed, base, links[..n], f, now), all, seed, base, links[n], f, now);
    }
  }

  method IndexCandidates(cs: seq<RetrievalCandidate>) returns (byId: map<string, RetrievalCandidate>)
    ensures IsIndex(byId, cs)
  {
    byId := map[];
    for n := 0 to |cs|
      invariant IsIndex(byId, cs[..n])
    {
      assert cs[..n + 1][..n] == cs[..n];
      byId := byId[cs[n].memory.memoryId := cs[n]];
    }
    assert cs[..|cs|] == cs;
  }

  method SpreadOne(cs: seq<RetrievalCandidate>, byId: map<string, RetrievalCandidate>,
                   ghost was: seq<Snapshot>, ghost repr: set<RetrievalCandidate>,
                   n: nat, f: HardFilter, links: Links, now: int)
    returns (missing: bool, order: seq<RetrievalCandidate>, index: map<string, RetrievalCandidate>,
             ghost all: set<RetrievalCandidate>)
    requires Holds(cs, byId, was, repr) && n < |cs| == |was|
    modifies repr
    ensures missing <==> Spread(was, n, links, f, now).Err?
    ensures !missing ==> Holds(order, index, Spread(was, n, links, f, now).value, all) && cs <= order
    ensures repr <= all && fresh(all - repr)
  {
    order, index, all := cs, byId, repr;
    Held(cs, byId, was, repr);
    SnapshotsAt(cs, n);
    var candidate := cs[n];
    var base := Get(candidate.componentScores, FUSION);
    if base <= 0.0 {
      base := RealMax(Get(candidate.componentScores, "vector"), Get(candidate.componentScores, "full_text"));
    }
    assert base == BaseScore(was[n]);
    hide BaseScore, Get, RealMax, Holds, Snapshots, FollowLinks;
    if base <= 0.0 {
      return false, order, index, all;
    }
    if candidate.memory.memoryId !in links {
      return true, order, index, all;
    }
    missing := false;
    order, index, all := FollowAll(cs, byId, was, repr, candidate.memory.memoryId, base, links[candidate.memory.memoryId], f, now);
  }

  lemma ExpandedSnoc(cs: seq<Snapshot>, n: nat, links: Links, f: HardFilter, now: int)
    requires n < |cs| && Expanded(cs, n, links, f, now).Ok?
    ensures Expanded(cs, n + 1, links, f, now) == Spread(Expanded(cs, n, links, f, now).value, n, links, f, now)
  {
    hide Spread;
  }

  lemma {:induction false} ExpandedErr(cs: seq<Snapshot>, n: nat, m: nat, links: Links, f: HardFilter, now: int)
    requires n <= m <= |cs| && Expanded(cs, n, links, f, now).Err?
    ensures Expanded(cs, m, links, f, now) == Err(MemoryNotFoundError)
  {
    hide BaseScore, FollowLinks;
    if n < m {
      ExpandedErr(cs, n, m - 1, links, f, now);
    } else if n > 0 && Expanded(cs, n - 1, links, f, now).Err? {
      ExpandedErr(cs, n - 1, n - 1, links, f, now);
    }
  }

  /** The first `n` seeds are done. */
  ghost predicate Spreading(seeds: seq<RetrievalCandidate>, was: seq<Snapshot>, n: nat, links: Links, f: HardFilter, now: int,
                            cs: seq<RetrievalCandidate>, byId: map<string, RetrievalCandidate>, repr: set<RetrievalCandidate>)
    reads cs
  {
    && n <= |seeds| == |was| && seeds <= cs
    && Expanded(was, n, links, f, now).Ok?
    && Holds(cs, byId, Expanded(was, n, links, f, now).value, repr)
  }

  method SpreadNext(seeds: seq<RetrievalCandidate>, ghost was: seq<Snapshot>, n: nat, links: Links, f: HardFilter, now: int,
                    cs: seq<RetrievalCandidate>, byId: map<string, RetrievalCandidate>, ghost repr: set<RetrievalCandidate>)
    returns (missing: bool, order: seq<RetrievalCandidate>, index: map<string, RetrievalCandidate>,
             ghost all: set<RetrievalCandidate>)
    requires Spreading(seeds, was, n, links, f, now, cs, byId, repr) && n < |seeds|
    modifies repr
    ensures missing ==> Expanded(was, |seeds|, links, f, now) == Err(MemoryNotFoundError)
    ensures !missing ==> Spreading(seeds, was, n + 1, links, f, now, order, index, all)
    ensures repr <= all && fresh(all - repr)
  {
    ghost var values := Expanded(was, n, links, f, now).value;
    assert Holds(cs, byId, values, repr) && seeds <= cs && |seeds| == |was|;
    assert Expanded(was, n, links, f, now).Ok?;
    hide Holds, Expanded, Spread;
    Held(cs, byId, values, repr);
    ExpandedSnoc(was, n, links, f, now);
    missing, order, index, all := SpreadOne(cs, byId, values, repr, n, f, links, now);
    if missing {
      ExpandedErr(was, n + 1, |was|, links, f, now);
    }
  }

  /** `expand_one_hop_candidates` */
  method ExpandOneHopCandidates(candidates: seq<RetrievalCandidate>, ghost repr: set<RetrievalCandidate>,
                                f: HardFilter, links: Links, now: int)
    returns (r: Result<seq<RetrievalCandidate>>, ghost all: set<RetrievalCandidate>)
    requires Distinct(candidates) && From(candidates, repr)
    modifies repr
    ensures match Expanded(old(Snapshots(candidates)), |candidates|, links, f, now)
      case Err(e) => r == Err(e)
      case Ok(values) => r.Ok? && Distinct(r.value) && From(r.value, all) && Snapshots(r.value) == values
    ensures repr <= all && fresh(all - repr)
  {
    hide *;
    ghost var was := Snapshots(candidates);
    var seeds := candidates;
    var byId := IndexCandidates(candidates);
    var order := candidates;
    all := repr;
    SpreadStarts(candidates, byId, links, f, now, repr);
    for n := 0 to |seeds|
      invariant Spreading(seeds, was, n, links, f, now, order, byId, all)
      invariant repr <= all && fresh(all - repr)
    {
      var missing;
      missing, order, byId, all := SpreadNext(seeds, was, n, links, f, now, order, byId, all);
      if missing {
        return Err(MemoryNotFoundError), all;
      }
    }
    SpreadDone(seeds, was, links, f, now, order, byId, all);
    r := Ok(order);
  }

  lemma SpreadStarts(cs: seq<RetrievalCandidate>, byId: map<string, RetrievalCandidate>, links: Links, f: HardFilter, now: int,
                     repr: set<RetrievalCandidate>)
    requires Distinct(cs) && From(cs, repr) && IsIndex(byId, cs)
    ensures Spreading(cs, Snapshots(cs), 0, links, f, now, cs, byId, repr)
  {
    hide Snapshots, IsIndex, From, Distinct;
  }

  lemma SpreadDone(seeds: seq<RetrievalCandidate>, was: seq<Snapshot>, links: Links, f: HardFilter, now: int,
                   cs: seq<RetrievalCandidate>, byId: map<string, RetrievalCandidate>, repr: set<RetrievalCandidate>)
    requires Spreading(seeds, was, |seeds|, links, f, now, cs, byId, repr)
    ensures |seeds| == |was| && Distinct(cs) && From(cs, repr)
    ensures Expanded(was, |was|, links, f, now) == Ok(Snapshots(cs))
  {
    hide Expanded, Snapshots;
  }
}
