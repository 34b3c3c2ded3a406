/** Optional reranking of the best candidates. */
module Reranking {
  import opened Common
  import opened Candidates

  /** The provider's scores for the documents; `None` when it raises. */
  type Provider = seq<string> -> Option<seq<real>>

  function Texts(cs: seq<Snapshot>): (r: seq<string>)
    ensures |r| == |cs|
  {
    if cs == [] then [] else Texts(cs[..|cs| - 1]) + [cs[|cs| - 1].memory.text]
  }

  function WithRerankScore(s: Snapshot, score: real): (r: Snapshot)
    ensures r.memory == s.memory
  {
    s.(componentScores := s.componentScores["reranker" := score], debug := s.debug.(rerankApplied := true))
  }

  function WithRerankError(s: Snapshot): (r: Snapshot)
    ensures r.memory == s.memory
  {
    s.(debug := s.debug.(rerankFailed := true))
  }

  ghost function AllWithError(cs: seq<Snapshot>): (r: seq<Snapshot>)
    ensures |r| == |cs|
  {
    seq(|cs|, i requires 0 <= i < |cs| => WithRerankError(cs[i]))
  }

  /** `zip(bounded, scores)`: the shorter list decides. */
  ghost function WithScores(cs: seq<Snapshot>, bounded: nat, scores: seq<real>): (r: seq<Snapshot>)
    ensures |r| == |cs|
  {
    seq(|cs|, i requires 0 <= i < |cs| => if i < bounded && i < |scores| then WithRerankScore(cs[i], scores[i]) else cs[i])
  }

  function Bound(n: nat, topN: int): nat {
    if topN < 0 then 0 else if topN < n then topN else n
  }

  /** `rerank_candidates` */
  ghost function Reranked(cs: seq<Snapshot>, enabled: bool, topN: int, provider: Option<Provider>): (r: seq<Snapshot>)
    ensures |r| == |cs|
  {
    if !enabled || topN < 1 || cs == [] || provider.None? then cs
    else
      match provider.value(Texts(cs[..Bound(|cs|, topN)]))
      case None => AllWithError(cs)
      case Some(scores) => WithScores(cs, Bound(|cs|, topN), scores)
  }

  method CollectTexts(cs: seq<RetrievalCandidate>, n: nat) returns (texts: seq<string>)
    requires n <= |cs|
    ensures texts == Texts(Snapshots(cs)[..n])
  {
    texts := [];
    ghost var was := Snapshots(cs);
    for i := 0 to n
      invariant texts == Texts(was[..i])
    {
      SnapshotsAt(cs, i);
      assert was[..i + 1][..i] == was[..i];
      texts := texts + [cs[i].memory.text];
    }
  }

  method MarkError(c: RetrievalCandidate)
    modifies c
    ensures c.Value() == WithRerankError(old(c.Value()))
  {
    c.debug := c.debug.(rerankFailed := true);
  }

  method MarkErrors(cs: seq<RetrievalCandidate>)
    requires Distinct(cs)
    modifies cs
    ensures Snapshots(cs) == AllWithError(old(Snapshots(cs)))
  {
    ghost var was := Snapshots(cs);
    ghost var now := AllWithError(was);
    NoneDone(cs, now);
    assert forall i :: 0 <= i < |was| ==> now[i] == WithRerankError(was[i]);
    hide *;
    for i := 0 to |cs|
      invariant Halfway(cs, now, was, i)
    {
      OneTurn(cs, now, was, i);
      MarkError(cs[i]);
      OneDone(cs, now, was, i);
    }
    AllDone(cs, now, was);
  }

  method ApplyScores(cs: seq<RetrievalCandidate>, bounded: nat, scores: seq<real>)
    requires Distinct(cs) && bounded <= |cs|
    modifies cs
    ensures Snapshots(cs) == WithScores(old(Snapshots(cs)), bounded, scores)
  {
    ghost var was := Snapshots(cs);
    ghost var now := WithScores(was, bounded, scores);
    var n := if bounded < |scores| then bounded else |scores|;
    NoneDone(cs, now);
    assert forall i :: 0 <= i < |was| ==> now[i] == if i < n then WithRerankScore(was[i], scores[i]) else was[i];
    hide *;
    for i := 0 to n
      invariant Halfway(cs, now, was, i)
    {
      OneTurn(cs, now, was, i);
      ApplyScore(cs[i], scores[i]);
      OneDone(cs, now, was, i);
    }
    RestUnchanged(cs, now, was, n);
    AllDone(cs, now, was);
  }

  lemma RestUnchanged(cs: seq<RetrievalCandidate>, now: seq<Snapshot>, was: seq<Snapshot>, n: nat)
    requires Halfway(cs, now, was, n) && forall i :: n <= i < |was| ==> now[i] == was[i]
    ensures Halfway(cs, now, was, |cs|)
  {
  }

  method ApplyScore(c: RetrievalCandidate, score: real)
    modifies c
    ensures c.Value() == WithRerankScore(old(c.Value()), score)
  {
    c.componentScores := c.componentScores["reranker" := score];
    c.debug := c.debug.(rerankApplied := true);
  }

  method RerankCandidates(cs: seq<RetrievalCandidate>, enabled: bool, topN: int, provider: Option<Provider>)
    requires Distinct(cs)
    modifies cs
    ensures Snapshots(cs) == Reranked(old(Snapshots(cs)), enabled, topN, provider)
  {
    if !enabled || topN < 1 || |cs| == 0 || provider.None? {
      return;
    }
    var bounded := Bound(|cs|, topN);
    var documents := CollectTexts(cs, bounded);
    hide Snapshots, Texts, AllWithError, WithScores, Bound;
    match provider.value(documents)
    case None => MarkErrors(cs);
    case Some(scores) => ApplyScores(cs, bounded, scores);
  }
}

/** The whole search. */
module Search {
  import opened Common
  import opened Ordering
  import opened Candidates
  import opened CandidateIndex
  import opened Ownership
  import opened Deduplication
  import opened Ranking
  import opened RankFusion
  import opened Filters
  import opened GraphExpansion
  import opened Normalization
  import opened Weighting
  import opened Reranking

  datatype Settings = Settings(
    rrfK: nat, graphExpansion: bool, weights: seq<Weight>, rerankerEnabled: bool, rerankTopN: nat, finalTopK: nat
  )

  /** What the search is given: the store's answers, the providers and the clock. */
  datatype World = World(
    vectorRecords: seq<Memory>, fullTextRecords: seq<Memory>,
    rankVector: seq<Memory> -> seq<Match>, rankFullText: seq<Memory> -> seq<Match>,
    links: Links, temporal: Memory -> real, provider: Option<Provider>, now: int
  )

  /** A scorer ranks some of the records that it is given. */
  ghost predicate RanksGiven(rank: seq<Memory> -> seq<Match>) {
    forall records, i :: 0 <= i < |rank(records)| ==> rank(records)[i].memory in records
  }

  // ---------- the stages ----------

  ghost function FusedMatches(s: Settings, w: World, q: Query): seq<Snapshot> {
    Fused(w.rankVector(FilterRecords(w.vectorRecords, q, w.now)), w.rankFullText(FilterRecords(w.fullTextRecords, q, w.now)), s.rrfK)
  }

  /** Deduplication, expansion, and deduplication again. */
  ghost function Retrieved(s: Settings, w: World, q: Query, fused: seq<Snapshot>): Result<seq<Snapshot>> {
    var kept := Deduplicated(fused);
    if !s.graphExpansion then Ok(kept)
    else
      match Expanded(kept, |kept|, w.links, BuildHardFilter(q), w.now)
      case Err(e) => Err(e)
      case Ok(expanded) => Ok(Deduplicated(expanded))
  }

  ghost function Scored(s: Settings, cs: seq<Snapshot>): (r: seq<Snapshot>)
    ensures |r| == |cs|
  {
    Ranked(ByFinal, ScoredAll(Normalized(cs), Effective(s.weights, s.rerankerEnabled)))
  }

  /** The ranking before the reranker is asked. */
  ghost function FirstStage(s: Settings, w: World, cs: seq<Snapshot>): (r: seq<Snapshot>)
    ensures |r| == |cs|
  {
    Scored(s, EnrichedAll(cs, w.temporal))
  }

  ghost function SecondStage(s: Settings, w: World, cs: seq<Snapshot>): (r: seq<Snapshot>)
    ensures |r| == |cs|
  {
    Scored(s, Reranked(cs, s.rerankerEnabled, Min(s.rerankTopN, |cs|), w.provider))
  }

  predicate NothingFiltered(w: World, q: Query) {
    FilterRecords(w.vectorRecords, q, w.now) == [] && FilterRecords(w.fullTextRecords, q, w.now) == []
  }

  ghost function Cut(s: Settings, limit: nat, cs: seq<Snapshot>): seq<Snapshot> {
    cs[..Min(Min(limit, s.finalTopK), |cs|)]
  }

  /** What follows fusion. */
  ghost function Answer(s: Settings, w: World, q: Query, limit: nat, fused: seq<Snapshot>): Result<seq<Snapshot>> {
    match Retrieved(s, w, q, fused)
    case Err(e) => Err(e)
    case Ok(cs) => Ok(Cut(s, limit, SecondStage(s, w, FirstStage(s, w, cs))))
  }

  /** `RetrievalService.search` */
  ghost function Found(s: Settings, w: World, q: Query, limit: nat): Result<seq<Snapshot>> {
    if NothingFiltered(w, q) || FusedMatches(s, w, q) == [] then Ok([])
    else
      Answer(s, w, q, limit, FusedMatches(s, w, q))
  }

  // ---------- what every stage keeps ----------

  ghost predicate SameMemories(a: seq<Snapshot>, b: seq<Snapshot>) {
    |a| == |b| && forall i :: 0 <= i < |a| ==> a[i].memory == b[i].memory
  }

  /** Admissible candidates, no two of which share a key. */
  ghost predicate Sound(cs: seq<Snapshot>, f: HardFilter, now: int) {
    AllMatch(cs, f, now) && PairwiseUnshared(KeysOf(cs))
  }

  lemma SoundMemories(a: seq<Snapshot>, b: seq<Snapshot>, f: HardFilter, now: int)
    requires SameMemories(a, b) && Sound(a, f, now)
    ensures Sound(b, f, now)
  {
    hide MatchesHardFilters, CandidateKeys, Share;
    forall c | c in b ensures MatchesHardFilters(c.memory, f, now) {
      var i :| 0 <= i < |b| && b[i] == c;
      assert a[i] in a;
    }
    assert KeysOf(a) == KeysOf(b);
  }

  lemma ShareSymmetric(a: Keys, b: Keys)
    requires Share(a, b)
    ensures Share(b, a)
  {
    var k :| k in a && k in b;
  }

  lemma SoundPermuted(cs: seq<Snapshot>, order: seq<nat>, f: HardFilter, now: int)
    requires Sound(cs, f, now) && IsPermutation(order, |cs|)
    ensures Sound(Pick(cs, order), f, now)
  {
    var r := Pick(cs, order);
    hide MatchesHardFilters, CandidateKeys, Share;
    forall i, j | 0 <= i < j < |r| ensures !Share(KeysOf(r)[i], KeysOf(r)[j]) {
      var a, b := KeysOf(cs)[order[i]], KeysOf(cs)[order[j]];
      assert order[i] != order[j] && KeysOf(r)[i] == a && KeysOf(r)[j] == b;
      if Share(a, b) {
        ShareSymmetric(a, b);
        assert false;
      }
    }
  }

  lemma SoundScored(s: Settings, cs: seq<Snapshot>, f: HardFilter, now: int)
    requires Sound(cs, f, now)
    ensures Sound(Scored(s, cs), f, now)
  {
    var scored := ScoredAll(Normalized(cs), Effective(s.weights, s.rerankerEnabled));
    assert SameMemories(cs, scored);
    assert Scored(s, cs) == Ranked(ByFinal, scored);
    hide *;
    SoundMemories(cs, scored, f, now);
    RankedIsPicked(ByFinal, scored);
    SoundPermuted(scored, Order(ByFinal, RankKeys(scored)), f, now);
  }

  lemma SoundDeduplicated(cs: seq<Snapshot>, f: HardFilter, now: int)
    requires AllMatch(cs, f, now)
    ensures Sound(Deduplicated(cs), f, now)
  {
    KeptShareNoKey(cs);
    AssignShape(KeysOf(cs));
    var d := Deduplicated(cs);
    hide Assign, Deduplicated, MatchesHardFilters, KeysOf;
    forall c | c in d ensures MatchesHardFilters(c.memory, f, now) {
      var j :| 0 <= j < |d| && d[j] == c;
      KeptMemory(cs, j);
    }
  }

  lemma {:induction false} FilteredMatch(records: seq<Memory>, q: Query, now: int)
    ensures forall m :: m in FilterRecords(records, q, now) ==> MatchesHardFilters(m, BuildHardFilter(q), now)
  {
    if records != [] {
      FilteredMatch(records[..|records| - 1], q, now);
    }
    hide MatchesHardFilters, BuildHardFilter;
  }

  lemma FusedMatch(s: Settings, w: World, q: Query)
    requires RanksGiven(w.rankVector) && RanksGiven(w.rankFullText)
    ensures AllMatch(FusedMatches(s, w, q), BuildHardFilter(q), w.now)
  {
    var vector, fullText := FilterRecords(w.vectorRecords, q, w.now), FilterRecords(w.fullTextRecords, q, w.now);
    FilteredMatch(w.vectorRecords, q, w.now);
    FilteredMatch(w.fullTextRecords, q, w.now);
    FusedFromMatches(w.rankVector(vector), w.rankFullText(fullText), s.rrfK);
    hide MatchesHardFilters, BuildHardFilter, Fused, FilterRecords;
  }

  lemma RetrievedIsSound(s: Settings, w: World, q: Query, fused: seq<Snapshot>)
    requires AllMatch(fused, BuildHardFilter(q), w.now) && Retrieved(s, w, q, fused).Ok?
    ensures Sound(Retrieved(s, w, q, fused).value, BuildHardFilter(q), w.now)
  {
    var f := BuildHardFilter(q);
    SoundDeduplicated(fused, f, w.now);
    var kept := Deduplicated(fused);
    hide BuildHardFilter, Deduplicated, Expanded, KeysOf, AllMatch;
    if s.graphExpansion {
      ExpansionKeepsMatching(kept, |kept|, w.links, f, w.now);
      SoundDeduplicated(Expanded(kept, |kept|, w.links, f, w.now).value, f, w.now);
    }
  }

  // ---------- what the caller gets ----------

  ghost predicate InFinalOrder(cs: seq<Snapshot>) {
    forall i, j :: 0 <= i < j < |cs| ==> FinalLe(RankKeys(cs)[i], RankKeys(cs)[j])
  }

  lemma RankedInFinalOrder(cs: seq<Snapshot>)
    ensures InFinalOrder(Ranked(ByFinal, cs))
  {
    var order, keys := Order(ByFinal, RankKeys(cs)), RankKeys(cs);
    OrderPermutes(ByFinal, keys);
    ByFinalIsOrder();
    RankedIsPicked(ByFinal, cs);
    var r := Ranked(ByFinal, cs);
    hide Order, Ranked, TotalPreorder, FinalLe;
    forall i, j | 0 <= i < j < |r| ensures FinalLe(RankKeys(r)[i], RankKeys(r)[j]) {
      assert ByFinal(Keyed(keys[order[i]], order[i]), Keyed(keys[order[j]], order[j]));
    }
  }

  lemma PrefixStaysSound(cs: seq<Snapshot>, n: nat, f: HardFilter, now: int)
    requires Sound(cs, f, now) && InFinalOrder(cs) && n <= |cs|
    ensures Sound(cs[..n], f, now) && InFinalOrder(cs[..n])
  {
    hide MatchesHardFilters, CandidateKeys, Share, FinalLe;
    assert forall i :: 0 <= i < n ==> KeysOf(cs[..n])[i] == KeysOf(cs)[i] && RankKeys(cs[..n])[i] == RankKeys(cs)[i];
  }

  /** Every result satisfies the filter of the query, no two share a key, they come in the order of final score,
      fusion score and id, and there are no more than asked for. */
  lemma SearchResults(s: Settings, w: World, q: Query, limit: nat)
    requires RanksGiven(w.rankVector) && RanksGiven(w.rankFullText) && Found(s, w, q, limit).Ok?
    ensures Sound(Found(s, w, q, limit).value, BuildHardFilter(q), w.now)
    ensures InFinalOrder(Found(s, w, q, limit).value)
    ensures |Found(s, w, q, limit).value| <= Min(limit, s.finalTopK)
  {
    if !NothingFiltered(w, q) && FusedMatches(s, w, q) != [] {
      var f, fused := BuildHardFilter(q), FusedMatches(s, w, q);
      FusedMatch(s, w, q);
      var cs := Retrieved(s, w, q, fused).value;
      var first := FirstStage(s, w, cs);
      assert Found(s, w, q, limit).value == Cut(s, limit, SecondStage(s, w, first));
      hide *;
      RetrievedIsSound(s, w, q, fused);
      SoundFirstStage(s, w, cs, f, w.now);
      SoundSecondStage(s, w, first, f, w.now);
      CutStaysSound(s, limit, SecondStage(s, w, first), f, w.now);
    }
  }

  /** The results are the first of the whole ranking: nothing that is cut off comes before a result. In words, the order
      is: larger final score first; of equal ones the larger fusion score; of equal ones the smaller id. */
  lemma ResultsAreBest(s: Settings, w: World, q: Query, limit: nat) returns (ranking: seq<Snapshot>)
    requires Found(s, w, q, limit).Ok?
    ensures var results := Found(s, w, q, limit).value;
      && results <= ranking && |results| == Min(Min(limit, s.finalTopK), |ranking|)
    ensures forall i, j :: 0 <= i < j < |ranking| ==> ComesBefore(ranking[i], ranking[j])
  {
    ranking := [];
    if !NothingFiltered(w, q) && FusedMatches(s, w, q) != [] {
      var cs := Retrieved(s, w, q, FusedMatches(s, w, q)).value;
      var reranked := Reranked(FirstStage(s, w, cs), s.rerankerEnabled, Min(s.rerankTopN, |cs|), w.provider);
      var scored := ScoredAll(Normalized(reranked), Effective(s.weights, s.rerankerEnabled));
      ranking := SecondStage(s, w, FirstStage(s, w, cs));
      assert ranking == Ranked(ByFinal, scored);
      assert Found(s, w, q, limit).value == Cut(s, limit, ranking);
      hide FirstStage, SecondStage, Reranked, Normalized, ScoredAll, Effective, Retrieved, FusedMatches, Found, Ranked, FinalLe;
      RankedInFinalOrder(scored);
      forall i, j | 0 <= i < j < |ranking| ensures ComesBefore(ranking[i], ranking[j]) {
        FinalLeInWords(ranking, i, j);
      }
    }
  }

  predicate ComesBefore(a: Snapshot, b: Snapshot) {
    var x, y := Get(a.componentScores, "retrieval_fusion"), Get(b.componentScores, "retrieval_fusion");
    || a.finalScore > b.finalScore
    || (a.finalScore == b.finalScore && x > y)
    || (a.finalScore == b.finalScore && x == y && StrLe(a.memory.memoryId, b.memory.memoryId))
  }

  lemma FinalLeInWords(cs: seq<Snapshot>, i: nat, j: nat)
    requires i < |cs| && j < |cs| && FinalLe(RankKeys(cs)[i], RankKeys(cs)[j])
    ensures ComesBefore(cs[i], cs[j])
  {
  }

  /** The reranker's answer goes to the candidates at the head of the ranking, one score each, as far as it reaches; a
      provider that raises changes no score. */
  lemma RerankedScores(cs: seq<Snapshot>, topN: nat, provider: Provider, i: nat)
    requires i < |cs| && topN >= 1
    ensures var after := Reranked(cs, true, topN, Some(provider))[i];
      match provider(Texts(cs[..Min(topN, |cs|)]))
      case None => after.componentScores == cs[i].componentScores && after.debug.rerankFailed
      case Some(scores) =>
        if i < topN && i < |scores| then
          after.componentScores == cs[i].componentScores["reranker" := scores[i]] && after.debug.rerankApplied
        else after == cs[i]
  {
    assert Bound(|cs|, topN) == Min(topN, |cs|);
    hide Texts;
  }

  lemma {:induction false} TextsAre(cs: seq<Snapshot>, i: nat)
    requires i < |cs|
    ensures Texts(cs)[i] == cs[i].memory.text
  {
    if i < |cs| - 1 {
      TextsAre(cs[..|cs| - 1], i);
    }
  }

  /** The seeds of expansion pass on their fusion scores: every matched candidate has a positive one, the largest sum
      of reciprocal ranks among those that were merged into it. */
  lemma SeedsPassOnFusion(s: Settings, w: World, q: Query, g: nat)
    requires var fused := FusedMatches(s, w, q); g < |Deduplicated(fused)| && Shape(Assign(KeysOf(fused)), |fused|)
    ensures var fused := FusedMatches(s, w, q); var seed := Deduplicated(fused)[g];
      && BaseScore(seed) == Get(seed.componentScores, FUSION) > 0.0
      && IsGroupMax(fused, Assign(KeysOf(fused)), g, FUSION, BaseScore(seed))
  {
    var fused := FusedMatches(s, w, q);
    FusedArePositive(s, w, q);
    hide FusedMatches, Deduplicated, Assign, KeysOf, IsGroupMax;
    MergedScoresAreMaxima(fused, g, FUSION);
    OwnerScores(fused, Assign(KeysOf(fused)), g);
  }

  lemma FusedArePositive(s: Settings, w: World, q: Query)
    ensures var fused := FusedMatches(s, w, q);
      forall i :: 0 <= i < |fused| ==> FUSION in fused[i].componentScores && fused[i].componentScores[FUSION] > 0.0
  {
    var vector := w.rankVector(FilterRecords(w.vectorRecords, q, w.now));
    var fullText := w.rankFullText(FilterRecords(w.fullTextRecords, q, w.now));
    assert FusedMatches(s, w, q) == Fused(vector, fullText, s.rrfK);
    hide FusedMatches, Fused;
    forall i | 0 <= i < |FusedMatches(s, w, q)|
      ensures FUSION in FusedMatches(s, w, q)[i].componentScores && FusedMatches(s, w, q)[i].componentScores[FUSION] > 0.0
    {
      FusedIsPositive(vector, fullText, s.rrfK, i);
    }
  }

  lemma OwnerScores(fused: seq<Snapshot>, a: Assignment, g: nat)
    requires Shape(a, |fused|) && g < |a.owners|
    requires forall i :: 0 <= i < |fused| ==> FUSION in fused[i].componentScores && fused[i].componentScores[FUSION] > 0.0
    ensures SomeoneScores(fused, a, g, FUSION)
    ensures forall x :: IsGroupMax(fused, a, g, FUSION, x) ==> x > 0.0
  {
    var i := a.owners[g];
    assert a.group[i] == g && FUSION in fused[i].componentScores;
  }

  lemma CutStaysSound(s: Settings, limit: nat, cs: seq<Snapshot>, f: HardFilter, now: int)
    requires Sound(cs, f, now) && InFinalOrder(cs)
    ensures Sound(Cut(s, limit, cs), f, now) && InFinalOrder(Cut(s, limit, cs)) && |Cut(s, limit, cs)| <= Min(limit, s.finalTopK)
  {
    hide Sound, InFinalOrder;
    PrefixStaysSound(cs, Min(Min(limit, s.finalTopK), |cs|), f, now);
  }

  lemma SoundFirstStage(s: Settings, w: World, cs: seq<Snapshot>, f: HardFilter, now: int)
    requires Sound(cs, f, now)
    ensures Sound(FirstStage(s, w, cs), f, now)
  {
    var enriched := EnrichedAll(cs, w.temporal);
    assert SameMemories(cs, enriched);
    hide Sound, Enriched, SameMemories;
    SoundMemories(cs, enriched, f, now);
    SoundScored(s, enriched, f, now);
  }

  lemma SoundSecondStage(s: Settings, w: World, cs: seq<Snapshot>, f: HardFilter, now: int)
    requires Sound(cs, f, now)
    ensures Sound(SecondStage(s, w, cs), f, now) && InFinalOrder(SecondStage(s, w, cs))
  {
    var reranked := Reranked(cs, s.rerankerEnabled, Min(s.rerankTopN, |cs|), w.provider);
    assert SameMemories(cs, reranked);
    hide Sound, Reranked, SameMemories, InFinalOrder;
    SoundMemories(cs, reranked, f, now);
    SoundScored(s, reranked, f, now);
    RankedInFinalOrder(ScoredAll(Normalized(reranked), Effective(s.weights, s.rerankerEnabled)));
  }

  lemma UnsharedHaveDistinctIds(cs: seq<Snapshot>)
    requires PairwiseUnshared(KeysOf(cs))
    ensures DistinctIds(cs)
  {
    forall i, j | 0 <= i < j < |cs| ensures cs[i].memory.memoryId != cs[j].memory.memoryId {
      assert "memory_id:" + cs[i].memory.memoryId in KeysOf(cs)[i];
      assert "memory_id:" + cs[j].memory.memoryId in KeysOf(cs)[j];
      assert !Share(KeysOf(cs)[i], KeysOf(cs)[j]);
    }
  }

  // ---------- expansion within the search ----------

  lemma KeptLacks(cs: seq<Snapshot>, name: string)
    requires Lacks(cs, name)
    ensures Lacks(Deduplicated(cs), name)
  {
    var d := Deduplicated(cs);
    AssignShape(KeysOf(cs));
    hide Deduplicated, Assign, KeysOf;
    forall c | c in d ensures name !in c.componentScores {
      var g :| 0 <= g < |d| && d[g] == c;
      MergedScoresAreMaxima(cs, g, name);
    }
  }

  /** In a search, a memory leaves expansion with the sum of the base scores of the seeds over their admissible
      links to it, and a memory that no list matched is there exactly when that sum is positive. */
  lemma GraphScoresInSearch(s: Settings, w: World, q: Query, id: string)
    requires var kept := Deduplicated(FusedMatches(s, w, q)); Expanded(kept, |kept|, w.links, BuildHardFilter(q), w.now).Ok?
    ensures var kept := Deduplicated(FusedMatches(s, w, q));
      var expanded := Expanded(kept, |kept|, w.links, BuildHardFilter(q), w.now).value;
      var support := Support(kept, w.links, id, BuildHardFilter(q), w.now);
      && ScoreOf(expanded, id, "graph") == support
      && (Find(expanded, id).Some? <==> Find(kept, id).Some? || support > 0.0)
  {
    var fused := FusedMatches(s, w, q);
    var kept := Deduplicated(fused);
    hide *;
    FusedHaveNoGraphScore(s, w, q);
    KeptLacks(fused, "graph");
    KeptShareNoKey(fused);
    UnsharedHaveDistinctIds(kept);
    GraphScoresAreSums(kept, |kept|, w.links, BuildHardFilter(q), w.now, id);
    assert kept[..|kept|] == kept;
    FirstGraphScores(kept, Expanded(kept, |kept|, w.links, BuildHardFilter(q), w.now).value, id,
                     Support(kept, w.links, id, BuildHardFilter(q), w.now));
  }

  lemma FusedHaveNoGraphScore(s: Settings, w: World, q: Query)
    ensures Lacks(FusedMatches(s, w, q), "graph")
  {
    FusedLacks(w.rankVector(FilterRecords(w.vectorRecords, q, w.now)),
               w.rankFullText(FilterRecords(w.fullTextRecords, q, w.now)), s.rrfK, "graph");
    hide Fused, FilterRecords;
  }

  lemma FirstGraphScores(before: seq<Snapshot>, after: seq<Snapshot>, id: string, amount: real)
    requires Lacks(before, "graph") && Gains(before, after, id, amount)
    ensures ScoreOf(after, id, "graph") == amount
    ensures Find(after, id).Some? <==> Find(before, id).Some? || amount > 0.0
  {
    hide Find;
    if Find(before, id).Some? {
      assert before[Find(before, id).value] in before;
    }
  }

  // ---------- the scope of the query ----------

  lemma SameMemoriesWithin(a: seq<Snapshot>, b: seq<Snapshot>, scope: set<string>)
    requires SameMemories(a, b) && AllWithin(a, scope)
    ensures AllWithin(b, scope)
  {
  }

  lemma DeduplicatedWithin(cs: seq<Snapshot>, scope: set<string>)
    requires AllWithin(cs, scope)
    ensures AllWithin(Deduplicated(cs), scope)
  {
    AssignShape(KeysOf(cs));
    var d := Deduplicated(cs);
    hide Assign, Deduplicated, KeysOf;
    forall j | 0 <= j < |d| ensures d[j].memory.memoryId in scope {
      KeptMemory(cs, j);
    }
  }

  lemma ScoredWithin(s: Settings, cs: seq<Snapshot>, scope: set<string>)
    requires AllWithin(cs, scope)
    ensures AllWithin(Scored(s, cs), scope)
  {
    var scored := ScoredAll(Normalized(cs), Effective(s.weights, s.rerankerEnabled));
    assert SameMemories(cs, scored);
    assert Scored(s, cs) == Ranked(ByFinal, scored);
    hide *;
    SameMemoriesWithin(cs, scored, scope);
    RankedIsPicked(ByFinal, scored);
    PermutedWithin(scored, Order(ByFinal, RankKeys(scored)), scope);
  }

  lemma PermutedWithin(cs: seq<Snapshot>, order: seq<nat>, scope: set<string>)
    requires AllWithin(cs, scope) && IsPermutation(order, |cs|)
    ensures AllWithin(Pick(cs, order), scope)
  {
  }

  lemma StagesWithin(s: Settings, w: World, cs: seq<Snapshot>, limit: nat, scope: set<string>)
    requires AllWithin(cs, scope)
    ensures AllWithin(Cut(s, limit, SecondStage(s, w, FirstStage(s, w, cs))), scope)
  {
    var enriched, first := EnrichedAll(cs, w.temporal), FirstStage(s, w, cs);
    var reranked := Reranked(first, s.rerankerEnabled, Min(s.rerankTopN, |first|), w.provider);
    assert SameMemories(cs, enriched) && SameMemories(first, reranked);
    assert first == Scored(s, enriched) && SecondStage(s, w, first) == Scored(s, reranked);
    hide Enriched, EnrichedAll, Reranked, SameMemories, FirstStage, SecondStage, Scored;
    SameMemoriesWithin(cs, enriched, scope);
    ScoredWithin(s, enriched, scope);
    SameMemoriesWithin(first, reranked, scope);
    ScoredWithin(s, reranked, scope);
  }

  /** The hard filter does not look at the query's scope. Candidates that retrieval found inside the scope are all
      inside it after expansion exactly when no admissible link of theirs leads out. */
  lemma CandidatesStayWithin(s: Settings, w: World, q: Query, scope: set<string>)
    requires var kept := Deduplicated(FusedMatches(s, w, q)); Expanded(kept, |kept|, w.links, BuildHardFilter(q), w.now).Ok?
    requires AllWithin(FusedMatches(s, w, q), scope)
    ensures var kept := Deduplicated(FusedMatches(s, w, q));
      var expanded := Expanded(kept, |kept|, w.links, BuildHardFilter(q), w.now).value;
      AllWithin(expanded, scope) <==> NoLinkLeaves(kept, w.links, scope, BuildHardFilter(q), w.now)
  {
    var fused := FusedMatches(s, w, q);
    hide *;
    DeduplicatedWithin(fused, scope);
    KeptShareNoKey(fused);
    UnsharedHaveDistinctIds(Deduplicated(fused));
    ExpansionStaysWithin(Deduplicated(fused), w.links, scope, BuildHardFilter(q), w.now);
  }

  /** One admissible link out of the scope of a lone seed. */
  lemma OneLinkLeaves(seed: Snapshot, link: Link, f: HardFilter, now: int)
    requires BaseScore(seed) > 0.0 && Admissible(seed.memory.memoryId, link.neighbor, f, now)
    ensures var expanded := Expanded([seed], 1, map[seed.memory.memoryId := [link]], f, now);
      expanded.Ok? && !AllWithin(expanded.value, {seed.memory.memoryId})
  {
    var links := map[seed.memory.memoryId := [link]];
    assert link.neighbor.memoryId != seed.memory.memoryId;
    assert [seed][0] == seed && [link][0] == link;
    hide Admissible, BaseScore, FollowLinks;
    assert Expanded([seed], 0, links, f, now) == Ok([seed]);
    assert Expanded([seed], 1, links, f, now).Ok?;
    assert LinkedTo([seed], links, link.neighbor.memoryId, f, now);
    hide Expanded, LinkedTo;
    ExpansionStaysWithin([seed], links, {seed.memory.memoryId}, f, now);
  }

  /** A query for everything active, and a retrieved memory with a link to another one that is not in the scope. */
  lemma ScopeExample()
    ensures var f := BuildHardFilter(Query(None, None, None, None, false, false, true));
      var seed := NewSnapshot(Identified("a", None, None), []).(componentScores := map[FUSION := 1.0]);
      var expanded := Expanded([seed], 1, map["a" := [Link("RELATED", Identified("b", None, None))]], f, 0);
      AllWithin([seed], {"a"}) && expanded.Ok? && !AllWithin(expanded.value, {"a"})
  {
    var f := BuildHardFilter(Query(None, None, None, None, false, false, true));
    var seed := NewSnapshot(Identified("a", None, None), []).(componentScores := map[FUSION := 1.0]);
    var link := Link("RELATED", Identified("b", None, None));
    assert BaseScore(seed) == 1.0 && Admissible("a", link.neighbor, f, 0) && seed.memory.memoryId == "a";
    assert AllWithin([seed], {"a"});
    hide *;
    OneLinkLeaves(seed, link, f, 0);
  }

  /** Then the results are inside the scope too. */
  lemma ResultsStayWithin(s: Settings, w: World, q: Query, limit: nat, scope: set<string>)
    requires Found(s, w, q, limit).Ok? && AllWithin(FusedMatches(s, w, q), scope)
    requires s.graphExpansion ==>
      NoLinkLeaves(Deduplicated(FusedMatches(s, w, q)), w.links, scope, BuildHardFilter(q), w.now)
    ensures AllWithin(Found(s, w, q, limit).value, scope)
  {
    var fused := FusedMatches(s, w, q);
    var kept := Deduplicated(fused);
    hide FusedMatches, Deduplicated, Expanded, BuildHardFilter, NoLinkLeaves, FirstStage, SecondStage, Cut, NothingFiltered;
    if !NothingFiltered(w, q) && fused != [] {
      DeduplicatedWithin(fused, scope);
      if s.graphExpansion {
        CandidatesStayWithin(s, w, q, scope);
        DeduplicatedWithin(Expanded(kept, |kept|, w.links, BuildHardFilter(q), w.now).value, scope);
      }
      hide AllWithin;
      StagesWithin(s, w, Retrieved(s, w, q, fused).value, limit, scope);
    }
  }

  // ---------- scoring settles ----------

  /** Both hold the same candidates, as far as values of components go. */
  ghost predicate SameScores(a: seq<Snapshot>, b: seq<Snapshot>) {
    && (forall c :: c in a ==> exists d :: d in b && d.componentScores == c.componentScores)
    && (forall d :: d in b ==> exists c :: c in a && c.componentScores == d.componentScores)
  }

  lemma SameScoresSymmetric(a: seq<Snapshot>, b: seq<Snapshot>)
    requires SameScores(a, b)
    ensures SameScores(b, a)
  {
    forall d | d in b ensures exists c :: c in a && c.componentScores == d.componentScores {
    }
    forall c | c in a ensures exists d :: d in b && d.componentScores == c.componentScores {
    }
  }

  lemma {:induction false} ValuesComeFrom(cs: seq<Snapshot>, name: string, x: real)
    ensures x in ValuesOf(cs, name) <==> exists c :: c in cs && name in c.componentScores && c.componentScores[name] == x
  {
    if cs != [] {
      ValuesComeFrom(cs[..|cs| - 1], name, x);
      assert cs == cs[..|cs| - 1] + [cs[|cs| - 1]];
    }
  }

  lemma SameValues(a: seq<Snapshot>, b: seq<Snapshot>, name: string, x: real)
    requires SameScores(a, b) && x in ValuesOf(a, name)
    ensures x in ValuesOf(b, name)
  {
    ValuesComeFrom(a, name, x);
    ValuesComeFrom(b, name, x);
    hide ValuesOf;
    var c :| c in a && name in c.componentScores && c.componentScores[name] == x;
    var d :| d in b && d.componentScores == c.componentScores;
  }

  lemma {:induction false} ExtremesOccur(values: seq<real>)
    requires values != []
    ensures MinOf(values) in values && MaxOf(values) in values
  {
    if |values| > 1 {
      ExtremesOccur(values[..|values| - 1]);
    }
  }

  lemma SameExtremes(v: seq<real>, u: seq<real>)
    requires v != [] && u != [] && MinOf(v) in u && MaxOf(v) in u && MinOf(u) in v && MaxOf(u) in v
    ensures MinOf(v) == MinOf(u) && MaxOf(v) == MaxOf(u)
  {
    ExtremesBound(u, MinOf(v));
    ExtremesBound(u, MaxOf(v));
    ExtremesBound(v, MinOf(u));
    ExtremesBound(v, MaxOf(u));
  }

  lemma SameNormal(a: seq<Snapshot>, b: seq<Snapshot>, name: string, raw: real)
    requires SameScores(a, b) && SameScores(b, a) && ValuesOf(a, name) != []
    ensures ValuesOf(b, name) != [] && Normal(name, raw, ValuesOf(a, name)) == Normal(name, raw, ValuesOf(b, name))
  {
    var v, u := ValuesOf(a, name), ValuesOf(b, name);
    hide *;
    SameValues(a, b, name, v[0]);
    ExtremesOccur(v);
    ExtremesOccur(u);
    SameValues(a, b, name, MinOf(v));
    SameValues(a, b, name, MaxOf(v));
    SameValues(b, a, name, MinOf(u));
    SameValues(b, a, name, MaxOf(u));
    SameExtremes(v, u);
    NormalOfExtremes(name, raw, v, u);
  }

  lemma NormalOfExtremes(name: string, raw: real, v: seq<real>, u: seq<real>)
    requires v != [] && u != [] && MinOf(v) == MinOf(u) && MaxOf(v) == MaxOf(u)
    ensures Normal(name, raw, v) == Normal(name, raw, u)
  {
  }

  lemma NormalizedAt(cs: seq<Snapshot>, i: nat, n: string)
    requires i < |cs| && n in cs[i].componentScores
    ensures ValuesOf(cs, n) != [] && n in Normalized(cs)[i].normalizedScores
    ensures Normalized(cs)[i].normalizedScores[n] == Normal(n, cs[i].componentScores[n], ValuesOf(cs, n))
  {
    NamesHold(cs, i);
    ValuesHold(cs, i, n);
    hide ValuesOf, Normal, Names;
  }

  /** A candidate with the same component scores gets the same normalized ones. */
  lemma SameNormalized(a: seq<Snapshot>, i: nat, b: seq<Snapshot>, j: nat)
    requires SameScores(a, b) && i < |a| && j < |b| && a[i].componentScores == b[j].componentScores
    ensures Normalized(a)[i].normalizedScores == Normalized(b)[j].normalizedScores
  {
    hide *;
    SameScoresSymmetric(a, b);
    NormalizedInUnit(a, i);
    NormalizedInUnit(b, j);
    forall n | n in a[i].componentScores
      ensures Normalized(a)[i].normalizedScores[n] == Normalized(b)[j].normalizedScores[n]
    {
      NormalizedAt(a, i, n);
      NormalizedAt(b, j, n);
      SameNormal(a, b, n, a[i].componentScores[n]);
    }
  }

  /** What scoring leaves alone, and what it sets. */
  lemma ScoredAt(cs: seq<Snapshot>, ws: seq<Weight>, i: nat)
    requires i < |cs|
    ensures var normalized := Normalized(cs)[i].normalizedScores;
      ScoredAll(Normalized(cs), ws)[i] == cs[i].(normalizedScores := normalized, finalScore := FinalScore(normalized, ws))
  {
    hide NormalizedScores, Names, FinalScore;
  }

  /** The scores of the candidates are what scoring them gives. */
  ghost predicate Settled(s: Settings, cs: seq<Snapshot>) {
    && ScoredAll(Normalized(cs), Effective(s.weights, s.rerankerEnabled)) == cs
    && InFinalOrder(cs)
  }

  lemma PermutedSameScores(cs: seq<Snapshot>, scored: seq<Snapshot>, order: seq<nat>)
    requires |scored| == |cs| && (forall i :: 0 <= i < |cs| ==> scored[i].componentScores == cs[i].componentScores)
    requires IsPermutation(order, |cs|)
    ensures SameScores(cs, Pick(scored, order))
  {
    var r := Pick(scored, order);
    forall c | c in cs ensures exists d :: d in r && d.componentScores == c.componentScores {
      var i :| 0 <= i < |cs| && cs[i] == c;
      assert i in order;
      var j :| 0 <= j < |order| && order[j] == i;
      assert r[j] in r;
    }
    forall d | d in r ensures exists c :: c in cs && c.componentScores == d.componentScores {
      var j :| 0 <= j < |r| && r[j] == d;
      assert cs[order[j]] in cs;
    }
  }

  lemma ScoringSettles(s: Settings, cs: seq<Snapshot>)
    ensures Settled(s, Scored(s, cs))
  {
    var ws := Effective(s.weights, s.rerankerEnabled);
    var scored := ScoredAll(Normalized(cs), ws);
    var order, r := Order(ByFinal, RankKeys(scored)), Scored(s, cs);
    assert r == Ranked(ByFinal, scored);
    hide *;
    RankedInFinalOrder(scored);
    RankedIsPicked(ByFinal, scored);
    forall i | 0 <= i < |cs| ensures scored[i].componentScores == cs[i].componentScores {
      ScoredAt(cs, ws, i);
    }
    PermutedSameScores(cs, scored, order);
    PickedSettles(cs, ws, order);
    IsSettled(s, r);
  }

  lemma IsSettled(s: Settings, cs: seq<Snapshot>)
    requires ScoredAll(Normalized(cs), Effective(s.weights, s.rerankerEnabled)) == cs && InFinalOrder(cs)
    ensures Settled(s, cs)
  {
  }

  lemma PickedSettles(cs: seq<Snapshot>, ws: seq<Weight>, order: seq<nat>)
    requires IsPermutation(order, |cs|)
    requires SameScores(cs, Pick(ScoredAll(Normalized(cs), ws), order))
    ensures ScoredAll(Normalized(Pick(ScoredAll(Normalized(cs), ws), order)), ws) == Pick(ScoredAll(Normalized(cs), ws), order)
  {
    var r := Pick(ScoredAll(Normalized(cs), ws), order);
    var again := ScoredAll(Normalized(r), ws);
    hide ScoredAll, Normalized, SameScores, FinalScore;
    forall j | 0 <= j < |r| ensures again[j] == r[j] {
      ScoredAt(cs, ws, order[j]);
      ScoredAt(r, ws, j);
      SameNormalized(cs, order[j], r, j);
    }
  }

  /** A settled list stays as it is when it is scored and sorted again. */
  lemma SettledStays(s: Settings, cs: seq<Snapshot>)
    requires Settled(s, cs)
    ensures Scored(s, cs) == cs
  {
    var keys := RankKeys(cs);
    var d := Decorated(keys);
    assert forall i, j :: 0 <= i < j < |cs| ==> FinalLe(keys[i], keys[j]);
    assert Sorted(ByFinal, d);
    SortOfSorted(ByFinal, d);
    RankedIsPicked(ByFinal, cs);
    assert Order(ByFinal, keys) == Positions(d);
    hide Order, Ranked, ScoredAll, Normalized, Effective, FinalLe;
  }

  /** Marking the candidates does not disturb scoring. */
  lemma MarkedStaysSettled(s: Settings, cs: seq<Snapshot>)
    requires Settled(s, cs)
    ensures Settled(s, AllWithError(cs))
  {
    var marked := AllWithError(cs);
    var ws := Effective(s.weights, s.rerankerEnabled);
    var again := ScoredAll(Normalized(marked), ws);
    assert ScoredAll(Normalized(cs), ws) == cs && InFinalOrder(cs);
    hide *;
    MarkedKeepsOrder(cs);
    forall j | 0 <= j < |cs| ensures again[j] == marked[j] {
      MarkedScores(cs, ws, j);
    }
    assert again == marked;
    IsSettled(s, marked);
  }

  lemma MarkedScores(cs: seq<Snapshot>, ws: seq<Weight>, j: nat)
    requires j < |cs| && ScoredAll(Normalized(cs), ws) == cs
    ensures ScoredAll(Normalized(AllWithError(cs)), ws)[j] == AllWithError(cs)[j]
  {
    hide *;
    MarkedSameScores(cs);
    ScoredAt(AllWithError(cs), ws, j);
    ScoredAt(cs, ws, j);
    MarkedAt(cs, j);
    SameNormalized(cs, j, AllWithError(cs), j);
  }

  lemma MarkedAt(cs: seq<Snapshot>, i: nat)
    requires i < |cs|
    ensures AllWithError(cs)[i] == cs[i].(debug := cs[i].debug.(rerankFailed := true))
  {
  }

  lemma MarkedKeepsOrder(cs: seq<Snapshot>)
    requires InFinalOrder(cs)
    ensures InFinalOrder(AllWithError(cs))
  {
    hide FinalLe;
    assert RankKeys(AllWithError(cs)) == RankKeys(cs);
  }

  lemma MarkedSameScores(cs: seq<Snapshot>)
    ensures SameScores(cs, AllWithError(cs))
  {
    var marked := AllWithError(cs);
    assert forall i :: 0 <= i < |cs| ==> cs[i] in cs && marked[i] in marked && cs[i].componentScores == marked[i].componentScores;
  }

  /** The provider raises on the documents of the best candidates. */
  ghost predicate Raises(provider: Provider, cs: seq<Snapshot>, topN: nat) {
    provider(Texts(cs[..Bound(|cs|, Min(topN, |cs|))])).None?
  }

  /** A reranker that is off, missing, has nothing to rerank or raises leaves exactly the first-stage ranking; one
      that raises leaves its mark on the candidates. */
  lemma RerankFallback(s: Settings, w: World, cs: seq<Snapshot>)
    requires s.rerankerEnabled && w.provider.Some? && s.rerankTopN > 0 && cs != [] ==> Raises(w.provider.value, FirstStage(s, w, cs), s.rerankTopN)
    ensures var first := FirstStage(s, w, cs);
      SecondStage(s, w, first) == first || SecondStage(s, w, first) == AllWithError(first)
    ensures !s.rerankerEnabled || w.provider.None? || s.rerankTopN == 0 || cs == [] ==>
      SecondStage(s, w, FirstStage(s, w, cs)) == FirstStage(s, w, cs)
  {
    var enriched := EnrichedAll(cs, w.temporal);
    var first := Scored(s, enriched);
    hide Scored, Settled, EnrichedAll, Texts, AllWithError, WithScores;
    ScoringSettles(s, enriched);
    SettledStays(s, first);
    MarkedStaysSettled(s, first);
    SettledStays(s, AllWithError(first));
  }

  // ---------- the service ----------

  /** Score and sort, as `search` does twice. */
  method ScoreAndSort(cs: seq<RetrievalCandidate>, ghost all: set<RetrievalCandidate>, s: Settings)
    returns (sorted: seq<RetrievalCandidate>)
    requires Distinct(cs) && From(cs, all)
    modifies cs
    ensures Distinct(sorted) && From(sorted, all)
    ensures Snapshots(sorted) == Scored(s, old(Snapshots(cs)))
  {
    ghost var was := Snapshots(cs);
    ghost var scored := ScoredAll(Normalized(was), Effective(s.weights, s.rerankerEnabled));
    assert Scored(s, was) == Ranked(ByFinal, scored);
    hide *;
    NormalizeCandidateScores(cs);
    ScoreCandidates(cs, s.weights, s.rerankerEnabled);
    sorted := SortCandidates(ByFinal, cs);
    assert Snapshots(cs) == scored;
    PickIsDistinct(cs, Order(ByFinal, RankKeys(scored)));
    PickedFrom(cs, all, Order(ByFinal, RankKeys(scored)));
  }

  method Deduplicate(cs: seq<RetrievalCandidate>, ghost all: set<RetrievalCandidate>) returns (kept: seq<RetrievalCandidate>)
    requires Distinct(cs) && From(cs, all)
    modifies cs
    ensures Distinct(kept) && From(kept, all)
    ensures Snapshots(kept) == Deduplicated(old(Snapshots(cs)))
  {
    hide *;
    ghost var a := Assign(KeysOf(Snapshots(cs)));
    kept := DeduplicateCandidates(cs);
    OwnersAreDistinct(cs, all, a);
  }

  lemma OwnersAreDistinct(cs: seq<RetrievalCandidate>, all: set<RetrievalCandidate>, a: Assignment)
    requires Distinct(cs) && From(cs, all) && Shape(a, |cs|)
    ensures Distinct(Pick(cs, a.owners)) && From(Pick(cs, a.owners), all)
  {
    assert forall i, j :: 0 <= i < j < |a.owners| ==> a.owners[i] < a.owners[j] < |cs|;
  }

  method FilterAll(records: seq<Memory>, q: Query, now: int) returns (r: seq<Memory>)
    ensures r == FilterRecords(records, q, now)
  {
    r := [];
    for i := 0 to |records|
      invariant r == FilterRecords(records[..i], q, now)
    {
      assert records[..i + 1][..i] == records[..i];
      if MatchesHardFilters(records[i], BuildHardFilter(q), now) {
        r := r + [records[i]];
      }
    }
    assert records[..|records|] == records;
  }

  /** The candidates up to the second deduplication. */
  method Retrieve(s: Settings, w: World, q: Query, fused: seq<RetrievalCandidate>, ghost all: set<RetrievalCandidate>)
    returns (r: Result<seq<RetrievalCandidate>>, ghost more: set<RetrievalCandidate>)
    requires Distinct(fused) && From(fused, all)
    modifies all
    ensures match Retrieved(s, w, q, old(Snapshots(fused)))
      case Err(e) => r == Err(e)
      case Ok(values) => r.Ok? && Distinct(r.value) && From(r.value, more) && Snapshots(r.value) == values
    ensures all <= more && fresh(more - all)
  {
    more := all;
    hide Deduplicated, Expanded, Snapshots, Distinct;
    var kept := Deduplicate(fused, all);
    r := Ok(kept);
    if s.graphExpansion {
      r, more := ExpandOneHopCandidates(kept, all, BuildHardFilter(q), w.links, w.now);
      if r.Ok? {
        kept := Deduplicate(r.value, more);
        r := Ok(kept);
      }
    }
  }

  /** Score, rerank, score again and cut. */
  method RankAndCut(s: Settings, w: World, limit: nat, cs: seq<RetrievalCandidate>, ghost all: set<RetrievalCandidate>)
    returns (results: seq<RetrievalCandidate>)
    requires Distinct(cs) && From(cs, all)
    modifies all
    ensures Snapshots(results) == Cut(s, limit, SecondStage(s, w, FirstStage(s, w, old(Snapshots(cs)))))
  {
    ghost var was := Snapshots(cs);
    ghost var first := FirstStage(s, w, was);
    assert first == Scored(s, EnrichedAll(was, w.temporal));
    assert SecondStage(s, w, first) == Scored(s, Reranked(first, s.rerankerEnabled, Min(s.rerankTopN, |cs|), w.provider));
    hide Scored, Reranked, EnrichedAll, Snapshots, FirstStage, SecondStage, Distinct;
    EnrichCandidateScores(cs, w.temporal);
    var sorted := ScoreAndSort(cs, all, s);
    RerankCandidates(sorted, s.rerankerEnabled, Min(s.rerankTopN, |cs|), w.provider);
    sorted := ScoreAndSort(sorted, all, s);
    results := sorted[..Min(Min(limit, s.finalTopK), |sorted|)];
    PrefixSnapshots(sorted, |results|);
  }

  lemma PrefixSnapshots(cs: seq<RetrievalCandidate>, n: nat)
    requires n <= |cs|
    ensures Snapshots(cs[..n]) == Snapshots(cs)[..n]
  {
    AllSnapshots(cs);
    AllSnapshots(cs[..n]);
  }

  method Process(s: Settings, w: World, q: Query, limit: nat, fused: seq<RetrievalCandidate>,
                 ghost all: set<RetrievalCandidate>)
    returns (r: Result<seq<RetrievalCandidate>>)
    requires Distinct(fused) && From(fused, all)
    modifies all
    ensures match Answer(s, w, q, limit, old(Snapshots(fused)))
      case Err(e) => r == Err(e)
      case Ok(values) => r.Ok? && Snapshots(r.value) == values
  {
    hide Cut, SecondStage, FirstStage, Retrieved, Snapshots, Distinct;
    ghost var more;
    r, more := Retrieve(s, w, q, fused, all);
    if r.Ok? {
      var results := RankAndCut(s, w, limit, r.value, more);
      r := Ok(results);
    }
  }

  lemma AllFrom(cs: seq<RetrievalCandidate>)
    ensures From(cs, set c | c in cs)
  {
  }

  /** `RetrievalService.search` */
  method SearchMemories(s: Settings, w: World, q: Query, limit: nat) returns (r: Result<seq<RetrievalCandidate>>)
    ensures match Found(s, w, q, limit)
      case Err(e) => r == Err(e)
      case Ok(values) => r.Ok? && Snapshots(r.value) == values
  {
    hide FilterRecords, Fused, Answer, Distinct;
    var vectorRecords := FilterAll(w.vectorRecords, q, w.now);
    var fullTextRecords := FilterAll(w.fullTextRecords, q, w.now);
    if |vectorRecords| == 0 && |fullTextRecords| == 0 {
      return Ok([]);
    }
    var candidates := ReciprocalRankFuse(w.rankVector(vectorRecords), w.rankFullText(fullTextRecords), s.rrfK);
    assert Snapshots(candidates) == FusedMatches(s, w, q);
    if |candidates| == 0 {
      return Ok([]);
    }
    hide Snapshots, FusedMatches;
    AllFrom(candidates);
    r := Process(s, w, q, limit, candidates, set c | c in candidates);
  }
}
