/** Component scores, their normalization, and the weighted final score. */
module Normalization {
  import opened Common
  import opened Candidates

  const PRENORMALIZED := {"temporal", "importance", "confidence", "user_rating"}

  function Clamp(x: real): (r: real)
    ensures 0.0 <= r <= 1.0 && (0.0 <= x <= 1.0 ==> r == x)
  {
    if x < 0.0 then 0.0 else if x > 1.0 then 1.0 else x
  }

  /** `enrich_candidate_scores`; `temporal` gives the temporal score of a memory. */
  function Enriched(s: Snapshot, temporal: Memory -> real): (r: Snapshot)
    ensures r.memory == s.memory
  {
    var scores := s.componentScores["temporal" := temporal(s.memory)]
      ["importance" := Clamp(s.memory.importance)]["confidence" := Clamp(s.memory.confidence)];
    s.(componentScores :=
         if s.memory.userRating.None? then scores - {"user_rating"}
         else scores["user_rating" := Clamp(s.memory.userRating.value)])
  }

  // ---------- min-max normalization ----------

  /** The scores of that name, candidate by candidate. */
  function ValuesOf(cs: seq<Snapshot>, name: string): seq<real> {
    if cs == [] then []
    else
      var last := cs[|cs| - 1].componentScores;
      ValuesOf(cs[..|cs| - 1], name) + if name in last then [last[name]] else []
  }

  function MinOf(values: seq<real>): real
    requires values != []
  {
    var last := values[|values| - 1];
    if |values| == 1 then last
    else
      var m := MinOf(values[..|values| - 1]);
      if last < m then last else m
  }

  function MaxOf(values: seq<real>): real
    requires values != []
  {
    var last := values[|values| - 1];
    if |values| == 1 then last
    else
      var m := MaxOf(values[..|values| - 1]);
      if last > m then last else m
  }

  lemma {:induction false} ExtremesBound(values: seq<real>, x: real)
    requires x in values
    ensures MinOf(values) <= x <= MaxOf(values)
  {
    if |values| > 1 {
      var k := |values| - 1;
      assert values == values[..k] + [values[k]];
      if x in values[..k] {
        ExtremesBound(values[..k], x);
      } else {
        ExtremesBound(values[..k], values[0]);
      }
    }
  }

  function MinMax(raw: real, minimum: real, maximum: real): real {
    if maximum == minimum then if raw > 0.0 then 1.0 else 0.0
    else (raw - minimum) / (maximum - minimum)
  }

  /** The normalized form of a score, given all scores of its name. */
  function Normal(name: string, raw: real, values: seq<real>): (r: real)
    requires values != []
    ensures 0.0 <= r <= 1.0
  {
    if name in PRENORMALIZED then Clamp(raw)
    else Clamp(MinMax(raw, MinOf(values), MaxOf(values)))
  }

  lemma {:induction false} ValuesHold(cs: seq<Snapshot>, i: nat, name: string)
    requires i < |cs| && name in cs[i].componentScores
    ensures cs[i].componentScores[name] in ValuesOf(cs, name)
  {
    if i < |cs| - 1 {
      ValuesHold(cs[..|cs| - 1], i, name);
    }
  }

  /** Normalizing a component's range is exact: its clamp never acts. */
  lemma MinMaxInUnit(raw: real, values: seq<real>)
    requires raw in values
    ensures 0.0 <= MinMax(raw, MinOf(values), MaxOf(values)) <= 1.0
  {
    var lo, hi := MinOf(values), MaxOf(values);
    ExtremesBound(values, raw);
    if lo < hi {
      QuotientInUnit(raw - lo, hi - lo);
    }
  }

  lemma {:induction false} ExtremesAreMembers(values: seq<real>)
    requires values != []
    ensures MinOf(values) in values && MaxOf(values) in values
  {
    if |values| > 1 {
      ExtremesAreMembers(values[..|values| - 1]);
      assert values == values[..|values| - 1] + [values[|values| - 1]];
    }
  }

  /** Min-max normalization spreads the values evenly over [0, 1]: the smallest gets 0, the largest 1, and the distances
      keep their proportions. When all are equal, positive ones get 1 and others 0. */
  lemma MinMaxSpreads(a: real, b: real, values: seq<real>)
    requires a in values && b in values
    ensures var lo, hi := MinOf(values), MaxOf(values);
      lo in values && hi in values && lo <= a <= hi &&
      if lo == hi then MinMax(a, lo, hi) == if a > 0.0 then 1.0 else 0.0
      else
        && MinMax(lo, lo, hi) == 0.0 && MinMax(hi, lo, hi) == 1.0
        && (MinMax(b, lo, hi) - MinMax(a, lo, hi)) * (hi - lo) == b - a
        && (a < b ==> MinMax(a, lo, hi) < MinMax(b, lo, hi))
  {
    hide MinOf, MaxOf, MinMax;
    ExtremesAreMembers(values);
    ExtremesBound(values, a);
    Spread(a, b, MinOf(values), MaxOf(values));
  }

  lemma Spread(a: real, b: real, lo: real, hi: real)
    requires lo <= a <= hi
    ensures if lo == hi then MinMax(a, lo, hi) == if a > 0.0 then 1.0 else 0.0
      else
        && MinMax(lo, lo, hi) == 0.0 && MinMax(hi, lo, hi) == 1.0
        && (MinMax(b, lo, hi) - MinMax(a, lo, hi)) * (hi - lo) == b - a
        && (a < b ==> MinMax(a, lo, hi) < MinMax(b, lo, hi))
  {
    if lo < hi {
      SelfQuotient(hi - lo);
      DifferenceOfQuotients(a - lo, b - lo, hi - lo);
    }
  }

  lemma SelfQuotient(d: real)
    requires d > 0.0
    ensures d / d == 1.0 && 0.0 / d == 0.0
  {
  }

  lemma DifferenceOfQuotients(a: real, b: real, d: real)
    requires d > 0.0
    ensures (b / d - a / d) * d == b - a
    ensures a < b ==> a / d < b / d
  {
    assert (a / d) * d == a && (b / d) * d == b;
  }

  /** Of two candidates, the one with the larger raw score of a ranked component gets the larger normalized score. */
  lemma NormalizedKeepsOrder(cs: seq<Snapshot>, i: nat, j: nat, name: string)
    requires i < |cs| && j < |cs| && name in cs[i].componentScores && name in cs[j].componentScores
    ensures name in Normalized(cs)[i].normalizedScores && name in Normalized(cs)[j].normalizedScores
    ensures var a, b := cs[i].componentScores[name], cs[j].componentScores[name];
      var x, y := Normalized(cs)[i].normalizedScores[name], Normalized(cs)[j].normalizedScores[name];
      && (name !in PRENORMALIZED && a < b ==> x < y)
      && (name !in PRENORMALIZED && a == b ==> x == y)
      && (name in PRENORMALIZED ==> x == Clamp(a))
  {
    var values := ValuesOf(cs, name);
    var a, b := cs[i].componentScores[name], cs[j].componentScores[name];
    NamesHold(cs, i);
    NamesHold(cs, j);
    ValuesHold(cs, i, name);
    ValuesHold(cs, j, name);
    NormalIs(cs, i, name);
    NormalIs(cs, j, name);
    hide ValuesOf, MinOf, MaxOf, MinMax, Clamp, Normalized, Names;
    if name !in PRENORMALIZED {
      MinMaxInUnit(a, values);
      MinMaxInUnit(b, values);
      if a < b {
        ExtremesBound(values, a);
        ExtremesBound(values, b);
        MinMaxSpreads(a, b, values);
      }
    }
  }

  lemma NormalIs(cs: seq<Snapshot>, i: nat, name: string)
    requires i < |cs| && name in cs[i].componentScores && ValuesOf(cs, name) != []
    ensures name in Normalized(cs)[i].normalizedScores
    ensures Normalized(cs)[i].normalizedScores[name] == Normal(name, cs[i].componentScores[name], ValuesOf(cs, name))
  {
    NamesHold(cs, i);
    hide Normal, ValuesOf, Names;
  }

  /** What enrichment sets: the temporal score as given, importance and confidence within [0, 1], the user rating likewise
      or not at all; every other component stays. */
  lemma EnrichedScores(s: Snapshot, temporal: Memory -> real, name: string)
    ensures var m, before, after := s.memory, s.componentScores, Enriched(s, temporal).componentScores;
      if name == "temporal" then name in after && after[name] == temporal(m)
      else if name == "importance" then name in after && IsWithin(after[name], m.importance)
      else if name == "confidence" then name in after && IsWithin(after[name], m.confidence)
      else if name == "user_rating" then
        (name in after <==> m.userRating.Some?) && (m.userRating.Some? ==> IsWithin(after[name], m.userRating.value))
      else (name in after <==> name in before) && (name in before ==> after[name] == before[name])
  {
  }

  /** `x` is `raw`, or the bound of [0, 1] that `raw` exceeds. */
  predicate IsWithin(x: real, raw: real) {
    if raw < 0.0 then x == 0.0 else if raw > 1.0 then x == 1.0 else x == raw
  }

  lemma QuotientInUnit(a: real, b: real)
    requires 0.0 <= a <= b && b > 0.0
    ensures 0.0 <= a / b <= 1.0
  {
  }

  // ---------- the whole pass ----------

  /** The normalized scores of one candidate for the component names in `done`. */
  function NormalizedScores(cs: seq<Snapshot>, i: nat, done: set<string>): Scores
    requires i < |cs|
  {
    map n | n in cs[i].componentScores && n in done ::
      ValuesHold(cs, i, n);
      Normal(n, cs[i].componentScores[n], ValuesOf(cs, n))
  }

  ghost function NormalizedFor(cs: seq<Snapshot>, done: set<string>): (r: seq<Snapshot>)
    ensures |r| == |cs|
  {
    seq(|cs|, i requires 0 <= i < |cs| => cs[i].(normalizedScores := NormalizedScores(cs, i, done)))
  }

  function Names(cs: seq<Snapshot>): set<string> {
    if cs == [] then {} else Names(cs[..|cs| - 1]) + cs[|cs| - 1].componentScores.Keys
  }

  /** `normalize_candidate_scores` */
  ghost function Normalized(cs: seq<Snapshot>): (r: seq<Snapshot>)
    ensures |r| == |cs|
  {
    NormalizedFor(cs, Names(cs))
  }

  lemma {:induction false} NamesHold(cs: seq<Snapshot>, i: nat)
    requires i < |cs|
    ensures cs[i].componentScores.Keys <= Names(cs)
  {
    if i < |cs| - 1 {
      NamesHold(cs[..|cs| - 1], i);
    }
  }

  /** Each candidate gets a normalized score in [0, 1] for exactly its component scores. */
  lemma NormalizedInUnit(cs: seq<Snapshot>, i: nat)
    requires i < |cs|
    ensures Normalized(cs)[i].normalizedScores.Keys == cs[i].componentScores.Keys
    ensures forall n :: n in Normalized(cs)[i].normalizedScores ==> 0.0 <= Normalized(cs)[i].normalizedScores[n] <= 1.0
  {
    NamesHold(cs, i);
    hide Names;
  }

  // ---------- scaling one component ----------

  /** A product as a term of its own. */
  function Product(c: real, x: real): real {
    c * x
  }

  function ScaleScores(scores: Scores, name: string, c: real): Scores {
    if name in scores then scores[name := Product(c, scores[name])] else scores
  }

  /** All candidates with one component multiplied by `c`. */
  function Scaled(cs: seq<Snapshot>, name: string, c: real): (r: seq<Snapshot>)
    ensures |r| == |cs|
  {
    seq(|cs|, i requires 0 <= i < |cs| => cs[i].(componentScores := ScaleScores(cs[i].componentScores, name, c)))
  }

  function Times(values: seq<real>, c: real): (r: seq<real>)
    ensures |r| == |values|
  {
    if values == [] then [] else Times(values[..|values| - 1], c) + [Product(c, values[|values| - 1])]
  }

  lemma TimesSnoc(values: seq<real>, x: real, c: real)
    ensures Times(values + [x], c) == Times(values, c) + [Product(c, x)]
  {
    assert (values + [x])[..|values|] == values;
  }

  lemma {:induction false} ScaledValues(cs: seq<Snapshot>, name: string, c: real, n: string)
    ensures ValuesOf(Scaled(cs, name, c), n) == if n == name then Times(ValuesOf(cs, n), c) else ValuesOf(cs, n)
  {
    if cs != [] {
      var k := |cs| - 1;
      ScaledValues(cs[..k], name, c, n);
      assert Scaled(cs, name, c)[..k] == Scaled(cs[..k], name, c);
      assert Scaled(cs, name, c)[k].componentScores == ScaleScores(cs[k].componentScores, name, c);
      var last, now := cs[k].componentScores, Scaled(cs, name, c)[k].componentScores;
      hide Scaled, Times, Product;
      assert ValuesOf(Scaled(cs, name, c), n) == ValuesOf(Scaled(cs[..k], name, c), n) + if n in now then [now[n]] else [];
      if n in last {
        TimesSnoc(ValuesOf(cs[..k], n), last[n], c);
      } else {
        assert ValuesOf(cs, n) == ValuesOf(cs[..k], n);
      }
    }
  }

  lemma {:induction false} ScaledExtremes(values: seq<real>, c: real)
    requires values != [] && c > 0.0
    ensures MinOf(Times(values, c)) == Product(c, MinOf(values))
    ensures MaxOf(Times(values, c)) == Product(c, MaxOf(values))
  {
    var k := |values| - 1;
    var init, last := values[..k], values[k];
    assert Times(values, c) == Times(init, c) + [Product(c, last)];
    if k > 0 {
      assert Times(values, c)[..k] == Times(init, c);
      ScaledExtremes(init, c);
      var lo, hi := MinOf(init), MaxOf(init);
      assert MinOf(Times(values, c)) == if Product(c, last) < Product(c, lo) then Product(c, last) else Product(c, lo);
      assert MaxOf(Times(values, c)) == if Product(c, last) > Product(c, hi) then Product(c, last) else Product(c, hi);
      assert MinOf(values) == if last < lo then last else lo;
      assert MaxOf(values) == if last > hi then last else hi;
      hide MinOf, MaxOf, Times, Product;
      TimesOrder(c, last, lo);
      TimesOrder(c, hi, last);
    }
  }

  lemma TimesOrder(c: real, a: real, b: real)
    requires c > 0.0
    ensures Product(c, a) < Product(c, b) <==> a < b
  {
  }

  lemma ScaledMinMax(raw: real, lo: real, hi: real, c: real)
    requires lo <= hi && c > 0.0
    ensures MinMax(Product(c, raw), Product(c, lo), Product(c, hi)) == MinMax(raw, lo, hi)
  {
    TimesOrder(c, lo, hi);
    TimesOrder(c, 0.0, raw);
    if lo < hi {
      assert c * raw - c * lo == c * (raw - lo) && c * hi - c * lo == c * (hi - lo);
      QuotientCancels(c, raw - lo, hi - lo);
    }
  }

  lemma QuotientCancels(c: real, a: real, b: real)
    requires c > 0.0 && b > 0.0
    ensures c * b > 0.0 && (c * a) / (c * b) == a / b
  {
    assert (a / b) * (c * b) == c * a;
  }

  /** Multiplying one min-max component of all candidates by a positive number changes no normalized score. */
  lemma ScalingKeepsNormalized(cs: seq<Snapshot>, name: string, c: real, i: nat)
    requires name !in PRENORMALIZED && c > 0.0 && i < |cs|
    ensures Normalized(Scaled(cs, name, c))[i].normalizedScores == Normalized(cs)[i].normalizedScores
  {
    var after := Scaled(cs, name, c);
    NamesHold(cs, i);
    NamesHold(after, i);
    forall n | n in cs[i].componentScores
      ensures n in after[i].componentScores
      ensures ValuesOf(cs, n) != [] && ValuesOf(after, n) != []
      ensures Normal(n, after[i].componentScores[n], ValuesOf(after, n)) == Normal(n, cs[i].componentScores[n], ValuesOf(cs, n))
    {
      ScalingKeepsNormal(cs, name, c, i, n);
    }
    hide Normal, ValuesOf, Names;
  }

  lemma ScalingKeepsNormal(cs: seq<Snapshot>, name: string, c: real, i: nat, n: string)
    requires name !in PRENORMALIZED && c > 0.0 && i < |cs| && n in cs[i].componentScores
    ensures n in Scaled(cs, name, c)[i].componentScores
    ensures ValuesOf(cs, n) != [] && ValuesOf(Scaled(cs, name, c), n) != []
    ensures Normal(n, Scaled(cs, name, c)[i].componentScores[n], ValuesOf(Scaled(cs, name, c), n))
         == Normal(n, cs[i].componentScores[n], ValuesOf(cs, n))
  {
    var values, raw := ValuesOf(cs, n), cs[i].componentScores[n];
    ValuesHold(cs, i, n);
    ScaledValues(cs, name, c, n);
    assert Scaled(cs, name, c)[i].componentScores == ScaleScores(cs[i].componentScores, name, c);
    hide ValuesOf, Scaled, MinOf, MaxOf, MinMax, Clamp, Product, Normal;
    if n == name {
      ScaledNormal(n, raw, values, c);
    }
  }

  lemma ScaledNormal(name: string, raw: real, values: seq<real>, c: real)
    requires name !in PRENORMALIZED && c > 0.0 && raw in values
    ensures Times(values, c) != [] && Normal(name, Product(c, raw), Times(values, c)) == Normal(name, raw, values)
  {
    hide MinOf, MaxOf, MinMax, Clamp, Times, Product;
    ExtremesBound(values, raw);
    ScaledExtremes(values, c);
    ScaledMinMax(raw, MinOf(values), MaxOf(values), c);
  }

  // ---------- the loops ----------

  lemma NormalizedStep(cs: seq<Snapshot>, i: nat, done: set<string>, name: string)
    requires i < |cs|
    ensures if name in cs[i].componentScores
      then ValuesOf(cs, name) != []
        && NormalizedScores(cs, i, done + {name})
        == NormalizedScores(cs, i, done)[name := Normal(name, cs[i].componentScores[name], ValuesOf(cs, name))]
      else NormalizedScores(cs, i, done + {name}) == NormalizedScores(cs, i, done)
  {
    if name in cs[i].componentScores {
      ValuesHold(cs, i, name);
    }
    hide Normal, ValuesOf;
  }

  method CollectValues(cs: seq<RetrievalCandidate>, ghost was: seq<Snapshot>, name: string) returns (values: seq<real>)
    requires |was| == |cs| && forall i :: 0 <= i < |cs| ==> cs[i].componentScores == was[i].componentScores
    ensures values == ValuesOf(was, name)
  {
    values := [];
    for i := 0 to |cs|
      invariant values == ValuesOf(was[..i], name)
    {
      assert was[..i + 1][..i] == was[..i];
      if name in cs[i].componentScores {
        values := values + [cs[i].componentScores[name]];
      }
    }
    assert was[..|cs|] == was;
  }

  /** One component of one candidate. */
  ghost function WithNormal(s: Snapshot, name: string, values: seq<real>): (r: Snapshot)
    requires name in s.componentScores ==> values != []
  {
    if name !in s.componentScores then s
    else s.(normalizedScores := s.normalizedScores[name := Normal(name, s.componentScores[name], values)])
  }

  method NormalizeOne(c: RetrievalCandidate, name: string, values: seq<real>)
    requires name in c.componentScores ==> values != []
    modifies c
    ensures c.Value() == WithNormal(old(c.Value()), name, values)
  {
    if name in c.componentScores {
      var raw := c.componentScores[name];
      var normal := if name in PRENORMALIZED then Clamp(raw) else Clamp(MinMax(raw, MinOf(values), MaxOf(values)));
      c.normalizedScores := c.normalizedScores[name := normal];
    }
  }

  lemma NormalizedForStep(cs: seq<Snapshot>, done: set<string>, name: string)
    ensures forall i :: 0 <= i < |cs| ==>
      (name in NormalizedFor(cs, done)[i].componentScores ==> ValuesOf(cs, name) != []) &&
      NormalizedFor(cs, done + {name})[i] == WithNormal(NormalizedFor(cs, done)[i], name, ValuesOf(cs, name))
  {
    forall i | 0 <= i < |cs|
      ensures name in NormalizedFor(cs, done)[i].componentScores ==> ValuesOf(cs, name) != []
      ensures NormalizedFor(cs, done + {name})[i] == WithNormal(NormalizedFor(cs, done)[i], name, ValuesOf(cs, name))
    {
      NormalizedStep(cs, i, done, name);
      hide NormalizedScores, Normal, ValuesOf;
    }
  }

  lemma NormalizedForScores(cs: seq<RetrievalCandidate>, was: seq<Snapshot>, done: set<string>)
    requires |was| == |cs| && Snapshots(cs) == NormalizedFor(was, done)
    ensures forall i :: 0 <= i < |cs| ==> cs[i].componentScores == was[i].componentScores
  {
    AllSnapshots(cs);
    hide NormalizedScores, Snapshots;
  }

  /** One round of the loop over component names. */
  method NormalizeComponent(cs: seq<RetrievalCandidate>, name: string, ghost was: seq<Snapshot>, ghost done: set<string>)
    requires Distinct(cs) && |was| == |cs| && Snapshots(cs) == NormalizedFor(was, done)
    modifies cs
    ensures Snapshots(cs) == NormalizedFor(was, done + {name})
  {
    hide NormalizedFor, ValuesOf, Snapshots, WithNormal;
    NormalizedForScores(cs, was, done);
    var values := CollectValues(cs, was, name);
    ghost var before, now := NormalizedFor(was, done), NormalizedFor(was, done + {name});
    NoneDone(cs, now);
    NormalizedForStep(was, done, name);
    hide *;
    for i := 0 to |cs|
      invariant Halfway(cs, now, before, i)
    {
      OneTurn(cs, now, before, i);
      NormalizeOne(cs[i], name, values);
      OneDone(cs, now, before, i);
    }
    AllDone(cs, now, before);
  }

  method CollectNames(cs: seq<RetrievalCandidate>) returns (names: set<string>)
    ensures names == Names(Snapshots(cs))
  {
    names := {};
    ghost var was := Snapshots(cs);
    for i := 0 to |cs|
      invariant names == Names(was[..i])
    {
      SnapshotsAt(cs, i);
      assert was[..i + 1][..i] == was[..i];
      names := names + cs[i].componentScores.Keys;
    }
    assert was[..|cs|] == was;
  }

  method ForgetOne(c: RetrievalCandidate)
    modifies c
    ensures c.Value() == old(c.Value()).(normalizedScores := map[])
  {
    c.normalizedScores := map[];
  }

  method ForgetNormalized(cs: seq<RetrievalCandidate>)
    requires Distinct(cs)
    modifies cs
    ensures Snapshots(cs) == NormalizedFor(old(Snapshots(cs)), {})
  {
    ghost var was := Snapshots(cs);
    ghost var now := NormalizedFor(was, {});
    NoneDone(cs, now);
    forall i | 0 <= i < |was| ensures now[i] == was[i].(normalizedScores := map[]) {
      assert NormalizedScores(was, i, {}) == map[];
    }
    hide *;
    for i := 0 to |cs|
      invariant Halfway(cs, now, was, i)
    {
      OneTurn(cs, now, was, i);
      ForgetOne(cs[i]);
      OneDone(cs, now, was, i);
    }
    AllDone(cs, now, was);
  }

  /** `normalize_candidate_scores` */
  method NormalizeCandidateScores(cs: seq<RetrievalCandidate>)
    requires Distinct(cs)
    modifies cs
    ensures Snapshots(cs) == Normalized(old(Snapshots(cs)))
  {
    ghost var was := Snapshots(cs);
    ghost var done: set<string> := {};
    var names := CollectNames(cs);
    assert Normalized(was) == NormalizedFor(was, names);
    hide *;
    ForgetNormalized(cs);
    var rest := names;
    while rest != {}
      invariant rest <= names && done == names - rest
      invariant Snapshots(cs) == NormalizedFor(was, done)
      decreases rest
    {
      var name :| name in rest;
      rest := rest - {name};
      NormalizeComponent(cs, name, was, done);
      done := done + {name};
    }
    assert done == names;
  }

  ghost function EnrichedAll(cs: seq<Snapshot>, temporal: Memory -> real): (r: seq<Snapshot>)
    ensures |r| == |cs|
  {
    seq(|cs|, i requires 0 <= i < |cs| => Enriched(cs[i], temporal))
  }

  method EnrichOne(c: RetrievalCandidate, temporal: Memory -> real)
    modifies c
    ensures c.Value() == Enriched(old(c.Value()), temporal)
  {
    var memory := c.memory;
    var scores := c.componentScores["temporal" := temporal(memory)];
    scores := scores["importance" := Clamp(memory.importance)];
    scores := scores["confidence" := Clamp(memory.confidence)];
    match memory.userRating
    case None => c.componentScores := scores - {"user_rating"};
    case Some(rating) => c.componentScores := scores["user_rating" := Clamp(rating)];
  }

  method EnrichCandidateScores(cs: seq<RetrievalCandidate>, temporal: Memory -> real)
    requires Distinct(cs)
    modifies cs
    ensures Snapshots(cs) == EnrichedAll(old(Snapshots(cs)), temporal)
  {
    ghost var was := Snapshots(cs);
    ghost var now := EnrichedAll(was, temporal);
    NoneDone(cs, now);
    assert forall i :: 0 <= i < |was| ==> now[i] == Enriched(was[i], temporal);
    hide *;
    for i := 0 to |cs|
      invariant Halfway(cs, now, was, i)
    {
      OneTurn(cs, now, was, i);
      EnrichOne(cs[i], temporal);
      OneDone(cs, now, was, i);
    }
    AllDone(cs, now, was);
  }
}
