/** Weights, their redistribution, and the weighted final score. */
module Weighting {
  import opened Common
  import opened Candidates
  import opened Normalization

  /** One entry of the weight mapping, in the mapping's order. */
  datatype Weight = Weight(name: string, value: real)

  const OPTIONAL := {"user_rating"}

  // ---------- effective weights ----------

  function Positive(x: real): (r: real)
    ensures r >= 0.0
  {
    RealMax(0.0, x)
  }

  function AllPositive(ws: seq<Weight>): (r: seq<Weight>)
    ensures |r| == |ws|
  {
    if ws == [] then []
    else AllPositive(ws[..|ws| - 1]) + [ws[|ws| - 1].(value := Positive(ws[|ws| - 1].value))]
  }

  function Place(ws: seq<Weight>, name: string): (r: Option<nat>)
    ensures r.Some? ==> r.value < |ws| && ws[r.value].name == name
  {
    if ws == [] then None
    else if ws[|ws| - 1].name == name then Some(|ws| - 1)
    else Place(ws[..|ws| - 1], name)
  }

  function WeightOf(ws: seq<Weight>, name: string): real {
    match Place(ws, name)
    case Some(i) => ws[i].value
    case None => 0.0
  }

  /** `effective[name] = effective.get(name, 0.0) + amount` */
  function AddWeight(ws: seq<Weight>, name: string, amount: real): seq<Weight> {
    match Place(ws, name)
    case Some(i) => ws[i := Weight(name, ws[i].value + amount)]
    case None => ws + [Weight(name, amount)]
  }

  function Portion(reranker: real, base: real): real {
    Product(reranker, base / (0.25 + 0.12 + 0.08))
  }

  /** The reranker's weight goes to the first-stage components. */
  function Redistributed(ws: seq<Weight>, reranker: real): seq<Weight> {
    AddWeight(AddWeight(AddWeight(ws, "retrieval_fusion", Portion(reranker, 0.25)), "vector", Portion(reranker, 0.12)),
              "full_text", Portion(reranker, 0.08))
  }

  /** `_effective_weights` */
  function Effective(weights: seq<Weight>, rerankerEnabled: bool): seq<Weight> {
    var effective := AllPositive(weights);
    match Place(effective, "reranker")
    case None => effective
    case Some(i) =>
      if rerankerEnabled || effective[i].value <= 0.0 then effective
      else Redistributed(effective[i := Weight("reranker", 0.0)], effective[i].value)
  }

  /** The sum of the weights that count. */
  function Total(ws: seq<Weight>): real {
    if ws == [] then 0.0 else Total(ws[..|ws| - 1]) + Positive(ws[|ws| - 1].value)
  }

  lemma {:induction false} TotalOfUpdate(ws: seq<Weight>, i: nat, w: Weight)
    requires i < |ws|
    ensures Total(ws[i := w]) == Total(ws) - Positive(ws[i].value) + Positive(w.value)
  {
    var k := |ws| - 1;
    if i < k {
      TotalOfUpdate(ws[..k], i, w);
      assert ws[i := w][..k] == ws[..k][i := w];
    } else {
      assert ws[i := w][..k] == ws[..k];
    }
  }

  ghost predicate NoneNegative(ws: seq<Weight>) {
    forall w :: w in ws ==> w.value >= 0.0
  }

  lemma AddWeightAdds(ws: seq<Weight>, name: string, amount: real)
    requires NoneNegative(ws) && amount >= 0.0
    ensures NoneNegative(AddWeight(ws, name, amount))
    ensures Total(AddWeight(ws, name, amount)) == Total(ws) + amount
  {
    match Place(ws, name)
    case Some(i) =>
      assert ws[i] in ws;
      TotalOfUpdate(ws, i, Weight(name, ws[i].value + amount));
    case None =>
      assert (ws + [Weight(name, amount)])[..|ws|] == ws;
  }

  lemma {:induction false} AllPositiveKeepsTotal(ws: seq<Weight>)
    ensures NoneNegative(AllPositive(ws)) && Total(AllPositive(ws)) == Total(ws)
  {
    if ws != [] {
      AllPositiveKeepsTotal(ws[..|ws| - 1]);
      assert AllPositive(ws)[..|ws| - 1] == AllPositive(ws[..|ws| - 1]);
    }
  }

  lemma SharesAddUp(reranker: real)
    ensures Portion(reranker, 0.25) + Portion(reranker, 0.12) + Portion(reranker, 0.08) == reranker
    ensures reranker >= 0.0 ==> Portion(reranker, 0.25) >= 0.0 && Portion(reranker, 0.12) >= 0.0 && Portion(reranker, 0.08) >= 0.0
  {
    assert 0.25 / (0.25 + 0.12 + 0.08) == 25.0 / 45.0 && 0.12 / (0.25 + 0.12 + 0.08) == 12.0 / 45.0
        && 0.08 / (0.25 + 0.12 + 0.08) == 8.0 / 45.0;
    assert reranker * (25.0 / 45.0) + reranker * (12.0 / 45.0) + reranker * (8.0 / 45.0) == reranker;
  }

  /** Whatever happens to the reranker's weight, the total weight stays. */
  lemma RedistributionConserves(weights: seq<Weight>, rerankerEnabled: bool)
    ensures NoneNegative(Effective(weights, rerankerEnabled))
    ensures Total(Effective(weights, rerankerEnabled)) == Total(weights)
    ensures !rerankerEnabled ==> WeightOf(Effective(weights, rerankerEnabled), "reranker") <= 0.0
  {
    var effective := AllPositive(weights);
    AllPositiveKeepsTotal(weights);
    match Place(effective, "reranker")
    case None =>
    case Some(i) =>
      var r := effective[i].value;
      if !rerankerEnabled && r > 0.0 {
        var zeroed := effective[i := Weight("reranker", 0.0)];
        TotalOfUpdate(effective, i, Weight("reranker", 0.0));
        SharesAddUp(r);
        assert NoneNegative(zeroed);
        PlaceStays(effective, i, Weight("reranker", 0.0), "reranker");
        RedistributedTotals(zeroed, r);
      }
  }

  lemma RedistributedTotals(ws: seq<Weight>, r: real)
    requires NoneNegative(ws) && r >= 0.0 && WeightOf(ws, "reranker") == 0.0
    ensures NoneNegative(Redistributed(ws, r)) && Total(Redistributed(ws, r)) == Total(ws) + r
    ensures WeightOf(Redistributed(ws, r), "reranker") == 0.0
  {
    SharesAddUp(r);
    var a := AddWeight(ws, "retrieval_fusion", Portion(r, 0.25));
    var b := AddWeight(a, "vector", Portion(r, 0.12));
    hide Portion, Total, WeightOf, AddWeight;
    AddWeightAdds(ws, "retrieval_fusion", Portion(r, 0.25));
    AddWeightAdds(a, "vector", Portion(r, 0.12));
    AddWeightAdds(b, "full_text", Portion(r, 0.08));
    AddWeightElsewhere(ws, "retrieval_fusion", Portion(r, 0.25), "reranker");
    AddWeightElsewhere(a, "vector", Portion(r, 0.12), "reranker");
    AddWeightElsewhere(b, "full_text", Portion(r, 0.08), "reranker");
  }

  lemma {:induction false} PlaceStays(ws: seq<Weight>, i: nat, w: Weight, name: string)
    requires i < |ws| && w.name == ws[i].name
    ensures Place(ws[i := w], name) == Place(ws, name)
  {
    var k := |ws| - 1;
    if i < k {
      PlaceStays(ws[..k], i, w, name);
      assert ws[i := w][..k] == ws[..k][i := w];
    } else {
      assert ws[i := w][..k] == ws[..k];
    }
  }

  lemma AddWeightElsewhere(ws: seq<Weight>, name: string, amount: real, other: string)
    requires name != other
    ensures WeightOf(AddWeight(ws, name, amount), other) == WeightOf(ws, other)
  {
    match Place(ws, name)
    case Some(i) => PlaceStays(ws, i, Weight(name, ws[i].value + amount), other);
    case None => assert (ws + [Weight(name, amount)])[..|ws|] == ws;
  }

  // ---------- what each component's weight becomes ----------

  lemma {:induction false} PositiveWeightOf(ws: seq<Weight>, name: string)
    ensures WeightOf(AllPositive(ws), name) == Positive(WeightOf(ws, name))
    ensures Place(AllPositive(ws), name) == Place(ws, name)
  {
    if ws != [] {
      var n := |ws| - 1;
      PositiveWeightOf(ws[..n], name);
      assert AllPositive(ws)[..n] == AllPositive(ws[..n]);
    }
  }

  lemma AddWeightTo(ws: seq<Weight>, name: string, amount: real)
    ensures WeightOf(AddWeight(ws, name, amount), name) == WeightOf(ws, name) + amount
  {
    match Place(ws, name)
    case Some(i) => PlaceStays(ws, i, Weight(name, ws[i].value + amount), name);
    case None => assert (ws + [Weight(name, amount)])[..|ws|] == ws;
  }

  lemma WeightAfterUpdate(ws: seq<Weight>, i: nat, w: Weight, name: string)
    requires Place(ws, w.name) == Some(i)
    ensures WeightOf(ws[i := w], name) == if name == w.name then w.value else WeightOf(ws, name)
  {
    PlaceStays(ws, i, w, name);
  }

  /** The part of a disabled reranker's weight that a first-stage component gets. */
  function PartOfReranker(reranker: real, name: string): real {
    if name == "retrieval_fusion" then reranker * 25.0 / 45.0
    else if name == "vector" then reranker * 12.0 / 45.0
    else if name == "full_text" then reranker * 8.0 / 45.0
    else 0.0
  }

  lemma PortionIsShare(reranker: real)
    ensures Portion(reranker, 0.25) == PartOfReranker(reranker, "retrieval_fusion")
    ensures Portion(reranker, 0.12) == PartOfReranker(reranker, "vector")
    ensures Portion(reranker, 0.08) == PartOfReranker(reranker, "full_text")
  {
    assert 0.25 / (0.25 + 0.12 + 0.08) == 25.0 / 45.0 && 0.12 / (0.25 + 0.12 + 0.08) == 12.0 / 45.0
        && 0.08 / (0.25 + 0.12 + 0.08) == 8.0 / 45.0;
    assert reranker * (25.0 / 45.0) == reranker * 25.0 / 45.0;
    assert reranker * (12.0 / 45.0) == reranker * 12.0 / 45.0;
    assert reranker * (8.0 / 45.0) == reranker * 8.0 / 45.0;
  }

  lemma RedistributedWeights(ws: seq<Weight>, reranker: real, name: string)
    ensures WeightOf(Redistributed(ws, reranker), name) == WeightOf(ws, name) + PartOfReranker(reranker, name)
  {
    var a := AddWeight(ws, "retrieval_fusion", Portion(reranker, 0.25));
    var b := AddWeight(a, "vector", Portion(reranker, 0.12));
    PortionIsShare(reranker);
    hide Portion, AddWeight, WeightOf;
    if name == "retrieval_fusion" {
      AddWeightTo(ws, name, Portion(reranker, 0.25));
    } else {
      AddWeightElsewhere(ws, "retrieval_fusion", Portion(reranker, 0.25), name);
    }
    if name == "vector" {
      AddWeightTo(a, name, Portion(reranker, 0.12));
    } else {
      AddWeightElsewhere(a, "vector", Portion(reranker, 0.12), name);
    }
    if name == "full_text" {
      AddWeightTo(b, name, Portion(reranker, 0.08));
    } else {
      AddWeightElsewhere(b, "full_text", Portion(reranker, 0.08), name);
    }
  }

  /** An enabled reranker leaves every weight its positive part. A disabled one gives its own away: 25, 12 and 8 parts of
      45 go to fusion, vector and full text. */
  lemma EffectiveWeights(weights: seq<Weight>, rerankerEnabled: bool, name: string)
    ensures WeightOf(Effective(weights, rerankerEnabled), name) ==
      if rerankerEnabled then Positive(WeightOf(weights, name))
      else if name == "reranker" then 0.0
      else Positive(WeightOf(weights, name)) + PartOfReranker(Positive(WeightOf(weights, "reranker")), name)
  {
    var effective := AllPositive(weights);
    PositiveWeightOf(weights, name);
    PositiveWeightOf(weights, "reranker");
    hide AllPositive, Redistributed;
    match Place(effective, "reranker")
    case None =>
    case Some(i) =>
      var zeroed := effective[i := Weight("reranker", 0.0)];
      WeightAfterUpdate(effective, i, Weight("reranker", 0.0), name);
      RedistributedWeights(zeroed, effective[i].value, name);
  }

  // ---------- the final score ----------

  /** A component that a candidate lacks counts as 0, an optional one not at all. */
  predicate Counts(scores: Scores, w: Weight) {
    w.value > 0.0 && (w.name in scores || w.name !in OPTIONAL)
  }

  function Numerator(scores: Scores, ws: seq<Weight>): real {
    if ws == [] then 0.0
    else
      var w := ws[|ws| - 1];
      Numerator(scores, ws[..|ws| - 1]) + if Counts(scores, w) then Product(w.value, Get(scores, w.name)) else 0.0
  }

  function Denominator(scores: Scores, ws: seq<Weight>): (r: real)
    ensures r >= 0.0
  {
    if ws == [] then 0.0
    else
      var w := ws[|ws| - 1];
      Denominator(scores, ws[..|ws| - 1]) + if Counts(scores, w) then w.value else 0.0
  }

  function FinalScore(scores: Scores, ws: seq<Weight>): (r: real)
    ensures 0.0 <= r <= 1.0
  {
    if Denominator(scores, ws) > 0.0 then Clamp(Numerator(scores, ws) / Denominator(scores, ws)) else 0.0
  }

  /** Every component that counts lies between `lo` and `hi`. */
  ghost predicate Between(scores: Scores, ws: seq<Weight>, lo: real, hi: real) {
    forall w :: w in ws && Counts(scores, w) ==> lo <= Get(scores, w.name) <= hi
  }

  lemma ProductOrder(c: real, a: real, b: real)
    requires c >= 0.0 && a <= b
    ensures Product(c, a) <= Product(c, b)
  {
  }

  lemma ProductSum(c: real, a: real, b: real)
    ensures Product(c, a + b) == Product(c, a) + Product(c, b)
    ensures Product(a + b, c) == Product(a, c) + Product(b, c)
    ensures Product(a, b) == Product(b, a)
  {
  }

  lemma {:induction false} SumsBetween(scores: Scores, ws: seq<Weight>, lo: real, hi: real)
    requires Between(scores, ws, lo, hi)
    ensures Product(lo, Denominator(scores, ws)) <= Numerator(scores, ws) <= Product(hi, Denominator(scores, ws))
  {
    if ws == [] {
      assert Product(lo, 0.0) == 0.0 && Product(hi, 0.0) == 0.0;
    } else {
      var k := |ws| - 1;
      var w := ws[k];
      assert forall v :: v in ws[..k] ==> v in ws;
      SumsBetween(scores, ws[..k], lo, hi);
      if Counts(scores, w) {
        assert w in ws;
        ProductOrder(w.value, lo, Get(scores, w.name));
        ProductOrder(w.value, Get(scores, w.name), hi);
        ProductSum(lo, Denominator(scores, ws[..k]), w.value);
        ProductSum(hi, Denominator(scores, ws[..k]), w.value);
        ProductSum(0.0, lo, w.value);
        ProductSum(0.0, hi, w.value);
      }
      hide Product, Between, Counts, Get;
    }
  }

  lemma QuotientBetween(a: real, b: real, lo: real, hi: real)
    requires b > 0.0 && Product(lo, b) <= a <= Product(hi, b)
    ensures lo <= a / b <= hi
  {
    assert (a / b) * b == a;
  }

  /** The final score is a weighted mean: it lies between any bounds of the components that count, and for
      normalized components its clamp never acts. */
  lemma FinalScoreIsMean(scores: Scores, ws: seq<Weight>, lo: real, hi: real)
    requires 0.0 <= lo <= hi <= 1.0 && Between(scores, ws, lo, hi) && Denominator(scores, ws) > 0.0
    ensures FinalScore(scores, ws) == Numerator(scores, ws) / Denominator(scores, ws)
    ensures lo <= FinalScore(scores, ws) <= hi
  {
    SumsBetween(scores, ws, lo, hi);
    hide Numerator, Denominator, Product;
    QuotientBetween(Numerator(scores, ws), Denominator(scores, ws), lo, hi);
  }

  // ---------- monotony ----------

  ghost predicate AtMost(a: Scores, b: Scores) {
    a.Keys == b.Keys && forall n :: n in a ==> a[n] <= b[n]
  }

  lemma {:induction false} SumsMonotone(a: Scores, b: Scores, ws: seq<Weight>)
    requires AtMost(a, b)
    ensures Numerator(a, ws) <= Numerator(b, ws) && Denominator(a, ws) == Denominator(b, ws)
  {
    if ws != [] {
      var w := ws[|ws| - 1];
      SumsMonotone(a, b, ws[..|ws| - 1]);
      if Counts(a, w) {
        ProductOrder(w.value, Get(a, w.name), Get(b, w.name));
      }
      hide Product;
    }
  }

  lemma QuotientOrder(a: real, b: real, d: real)
    requires d > 0.0 && a <= b
    ensures a / d <= b / d
  {
  }

  /** Raising present components never lowers the final score. */
  lemma FinalScoreIsMonotone(a: Scores, b: Scores, ws: seq<Weight>)
    requires AtMost(a, b)
    ensures FinalScore(a, ws) <= FinalScore(b, ws)
  {
    SumsMonotone(a, b, ws);
    hide Numerator, Denominator;
    if Denominator(a, ws) > 0.0 {
      QuotientOrder(Numerator(a, ws), Numerator(b, ws), Denominator(a, ws));
    }
  }

  // ---------- what one component contributes ----------

  /** Every name has one entry, as in a mapping. */
  ghost predicate UniqueNames(ws: seq<Weight>) {
    forall i, j :: 0 <= i < j < |ws| ==> ws[i].name != ws[j].name
  }

  lemma {:induction false} OneContribution(a: Scores, b: Scores, ws: seq<Weight>, name: string)
    requires UniqueNames(ws) && a.Keys == b.Keys && name in a && forall n :: n in a && n != name ==> a[n] == b[n]
    ensures Numerator(b, ws) - Numerator(a, ws) == Product(Positive(WeightOf(ws, name)), b[name] - a[name])
    ensures Denominator(b, ws) == Denominator(a, ws)
  {
    if ws == [] {
      assert Product(0.0, b[name] - a[name]) == 0.0;
    } else {
      var k := |ws| - 1;
      var w := ws[k];
      OneContribution(a, b, ws[..k], name);
      if w.name == name {
        NotPlaced(ws[..k], name);
        assert Product(0.0, b[name] - a[name]) == 0.0;
        Difference(w.value, a[name], b[name]);
      }
      hide Product;
    }
  }

  lemma {:induction false} NotPlaced(ws: seq<Weight>, name: string)
    requires forall i :: 0 <= i < |ws| ==> ws[i].name != name
    ensures Place(ws, name) == None && WeightOf(ws, name) == 0.0
  {
    if ws != [] {
      NotPlaced(ws[..|ws| - 1], name);
    }
  }

  lemma Difference(w: real, a: real, b: real)
    ensures Product(w, b) - Product(w, a) == Product(w, b - a)
  {
  }

  /** The mean before it is clamped. */
  function Mean(scores: Scores, ws: seq<Weight>): real {
    if Denominator(scores, ws) > 0.0 then Numerator(scores, ws) / Denominator(scores, ws) else 0.0
  }

  /** Changing one component of a candidate changes the mean by that component's share of the counted weight; so
      raising a component of positive weight strictly raises the mean. */
  lemma OneComponentMoves(a: Scores, b: Scores, ws: seq<Weight>, name: string)
    requires UniqueNames(ws) && a.Keys == b.Keys && name in a && (forall n :: n in a && n != name ==> a[n] == b[n])
    requires Denominator(a, ws) > 0.0
    ensures Mean(b, ws) - Mean(a, ws) == Product(Positive(WeightOf(ws, name)), b[name] - a[name]) / Denominator(a, ws)
    ensures WeightOf(ws, name) > 0.0 && a[name] < b[name] ==> Mean(a, ws) < Mean(b, ws)
  {
    hide Numerator, Denominator, Product, WeightOf, UniqueNames, Positive;
    OneContribution(a, b, ws, name);
    PositiveChange(WeightOf(ws, name), b[name] - a[name]);
    QuotientDifference(Numerator(a, ws), Numerator(b, ws), Denominator(a, ws));
  }

  lemma PositiveChange(weight: real, change: real)
    ensures weight > 0.0 && change > 0.0 ==> Product(Positive(weight), change) > 0.0
  {
  }

  lemma QuotientDifference(a: real, b: real, d: real)
    requires d > 0.0
    ensures b / d - a / d == (b - a) / d
    ensures b - a > 0.0 ==> (b - a) / d > 0.0
  {
    assert (a / d) * d == a && (b / d) * d == b && ((b - a) / d) * d == b - a;
    assert (b / d - a / d) * d == b - a;
  }

  /** A component that a candidate lacks counts as 0 and takes its weight along, unless it is the user rating, which then
      does not count at all. */
  lemma MissingComponent(scores: Scores, ws: seq<Weight>, w: Weight)
    requires w.name !in scores && w.value > 0.0 && Denominator(scores, ws) > 0.0
    ensures w.name == "user_rating" ==> Mean(scores, ws + [w]) == Mean(scores, ws)
    ensures w.name != "user_rating" ==> Mean(scores, ws + [w]) == Numerator(scores, ws) / (Denominator(scores, ws) + w.value)
  {
    hide *;
    SumsOfMissing(scores, ws, w);
    MeanIs(scores, ws);
    MeanIs(scores, ws + [w]);
  }

  lemma MeanIs(scores: Scores, ws: seq<Weight>)
    ensures Denominator(scores, ws) > 0.0 ==> Mean(scores, ws) == Numerator(scores, ws) / Denominator(scores, ws)
  {
    hide Numerator, Denominator;
  }

  lemma SumsOfMissing(scores: Scores, ws: seq<Weight>, w: Weight)
    requires w.name !in scores && w.value > 0.0
    ensures Numerator(scores, ws + [w]) == Numerator(scores, ws)
    ensures Denominator(scores, ws + [w]) == Denominator(scores, ws) + if w.name == "user_rating" then 0.0 else w.value
  {
    assert (ws + [w])[..|ws|] == ws;
    assert Product(w.value, 0.0) == 0.0;
    hide Product;
  }

  /** The score is the mean, kept within [0, 1]. */
  lemma FinalScoreIsClampedMean(scores: Scores, ws: seq<Weight>)
    ensures 0.0 <= Mean(scores, ws) <= 1.0 ==> FinalScore(scores, ws) == Mean(scores, ws)
    ensures Mean(scores, ws) < 0.0 ==> FinalScore(scores, ws) == 0.0
    ensures Mean(scores, ws) > 1.0 ==> FinalScore(scores, ws) == 1.0
  {
    hide Numerator, Denominator;
  }

  // ---------- scaling the weights ----------

  function Heavier(ws: seq<Weight>, c: real): (r: seq<Weight>)
    ensures |r| == |ws|
  {
    if ws == [] then []
    else Heavier(ws[..|ws| - 1], c) + [Weight(ws[|ws| - 1].name, Product(c, ws[|ws| - 1].value))]
  }

  lemma {:induction false} HeavierAt(ws: seq<Weight>, c: real, i: nat)
    requires i < |ws|
    ensures Heavier(ws, c)[i] == Weight(ws[i].name, Product(c, ws[i].value))
  {
    if i < |ws| - 1 {
      HeavierAt(ws[..|ws| - 1], c, i);
    }
  }

  lemma ScaledSign(c: real, x: real)
    requires c > 0.0
    ensures Product(c, x) > 0.0 <==> x > 0.0
    ensures Product(c, Positive(x)) == Positive(Product(c, x))
  {
  }

  lemma ProductRegroups(a: real, b: real, c: real)
    ensures Product(Product(a, b), c) == Product(a, Product(b, c))
  {
  }

  lemma {:induction false} HeavierSums(scores: Scores, ws: seq<Weight>, c: real)
    requires c > 0.0
    ensures Numerator(scores, Heavier(ws, c)) == Product(c, Numerator(scores, ws))
    ensures Denominator(scores, Heavier(ws, c)) == Product(c, Denominator(scores, ws))
  {
    if ws == [] {
      assert Product(c, 0.0) == 0.0;
    } else {
      var k := |ws| - 1;
      var w, h := ws[k], Heavier(ws, c);
      HeavierSums(scores, ws[..k], c);
      assert h[..k] == Heavier(ws[..k], c) && h[k] == Weight(w.name, Product(c, w.value));
      var n, d := Numerator(scores, ws[..k]), Denominator(scores, ws[..k]);
      ScaledSign(c, w.value);
      ProductRegroups(c, w.value, Get(scores, w.name));
      ProductSum(c, n, Product(w.value, Get(scores, w.name)));
      ProductSum(c, d, w.value);
      hide Product, Heavier;
    }
  }

  lemma {:induction false} HeavierPlace(ws: seq<Weight>, c: real, name: string)
    ensures Place(Heavier(ws, c), name) == Place(ws, name)
  {
    if ws != [] {
      var k := |ws| - 1;
      HeavierPlace(ws[..k], c, name);
      assert Heavier(ws, c)[..k] == Heavier(ws[..k], c);
    }
  }

  lemma {:induction false} HeavierPositive(ws: seq<Weight>, c: real)
    requires c > 0.0
    ensures AllPositive(Heavier(ws, c)) == Heavier(AllPositive(ws), c)
  {
    if ws != [] {
      var k := |ws| - 1;
      HeavierPositive(ws[..k], c);
      ScaledSign(c, ws[k].value);
      assert Heavier(ws, c)[..k] == Heavier(ws[..k], c);
      assert AllPositive(ws)[..k] == AllPositive(ws[..k]);
      hide Product, Positive;
    }
  }

  lemma HeavierUpdate(ws: seq<Weight>, c: real, i: nat, w: Weight)
    requires i < |ws|
    ensures Heavier(ws[i := w], c) == Heavier(ws, c)[i := Weight(w.name, Product(c, w.value))]
  {
    var left, right := Heavier(ws[i := w], c), Heavier(ws, c)[i := Weight(w.name, Product(c, w.value))];
    forall j | 0 <= j < |ws| ensures left[j] == right[j] {
      HeavierAt(ws[i := w], c, j);
      HeavierAt(ws, c, j);
    }
  }

  lemma HeavierAdd(ws: seq<Weight>, c: real, name: string, amount: real)
    ensures AddWeight(Heavier(ws, c), name, Product(c, amount)) == Heavier(AddWeight(ws, name, amount), c)
  {
    HeavierPlace(ws, c, name);
    hide Product, Heavier, Place;
    match Place(ws, name)
    case Some(i) =>
      HeavierAt(ws, c, i);
      HeavierUpdate(ws, c, i, Weight(name, ws[i].value + amount));
      ProductSum(c, ws[i].value, amount);
    case None =>
      HeavierSnoc(ws, c, Weight(name, amount));
  }

  lemma HeavierSnoc(ws: seq<Weight>, c: real, w: Weight)
    ensures Heavier(ws + [w], c) == Heavier(ws, c) + [Weight(w.name, Product(c, w.value))]
  {
    hide Product;
    assert (ws + [w])[..|ws|] == ws;
  }

  lemma HeavierRedistributed(ws: seq<Weight>, c: real, r: real)
    ensures Redistributed(Heavier(ws, c), Product(c, r)) == Heavier(Redistributed(ws, r), c)
  {
    var a := AddWeight(ws, "retrieval_fusion", Portion(r, 0.25));
    var b := AddWeight(a, "vector", Portion(r, 0.12));
    ProductRegroups(c, r, 0.25 / (0.25 + 0.12 + 0.08));
    ProductRegroups(c, r, 0.12 / (0.25 + 0.12 + 0.08));
    ProductRegroups(c, r, 0.08 / (0.25 + 0.12 + 0.08));
    hide Product, AddWeight;
    HeavierAdd(ws, c, "retrieval_fusion", Portion(r, 0.25));
    HeavierAdd(a, c, "vector", Portion(r, 0.12));
    HeavierAdd(b, c, "full_text", Portion(r, 0.08));
  }

  lemma HeavierEffective(weights: seq<Weight>, c: real, rerankerEnabled: bool)
    requires c > 0.0
    ensures Effective(Heavier(weights, c), rerankerEnabled) == Heavier(Effective(weights, rerankerEnabled), c)
  {
    var effective := AllPositive(weights);
    HeavierPositive(weights, c);
    HeavierPlace(effective, c, "reranker");
    hide Product, AllPositive, Redistributed, Heavier;
    match Place(effective, "reranker")
    case None =>
    case Some(i) =>
      HeavierAt(effective, c, i);
      ScaledSign(c, effective[i].value);
      HeavierUpdate(effective, c, i, Weight("reranker", 0.0));
      assert Product(c, 0.0) == 0.0 by {
        ProductOrder(c, 0.0, 0.0);
        ProductSum(c, 0.0, 0.0);
      }
      HeavierRedistributed(effective[i := Weight("reranker", 0.0)], c, effective[i].value);
  }

  lemma ProductQuotient(c: real, a: real, b: real)
    requires c > 0.0 && b > 0.0
    ensures Product(c, b) > 0.0 && Product(c, a) / Product(c, b) == a / b
  {
    QuotientCancels(c, a, b);
  }

  /** Multiplying all weights by a positive number changes no final score. */
  lemma ScalingWeightsKeepsScore(scores: Scores, weights: seq<Weight>, c: real, rerankerEnabled: bool)
    requires c > 0.0
    ensures FinalScore(scores, Effective(Heavier(weights, c), rerankerEnabled)) == FinalScore(scores, Effective(weights, rerankerEnabled))
  {
    var ws := Effective(weights, rerankerEnabled);
    HeavierEffective(weights, c, rerankerEnabled);
    HeavierSums(scores, ws, c);
    hide Effective, Heavier, Numerator, Denominator, Clamp, Product;
    ScaledSign(c, Denominator(scores, ws));
    if Denominator(scores, ws) > 0.0 {
      ProductQuotient(c, Numerator(scores, ws), Denominator(scores, ws));
    }
  }

  // ---------- the loops ----------

  function WithFinalScore(s: Snapshot, ws: seq<Weight>): (r: Snapshot)
    ensures r.memory == s.memory && r.componentScores == s.componentScores
  {
    s.(finalScore := FinalScore(s.normalizedScores, ws))
  }

  ghost function ScoredAll(cs: seq<Snapshot>, ws: seq<Weight>): (r: seq<Snapshot>)
    ensures |r| == |cs|
  {
    seq(|cs|, i requires 0 <= i < |cs| => WithFinalScore(cs[i], ws))
  }

  method ScoreCandidate(c: RetrievalCandidate, ws: seq<Weight>)
    modifies c
    ensures c.Value() == WithFinalScore(old(c.Value()), ws)
  {
    var score := ScoreOne(c.normalizedScores, ws);
    c.finalScore := score;
  }

  method ScoreOne(scores: Scores, ws: seq<Weight>) returns (score: real)
    ensures score == FinalScore(scores, ws)
  {
    var numerator, denominator := 0.0, 0.0;
    for i := 0 to |ws|
      invariant numerator == Numerator(scores, ws[..i]) && denominator == Denominator(scores, ws[..i])
    {
      assert ws[..i + 1][..i] == ws[..i];
      var weight := ws[i];
      if weight.value <= 0.0 || (weight.name !in scores && weight.name in OPTIONAL) {
        continue;
      }
      numerator := numerator + Product(weight.value, Get(scores, weight.name));
      denominator := denominator + weight.value;
    }
    assert ws[..|ws|] == ws;
    score := if denominator > 0.0 then Clamp(numerator / denominator) else 0.0;
  }

  /** `score_candidates` */
  method ScoreCandidates(cs: seq<RetrievalCandidate>, weights: seq<Weight>, rerankerEnabled: bool)
    requires Distinct(cs)
    modifies cs
    ensures Snapshots(cs) == ScoredAll(old(Snapshots(cs)), Effective(weights, rerankerEnabled))
  {
    var ws := Effective(weights, rerankerEnabled);
    ghost var was := Snapshots(cs);
    ghost var now := ScoredAll(was, ws);
    NoneDone(cs, now);
    assert forall i :: 0 <= i < |was| ==> now[i] == WithFinalScore(was[i], ws);
    hide *;
    for i := 0 to |cs|
      invariant Halfway(cs, now, was, i)
    {
      OneTurn(cs, now, was, i);
      ScoreCandidate(cs[i], ws);
      OneDone(cs, now, was, i);
    }
    AllDone(cs, now, was);
  }
}
