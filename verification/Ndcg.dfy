/** Normalized discounted cumulative gain. The two transcendental functions are parameters:
    `gain` stands for `2 ** r - 1` and `log` for `log2`. */
module Ndcg {
  import opened Common
  import opened Ordering

  /** Positive for positive relevance, and never falling. */
  ghost predicate IsGain(gain: real -> real) {
    && (forall r :: r > 0.0 ==> gain(r) > 0.0)
    && (forall a, b :: 0.0 < a <= b ==> gain(a) <= gain(b))
  }

  /** Positive from 2 on, and never falling. */
  ghost predicate IsLog(log: nat -> real) {
    && (forall n :: n >= 2 ==> log(n) > 0.0)
    && (forall m, n :: 2 <= m <= n ==> log(m) <= log(n))
  }

  function Gain(gain: real -> real, relevance: real): real {
    if relevance <= 0.0 then 0.0 else gain(relevance)
  }

  function Quotient(a: real, b: real): real
    requires b != 0.0
  {
    a / b
  }

  /** `_dcg`: the member at index `i` has rank `i + 1`. */
  ghost function Dcg(gain: real -> real, log: nat -> real, relevances: seq<real>): real
    requires IsLog(log)
  {
    if relevances == [] then 0.0
    else
      var n := |relevances| - 1;
      Dcg(gain, log, relevances[..n]) + Quotient(Gain(gain, relevances[n]), log(n + 2))
  }

  function Descending(a: real, b: real): bool {
    a >= b
  }

  /** `s[:k]` for `k >= 0` */
  function Take<T>(s: seq<T>, k: nat): seq<T> {
    if k < |s| then s[..k] else s
  }

  ghost function NdcgAgainst(gain: real -> real, log: nat -> real, relevances: seq<real>, ideals: seq<real>, k: int): real
    requires IsLog(log)
  {
    if k <= 0 then 0.0
    else
      var ideal := Dcg(gain, log, Take(Sort(Descending, ideals), k));
      if ideal == 0.0 then 0.0 else Quotient(Dcg(gain, log, Take(relevances, k)), ideal)
  }

  /** `ndcg_at_k` without an explicit ideal list */
  ghost function NdcgAt(gain: real -> real, log: nat -> real, relevances: seq<real>, k: int): real
    requires IsLog(log)
  {
    NdcgAgainst(gain, log, relevances, relevances, k)
  }

  method ComputeDcg(gain: real -> real, log: nat -> real, relevances: seq<real>) returns (score: real)
    requires IsLog(log)
    ensures score == Dcg(gain, log, relevances)
  {
    score := 0.0;
    for i := 0 to |relevances|
      invariant score == Dcg(gain, log, relevances[..i])
    {
      assert relevances[..i + 1][..i] == relevances[..i];
      if relevances[i] <= 0.0 {
        assert Quotient(0.0, log(i + 2)) == 0.0;
        continue;
      }
      score := score + Quotient(gain(relevances[i]), log(i + 2));
    }
    assert relevances[..|relevances|] == relevances;
  }

  method ComputeNdcg(gain: real -> real, log: nat -> real, relevances: seq<real>, ideals: Option<seq<real>>, k: int)
    returns (score: real)
    requires IsLog(log)
    ensures score == NdcgAgainst(gain, log, relevances, if ideals.None? then relevances else ideals.value, k)
  {
    if k <= 0 {
      return 0.0;
    }
    var actual := ComputeDcg(gain, log, Take(relevances, k));
    var reference := match ideals case None => relevances case Some(list) => list;
    var ideal := ComputeDcg(gain, log, Take(Sort(Descending, reference), k));
    score := if ideal == 0.0 then 0.0 else Quotient(actual, ideal);
  }

  // ---------- weights that fall with the rank ----------

  ghost function WeightAt(log: nat -> real, k: nat, i: nat): (w: real)
    requires IsLog(log)
    ensures w >= 0.0
  {
    if i < k then Quotient(1.0, log(i + 2)) else 0.0
  }

  function Product(a: real, b: real): real {
    a * b
  }

  /** The gains of all members, each times the weight of its place; from place `k` on the weights are 0. */
  ghost function Weighted(gain: real -> real, log: nat -> real, k: nat, s: seq<real>): real
    requires IsLog(log)
  {
    if s == [] then 0.0
    else
      var n := |s| - 1;
      Weighted(gain, log, k, s[..n]) + Product(Gain(gain, s[n]), WeightAt(log, k, n))
  }

  lemma QuotientIsProduct(a: real, b: real)
    requires b > 0.0
    ensures Quotient(a, b) == Product(a, Quotient(1.0, b))
  {
    assert a / b == a * (1.0 / b);
  }

  lemma {:induction false} DcgIsWeighted(gain: real -> real, log: nat -> real, k: nat, s: seq<real>)
    requires IsLog(log)
    ensures Dcg(gain, log, Take(s, k)) == Weighted(gain, log, k, s)
  {
    if s != [] {
      var n := |s| - 1;
      DcgIsWeighted(gain, log, k, s[..n]);
      if n < k {
        QuotientIsProduct(Gain(gain, s[n]), log(n + 2));
        assert Take(s, k) == s && Take(s[..n], k) == s[..n];
      } else {
        assert Take(s, k) == Take(s[..n], k);
        assert Product(Gain(gain, s[n]), 0.0) == 0.0;
      }
      hide Product, Quotient, Gain;
    }
  }

  lemma QuotientFalls(a: real, b: real)
    requires 0.0 < a <= b
    ensures Quotient(1.0, b) <= Quotient(1.0, a)
  {
    assert (1.0 / a) * a == 1.0 && (1.0 / b) * b == 1.0;
    assert (1.0 / b) * a <= 1.0;
  }

  lemma WeightsFall(log: nat -> real, k: nat, i: nat)
    requires IsLog(log)
    ensures WeightAt(log, k, i + 1) <= WeightAt(log, k, i)
  {
    if i + 1 < k {
      QuotientFalls(log(i + 2), log(i + 3));
    }
  }

  lemma GainGrows(gain: real -> real, a: real, b: real)
    requires IsGain(gain) && a <= b
    ensures 0.0 <= Gain(gain, a) <= Gain(gain, b)
  {
  }

  /** The larger gain is worth more at the larger weight. */
  lemma Exchange(low: real, high: real, less: real, more: real)
    requires low <= high && less <= more
    ensures Product(low, more) + Product(high, less) <= Product(high, more) + Product(low, less)
  {
    assert (high - low) * (more - less) >= 0.0;
  }

  lemma WeightedSnoc(gain: real -> real, log: nat -> real, k: nat, s: seq<real>, x: real)
    requires IsLog(log)
    ensures Weighted(gain, log, k, s + [x]) == Weighted(gain, log, k, s) + Product(Gain(gain, x), WeightAt(log, k, |s|))
  {
    assert (s + [x])[..|s|] == s;
  }

  // ---------- the rearrangement inequality ----------

  /** Moving a member forward past smaller ones never lowers the weighted sum. */
  lemma {:induction false} InsertingGains(gain: real -> real, log: nat -> real, k: nat, s: seq<real>, x: real)
    requires IsGain(gain) && IsLog(log)
    ensures Weighted(gain, log, k, s + [x]) <= Weighted(gain, log, k, InsertSorted(Descending, s, x))
  {
    if s != [] && !Descending(s[|s| - 1], x) {
      var n := |s| - 1;
      var init, last := s[..n], s[n];
      assert s == init + [last];
      assert InsertSorted(Descending, s, x) == InsertSorted(Descending, init, x) + [last];
      hide Weighted, InsertSorted, WeightAt, Product, Gain;
      InsertingGains(gain, log, k, init, x);
      WeightedSnoc(gain, log, k, init, last);
      WeightedSnoc(gain, log, k, init, x);
      WeightedSnoc(gain, log, k, s, x);
      WeightedSnoc(gain, log, k, InsertSorted(Descending, init, x), last);
      GainGrows(gain, last, x);
      WeightsFall(log, k, n);
      Exchange(Gain(gain, last), Gain(gain, x), WeightAt(log, k, n + 1), WeightAt(log, k, n));
    }
  }

  lemma {:induction false} SortingGains(gain: real -> real, log: nat -> real, k: nat, s: seq<real>)
    requires IsGain(gain) && IsLog(log)
    ensures Weighted(gain, log, k, s) <= Weighted(gain, log, k, Sort(Descending, s))
  {
    if s != [] {
      var n := |s| - 1;
      var init, last := s[..n], s[n];
      assert s == init + [last];
      assert Sort(Descending, s) == InsertSorted(Descending, Sort(Descending, init), last);
      hide Weighted, InsertSorted, Sort, WeightAt, Product, Gain;
      SortingGains(gain, log, k, init);
      WeightedSnoc(gain, log, k, init, last);
      WeightedSnoc(gain, log, k, Sort(Descending, init), last);
      InsertingGains(gain, log, k, Sort(Descending, init), last);
    }
  }

  // ---------- the bound ----------

  lemma {:induction false} WeightedSign(gain: real -> real, log: nat -> real, k: nat, s: seq<real>)
    requires IsGain(gain) && IsLog(log)
    ensures Weighted(gain, log, k, s) >= 0.0
    ensures Weighted(gain, log, k, s) > 0.0 <==> exists i :: 0 <= i < |s| && i < k && s[i] > 0.0
  {
    if s != [] {
      var n := |s| - 1;
      WeightedSign(gain, log, k, s[..n]);
      assert n < k ==> WeightAt(log, k, n) > 0.0;
      SignOfProduct(Gain(gain, s[n]), WeightAt(log, k, n));
      assert forall i :: 0 <= i < n ==> s[..n][i] == s[i];
      hide WeightAt, Product;
    }
  }

  lemma SignOfProduct(a: real, b: real)
    requires a >= 0.0 && b >= 0.0
    ensures Product(a, b) >= 0.0
    ensures Product(a, b) > 0.0 <==> a > 0.0 && b > 0.0
  {
  }

  lemma QuotientInUnit(a: real, b: real)
    requires 0.0 <= a <= b && b > 0.0
    ensures 0.0 <= Quotient(a, b) <= 1.0
    ensures Quotient(a, b) > 0.0 <==> a > 0.0
    ensures Quotient(a, b) == 1.0 <==> a == b
  {
    assert (a / b) * b == a;
  }

  /** For all relevances and every `k`, nDCG lies in [0, 1]; it is positive exactly when a member among the
      first `k` is relevant. */
  lemma NdcgInUnit(gain: real -> real, log: nat -> real, relevances: seq<real>, k: int)
    requires IsGain(gain) && IsLog(log)
    ensures 0.0 <= NdcgAt(gain, log, relevances, k) <= 1.0
    ensures NdcgAt(gain, log, relevances, k) > 0.0 <==> exists i :: 0 <= i < |relevances| && i < k && relevances[i] > 0.0
  {
    if k > 0 {
      var sorted := Sort(Descending, relevances);
      var actual, ideal := Weighted(gain, log, k, relevances), Weighted(gain, log, k, sorted);
      DcgIsWeighted(gain, log, k, relevances);
      DcgIsWeighted(gain, log, k, sorted);
      SortingGains(gain, log, k, relevances);
      WeightedSign(gain, log, k, relevances);
      hide Weighted, Dcg, Take, Sort, Quotient, IsGain;
      if ideal > 0.0 {
        QuotientInUnit(actual, ideal);
      }
    }
  }

  ghost predicate IsDescending(s: seq<real>) {
    forall i, j :: 0 <= i < j < |s| ==> s[i] >= s[j]
  }

  /** A list in falling order whose head is relevant scores 1. */
  lemma SortedScoresOne(gain: real -> real, log: nat -> real, relevances: seq<real>, k: int)
    requires IsGain(gain) && IsLog(log) && IsDescending(relevances) && relevances != [] && relevances[0] > 0.0 && k >= 1
    ensures NdcgAt(gain, log, relevances, k) == 1.0
  {
    SortOfSorted(Descending, relevances);
    DcgIsWeighted(gain, log, k, relevances);
    WeightedSign(gain, log, k, relevances);
    hide Weighted, Dcg, Take, Sort, IsGain, Quotient;
    QuotientInUnit(Dcg(gain, log, Take(relevances, k)), Dcg(gain, log, Take(relevances, k)));
  }

  // ---------- an explicit ideal list ----------

  /** Place by place the ideal list is at least as relevant wherever the other is relevant at all. */
  ghost predicate Dominates(ideals: seq<real>, relevances: seq<real>) {
    forall i :: 0 <= i < |relevances| && relevances[i] > 0.0 ==> i < |ideals| && relevances[i] <= ideals[i]
  }

  lemma {:induction false} DominatedWeighs(gain: real -> real, log: nat -> real, k: nat, low: seq<real>, high: seq<real>)
    requires IsGain(gain) && IsLog(log) && Dominates(high, low)
    ensures Weighted(gain, log, k, low) <= Weighted(gain, log, k, high)
    decreases |low| + |high|
  {
    var n, m := |low| - 1, |high| - 1;
    if |low| > |high| {
      assert low[n] <= 0.0;
      DominatedWeighs(gain, log, k, low[..n], high);
      SignOfProduct(0.0, WeightAt(log, k, n));
      hide Product, WeightAt;
    } else if |low| < |high| {
      DominatedWeighs(gain, log, k, low, high[..m]);
      SignOfProduct(Gain(gain, high[m]), WeightAt(log, k, m));
      hide Product, WeightAt;
    } else if low != [] {
      DominatedWeighs(gain, log, k, low[..n], high[..n]);
      if low[n] > 0.0 {
        GainGrows(gain, low[n], high[n]);
      } else {
        GainGrows(gain, high[n], high[n]);
      }
      ProductGrows(Gain(gain, low[n]), Gain(gain, high[n]), WeightAt(log, k, n));
      hide Product, WeightAt, Gain;
    }
  }

  lemma ProductGrows(a: real, b: real, w: real)
    requires a <= b && w >= 0.0
    ensures Product(a, w) <= Product(b, w)
  {
  }

  /** With an ideal list that dominates the relevances the score stays within [0, 1]. */
  lemma DominatingIdealBounds(gain: real -> real, log: nat -> real, relevances: seq<real>, ideals: seq<real>, k: int)
    requires IsGain(gain) && IsLog(log) && Dominates(Sort(Descending, ideals), Sort(Descending, relevances))
    ensures 0.0 <= NdcgAgainst(gain, log, relevances, ideals, k) <= 1.0
  {
    if k > 0 {
      var best, sorted := Sort(Descending, ideals), Sort(Descending, relevances);
      var actual, ideal := Weighted(gain, log, k, relevances), Weighted(gain, log, k, best);
      ScoreIsQuotient(gain, log, relevances, ideals, k);
      SortingGains(gain, log, k, relevances);
      DominatedWeighs(gain, log, k, sorted, best);
      WeightedSign(gain, log, k, relevances);
      hide Weighted, Dcg, Take, Sort, Quotient, IsGain, Dominates;
      if ideal > 0.0 {
        QuotientInUnit(actual, ideal);
      }
    }
  }

  /** Sorting makes equal lists of equal members. */
  lemma {:induction false} DescendingIsUnique(a: seq<real>, b: seq<real>)
    requires IsDescending(a) && IsDescending(b) && multiset(a) == multiset(b) && |a| == |b|
    ensures a == b
  {
    hide *;
    if a != [] {
      LastsAreEqual(a, b);
      InitsDescend(a);
      InitsDescend(b);
      SameInits(a[..|a| - 1], b[..|b| - 1], a[|a| - 1]);
      DescendingIsUnique(a[..|a| - 1], b[..|b| - 1]);
    }
  }

  lemma LastsAreEqual(a: seq<real>, b: seq<real>)
    requires IsDescending(a) && IsDescending(b) && multiset(a) == multiset(b) && a != [] && b != []
    ensures a[|a| - 1] == b[|b| - 1]
  {
    hide *;
    LastIsLeast(a, b[|b| - 1]);
    LastIsLeast(b, a[|a| - 1]);
  }

  lemma InitsDescend(s: seq<real>)
    requires IsDescending(s) && s != []
    ensures IsDescending(s[..|s| - 1]) && s == s[..|s| - 1] + [s[|s| - 1]]
  {
  }

  lemma LastIsLeast(s: seq<real>, x: real)
    requires IsDescending(s) && s != []
    ensures x in multiset(s) ==> s[|s| - 1] <= x
    ensures s[|s| - 1] in multiset(s)
  {
    assert s[|s| - 1] in s;
    if x in s {
      var i :| 0 <= i < |s| && s[i] == x;
    }
  }

  lemma SameInits(a: seq<real>, b: seq<real>, x: real)
    requires multiset(a + [x]) == multiset(b + [x])
    ensures multiset(a) == multiset(b)
  {
    CancelOne(multiset(a), multiset(b), multiset{}, x);
  }

  lemma SortedIsDescending(s: seq<real>)
    ensures IsDescending(Sort(Descending, s)) && multiset(Sort(Descending, s)) == multiset(s)
  {
    assert TotalPreorder(Descending);
    SortSorts(Descending, s);
    SortMembers(Descending, s);
    hide Sort;
  }

  lemma SameSorted(a: seq<real>, b: seq<real>)
    requires multiset(a) == multiset(b)
    ensures Sort(Descending, a) == Sort(Descending, b)
  {
    SortedIsDescending(a);
    SortedIsDescending(b);
    hide IsDescending;
    assert |multiset(a)| == |a| && |multiset(b)| == |b|;
    DescendingIsUnique(Sort(Descending, a), Sort(Descending, b));
  }

  ghost predicate NonePositive(s: seq<real>) {
    forall x :: x in s ==> x <= 0.0
  }

  lemma SortKeepsSigns(s: seq<real>)
    ensures (exists i :: 0 <= i < |Sort(Descending, s)| && Sort(Descending, s)[i] > 0.0) <==> !NonePositive(s)
  {
    SortKeepsMembers(Descending, s);
    hide Sort;
    var sorted := Sort(Descending, s);
    if !NonePositive(s) {
      var x :| x in s && x > 0.0;
      assert x in sorted;
      var i :| 0 <= i < |sorted| && sorted[i] == x;
    }
    if i :| 0 <= i < |sorted| && sorted[i] > 0.0 {
      assert sorted[i] in s;
    }
  }

  lemma WorthlessIdeals(gain: real -> real, log: nat -> real, relevances: seq<real>, ideals: seq<real>, k: int)
    requires IsGain(gain) && IsLog(log) && NonePositive(ideals)
    ensures NdcgAgainst(gain, log, relevances, ideals, k) == 0.0
  {
    if k > 0 {
      SortKeepsSigns(ideals);
      WeightedSign(gain, log, k, Sort(Descending, ideals));
      ScoreIsQuotient(gain, log, relevances, ideals, k);
      hide *;
    }
  }

  lemma ScoreIsQuotient(gain: real -> real, log: nat -> real, relevances: seq<real>, ideals: seq<real>, k: nat)
    requires IsLog(log) && k > 0
    ensures var actual, ideal := Weighted(gain, log, k, relevances), Weighted(gain, log, k, Sort(Descending, ideals));
      NdcgAgainst(gain, log, relevances, ideals, k) == if ideal == 0.0 then 0.0 else Quotient(actual, ideal)
  {
    hide Weighted, Dcg, Take, Sort, Quotient, IsLog;
    DcgIsWeighted(gain, log, k, relevances);
    DcgIsWeighted(gain, log, k, Sort(Descending, ideals));
  }

  // ---------- a gain that shows what is not dominated ----------

  /** The gain of a relevance below `threshold` is `low`, and of any other 1. */
  function Threshold(threshold: real, low: real): real -> real {
    r => if r >= threshold then 1.0 else low
  }

  ghost predicate Undominated(ideals: seq<real>, relevances: seq<real>, p: nat) {
    p < |relevances| && relevances[p] > 0.0 && (p >= |ideals| || ideals[p] < relevances[p])
  }

  /** Up to place `p` all gains are 1. */
  lemma {:induction false} HighGains(log: nat -> real, k: nat, s: seq<real>, threshold: real, low: real)
    requires IsLog(log) && threshold > 0.0 && forall i :: 0 <= i < |s| ==> s[i] >= threshold
    ensures Weighted(Threshold(threshold, low), log, k, s) == WeightSum(log, k, |s|)
  {
    if s != [] {
      var n := |s| - 1;
      HighGains(log, k, s[..n], threshold, low);
      assert Gain(Threshold(threshold, low), s[n]) == 1.0;
      assert Product(1.0, WeightAt(log, k, n)) == WeightAt(log, k, n);
    }
  }

  /** More members never weigh less. */
  lemma {:induction false} PrefixWeighs(gain: real -> real, log: nat -> real, k: nat, s: seq<real>, n: nat)
    requires IsGain(gain) && IsLog(log) && n <= |s|
    ensures Weighted(gain, log, k, s[..n]) <= Weighted(gain, log, k, s)
  {
    if n == |s| {
      assert s[..n] == s;
    } else {
      var m := |s| - 1;
      PrefixWeighs(gain, log, k, s[..m], n);
      assert s[..m][..n] == s[..n];
      SignOfProduct(Gain(gain, s[m]), WeightAt(log, k, m));
      hide Product, WeightAt;
    }
  }

  /** The weights of the first `n` places. */
  ghost function WeightSum(log: nat -> real, k: nat, n: nat): real
    requires IsLog(log)
  {
    if n == 0 then 0.0 else WeightSum(log, k, n - 1) + WeightAt(log, k, n - 1)
  }

  /** What `s` may weigh if from place `p` on its gains are at most `low`. */
  ghost function Ceiling(log: nat -> real, k: nat, n: nat, p: nat, low: real): real
    requires IsLog(log)
  {
    if n <= p then WeightSum(log, k, n) else Ceiling(log, k, n - 1, p, low) + Product(low, WeightAt(log, k, n - 1))
  }

  lemma {:induction false} LowGains(log: nat -> real, k: nat, s: seq<real>, p: nat, threshold: real, low: real)
    requires IsLog(log) && 0.0 < low <= 1.0 && threshold > 0.0 && forall i :: p <= i < |s| ==> s[i] < threshold
    ensures Weighted(Threshold(threshold, low), log, k, s) <= Ceiling(log, k, |s|, p, low)
  {
    var gain := Threshold(threshold, low);
    if s != [] {
      var n := |s| - 1;
      LowGains(log, k, s[..n], p, threshold, low);
      assert Gain(gain, s[n]) <= if n < p then 1.0 else low;
      ProductGrows(Gain(gain, s[n]), if n < p then 1.0 else low, WeightAt(log, k, n));
      if n < p {
        assert Product(1.0, WeightAt(log, k, n)) == WeightAt(log, k, n);
      }
    }
  }

  lemma ThresholdIsGain(threshold: real, low: real)
    requires 0.0 < low <= 1.0
    ensures IsGain(Threshold(threshold, low))
  {
  }

  lemma ScoreAboveOne(gain: real -> real, log: nat -> real, relevances: seq<real>, ideals: seq<real>, k: nat)
    requires IsGain(gain) && IsLog(log) && k > 0 && !NonePositive(ideals)
    requires Weighted(gain, log, k, relevances) > Weighted(gain, log, k, Sort(Descending, ideals))
    ensures NdcgAgainst(gain, log, relevances, ideals, k) > 1.0
  {
    var best := Sort(Descending, ideals);
    HeadIsPositive(ideals);
    WeightedSign(gain, log, k, best);
    ScoreIsQuotient(gain, log, relevances, ideals, k);
    hide *;
    QuotientAboveOne(Weighted(gain, log, k, relevances), Weighted(gain, log, k, best));
  }

  lemma HeadIsPositive(s: seq<real>)
    requires !NonePositive(s)
    ensures Sort(Descending, s) != [] && Sort(Descending, s)[0] > 0.0
  {
    SortKeepsSigns(s);
    SortedIsDescending(s);
    hide NonePositive, Sort;
    var i :| 0 <= i < |Sort(Descending, s)| && Sort(Descending, s)[i] > 0.0;
  }

  lemma QuotientAboveOne(a: real, b: real)
    requires a > b > 0.0
    ensures Quotient(a, b) > 1.0
  {
    assert (a / b) * b == a;
  }

  lemma DescendingSides(high: seq<real>, best: seq<real>, p: nat)
    requires IsDescending(high) && IsDescending(best) && Undominated(best, high, p)
    ensures var front := high[..p + 1]; forall i :: 0 <= i < |front| ==> front[i] >= high[p]
    ensures forall i :: p <= i < |best| ==> best[i] < high[p]
    ensures high[p] > 0.0
  {
  }

  lemma NotDominated(best: seq<real>, high: seq<real>) returns (p: nat)
    requires !Dominates(best, high)
    ensures Undominated(best, high, p)
  {
    p :| 0 <= p < |high| && high[p] > 0.0 && !(p < |best| && high[p] <= best[p]);
  }

  /** What two lists weigh under a threshold gain at a place where the first is not dominated by the second. */
  lemma UndominatedWeights(log: nat -> real, k: nat, high: seq<real>, best: seq<real>, p: nat, low: real)
    requires IsLog(log) && IsDescending(high) && IsDescending(best) && Undominated(best, high, p) && 0.0 < low <= 1.0
    ensures Weighted(Threshold(high[p], low), log, k, high) >= WeightSum(log, k, p + 1)
    ensures Weighted(Threshold(high[p], low), log, k, best) <= Ceiling(log, k, |best|, p, low)
  {
    hide Weighted, WeightSum, Ceiling;
    ThresholdIsGain(high[p], low);
    DescendingSides(high, best, p);
    hide IsDescending, Undominated, Threshold, IsGain, IsLog;
    HighGains(log, k, high[..p + 1], high[p], low);
    PrefixWeighs(Threshold(high[p], low), log, k, high, p + 1);
    LowGains(log, k, best, p, high[p], low);
  }

  // ---------- every order of the results, one logarithm ----------

  /** With the cut-off behind place `p` the places behind it do not count. */
  lemma {:induction false} CeilingAtCut(log: nat -> real, n: nat, p: nat, low: real)
    requires IsLog(log) && 0.0 < low <= 1.0
    ensures Ceiling(log, p + 1, n, p, low) <= WeightSum(log, p + 1, p) + Product(low, WeightAt(log, p + 1, p))
  {
    if n <= p {
      WeightSumGrows(log, p + 1, n, p);
    } else {
      CeilingAtCut(log, n - 1, p, low);
      assert n - 1 > p ==> Product(low, WeightAt(log, p + 1, n - 1)) == 0.0;
      if n - 1 == p {
        assert Ceiling(log, p + 1, p, p, low) == WeightSum(log, p + 1, p);
      }
    }
  }

  lemma {:induction false} WeightSumGrows(log: nat -> real, k: nat, m: nat, n: nat)
    requires IsLog(log) && m <= n
    ensures WeightSum(log, k, m) <= WeightSum(log, k, n)
  {
    if m < n {
      WeightSumGrows(log, k, m, n - 1);
    }
  }

  /** Whatever the logarithm, an order of the results, a gain and a cut-off exist under which an undominated list
      scores above 1. */
  lemma UndominatedOrderExceeds(log: nat -> real, relevances: seq<real>, ideals: seq<real>, p: nat)
    requires IsLog(log) && !NonePositive(ideals)
    requires Undominated(Sort(Descending, ideals), Sort(Descending, relevances), p)
    ensures var sorted := Sort(Descending, relevances); var gain := Threshold(sorted[p], 0.5);
      IsGain(gain) && multiset(sorted) == multiset(relevances) && NdcgAgainst(gain, log, sorted, ideals, p + 1) > 1.0
  {
    var sorted, best := Sort(Descending, relevances), Sort(Descending, ideals);
    SortedIsDescending(relevances);
    SortedIsDescending(ideals);
    hide Weighted, Sort, Ceiling, IsGain, NonePositive, Threshold, IsDescending, Product, NdcgAgainst;
    UndominatedWeights(log, p + 1, sorted, best, p, 0.5);
    CeilingAtCut(log, |best|, p, 0.5);
    ThresholdIsGain(sorted[p], 0.5);
    assert WeightAt(log, p + 1, p) > 0.0;
    HalfIsLess(WeightAt(log, p + 1, p));
    assert WeightSum(log, p + 1, p + 1) == WeightSum(log, p + 1, p) + WeightAt(log, p + 1, p);
    hide WeightSum, WeightAt, IsLog;
    ScoreAboveOne(Threshold(sorted[p], 0.5), log, sorted, ideals, p + 1);
  }

  lemma HalfIsLess(x: real)
    requires x > 0.0
    ensures Product(0.5, x) < x
  {
  }

  /** For any one logarithm: an explicit ideal list bounds the score by 1, for every gain, every order of the
      results and every cut-off, exactly when it has nothing relevant or dominates the results. */
  lemma IdealBoundsEveryOrder(log: nat -> real, relevances: seq<real>, ideals: seq<real>)
    requires IsLog(log)
    ensures (forall gain: real -> real, order: seq<real>, k: int :: IsGain(gain) && multiset(order) == multiset(relevances) ==>
               NdcgAgainst(gain, log, order, ideals, k) <= 1.0)
       <==> NonePositive(ideals) || Dominates(Sort(Descending, ideals), Sort(Descending, relevances))
  {
    hide NdcgAgainst, IsGain, NonePositive, IsLog, Sort;
    if NonePositive(ideals) || Dominates(Sort(Descending, ideals), Sort(Descending, relevances)) {
      hide Dominates;
      forall gain: real -> real, order: seq<real>, k: int | IsGain(gain) && multiset(order) == multiset(relevances)
        ensures NdcgAgainst(gain, log, order, ideals, k) <= 1.0
      {
        if NonePositive(ideals) {
          WorthlessIdeals(gain, log, order, ideals, k);
        } else {
          SameSorted(order, relevances);
          DominatingIdealBounds(gain, log, order, ideals, k);
        }
      }
    } else {
      var p := NotDominated(Sort(Descending, ideals), Sort(Descending, relevances));
      UndominatedOrderExceeds(log, relevances, ideals, p);
    }
  }

  // ---------- one order of the results, every logarithm ----------

  /** All ranks count the same. */
  function Flat(): nat -> real {
    n => 1.0
  }

  lemma FlatIsLog()
    ensures IsLog(Flat())
  {
  }

  lemma FlatWeight(k: nat, i: nat)
    requires IsLog(Flat()) && i < k
    ensures WeightAt(Flat(), k, i) == 1.0
  {
  }

  lemma {:induction false} FlatSum(k: nat, n: nat)
    requires IsLog(Flat()) && n <= k
    ensures WeightSum(Flat(), k, n) == n as real
  {
    if n > 0 {
      FlatSum(k, n - 1);
      FlatWeight(k, n - 1);
    }
  }

  lemma {:induction false} FlatCeiling(k: nat, n: nat, p: nat, low: real)
    requires IsLog(Flat()) && n <= k && 0.0 < low <= 1.0
    ensures Ceiling(Flat(), k, n, p, low) <= p as real + Product(low, n as real)
  {
    if n <= p {
      FlatSum(k, n);
      assert low * n as real >= 0.0;
    } else {
      FlatCeiling(k, n - 1, p, low);
      FlatWeight(k, n - 1);
      assert Product(low, 1.0) == low;
      assert low * n as real == low * (n - 1) as real + low;
    }
  }

  /** Without discount the order does not matter. */
  lemma {:induction false} FlatInsert(gain: real -> real, k: nat, s: seq<real>, x: real)
    requires IsLog(Flat()) && |s| < k
    ensures Weighted(gain, Flat(), k, InsertSorted(Descending, s, x)) == Weighted(gain, Flat(), k, s) + Gain(gain, x)
  {
    FlatWeight(k, |s|);
    hide WeightAt, Gain, Flat, IsLog;
    if s == [] || Descending(s[|s| - 1], x) {
      FlatSnoc(gain, k, s, x);
    } else {
      var n := |s| - 1;
      FlatInsert(gain, k, s[..n], x);
      assert s == s[..n] + [s[n]];
      assert InsertSorted(Descending, s, x) == InsertSorted(Descending, s[..n], x) + [s[n]];
      hide Weighted, InsertSorted;
      FlatSnoc(gain, k, s[..n], s[n]);
      FlatSnoc(gain, k, InsertSorted(Descending, s[..n], x), s[n]);
    }
  }

  lemma FlatSnoc(gain: real -> real, k: nat, s: seq<real>, x: real)
    requires IsLog(Flat()) && |s| < k
    ensures Weighted(gain, Flat(), k, s + [x]) == Weighted(gain, Flat(), k, s) + Gain(gain, x)
  {
    WeightedSnoc(gain, Flat(), k, s, x);
    FlatWeight(k, |s|);
    hide Weighted, Gain;
  }

  lemma {:induction false} FlatSort(gain: real -> real, k: nat, s: seq<real>)
    requires IsLog(Flat()) && |s| <= k
    ensures Weighted(gain, Flat(), k, Sort(Descending, s)) == Weighted(gain, Flat(), k, s)
  {
    if s != [] {
      var n := |s| - 1;
      FlatSort(gain, k, s[..n]);
      FlatInsert(gain, k, Sort(Descending, s[..n]), s[n]);
      FlatSnoc(gain, k, s[..n], s[n]);
      assert s == s[..n] + [s[n]];
      hide Gain, WeightAt, Product, InsertSorted;
    }
  }

  /** A gain for which the places behind `p` cannot make up for one. */
  function SmallShare(n: nat): real {
    Quotient(1.0, (n + 1) as real)
  }

  lemma SmallShares(n: nat)
    ensures 0.0 < SmallShare(n) <= 1.0 && Product(SmallShare(n), n as real) < 1.0
  {
    assert SmallShare(n) * (n + 1) as real == 1.0;
  }

  lemma FlatWeights(k: nat, high: seq<real>, best: seq<real>, p: nat, low: real)
    requires IsLog(Flat()) && IsDescending(high) && IsDescending(best) && Undominated(best, high, p)
    requires p < k && |best| <= k && 0.0 < low <= 1.0 && Product(low, |best| as real) < 1.0
    ensures var gain := Threshold(high[p], low);
      IsGain(gain) && Weighted(gain, Flat(), k, best) < Weighted(gain, Flat(), k, high)
  {
    hide Flat, IsLog, Weighted, WeightSum, Ceiling, IsGain, Threshold, IsDescending, Product;
    UndominatedWeights(Flat(), k, high, best, p, low);
    FlatCeiling(k, |best|, p, low);
    FlatSum(k, p + 1);
    ThresholdIsGain(high[p], low);
  }

  lemma UndominatedExceeds(relevances: seq<real>, ideals: seq<real>, p: nat) returns (gain: real -> real)
    requires !NonePositive(ideals) && IsLog(Flat())
    requires Undominated(Sort(Descending, ideals), Sort(Descending, relevances), p)
    ensures IsGain(gain) && NdcgAgainst(gain, Flat(), relevances, ideals, |relevances| + |ideals|) > 1.0
  {
    PlaceOf(Sort(Descending, ideals), Sort(Descending, relevances), p);
    hide *;
    var sorted, best, low := Sort(Descending, relevances), Sort(Descending, ideals), SmallShare(|ideals|);
    var k := |relevances| + |ideals|;
    gain := Threshold(sorted[p], low);
    SortedIsDescending(relevances);
    SortedIsDescending(ideals);
    SmallShares(|ideals|);
    FlatWeights(k, sorted, best, p, low);
    FlatSort(gain, k, relevances);
    ScoreAboveOne(gain, Flat(), relevances, ideals, k);
  }

  lemma PlaceOf(best: seq<real>, high: seq<real>, p: nat)
    requires Undominated(best, high, p)
    ensures p < |high|
  {
  }

  /** For any one order of the results: an explicit ideal list bounds the score by 1, for every gain, every
      logarithm and every cut-off, exactly when it has nothing relevant or dominates the results. */
  lemma IdealBoundsEveryLogarithm(relevances: seq<real>, ideals: seq<real>)
    ensures (forall gain: real -> real, log: nat -> real, k: int :: IsGain(gain) && IsLog(log) ==>
               NdcgAgainst(gain, log, relevances, ideals, k) <= 1.0)
       <==> NonePositive(ideals) || Dominates(Sort(Descending, ideals), Sort(Descending, relevances))
  {
    hide NdcgAgainst, IsGain, NonePositive, IsLog, Sort;
    if NonePositive(ideals) || Dominates(Sort(Descending, ideals), Sort(Descending, relevances)) {
      hide Dominates;
      forall gain: real -> real, log: nat -> real, k: int | IsGain(gain) && IsLog(log)
        ensures NdcgAgainst(gain, log, relevances, ideals, k) <= 1.0
      {
        if NonePositive(ideals) {
          WorthlessIdeals(gain, log, relevances, ideals, k);
        } else {
          DominatingIdealBounds(gain, log, relevances, ideals, k);
        }
      }
    } else {
      var p := NotDominated(Sort(Descending, ideals), Sort(Descending, relevances));
      FlatIsLog();
      var gain := UndominatedExceeds(relevances, ideals, p);
    }
  }

  /** Two results of one expected type, whose ideal list has one entry: whatever the gain, the score exceeds 1. */
  lemma ExplicitIdealExceedsOne(gain: real -> real, log: nat -> real, r: real, k: int)
    requires IsGain(gain) && IsLog(log) && r > 0.0 && k >= 2
    ensures NdcgAgainst(gain, log, [r, r], [r], k) > 1.0
  {
    assert Sort(Descending, [r]) == [r];
    assert [r, r][..1] == [r];
    var ideal, second := Quotient(gain(r), log(2)), Quotient(gain(r), log(3));
    assert Dcg(gain, log, [r]) == ideal && Dcg(gain, log, [r, r]) == ideal + second;
    QuotientIsProduct(gain(r), log(2));
    QuotientIsProduct(gain(r), log(3));
    assert ideal > 0.0 && second > 0.0;
    MoreThanWhole(ideal, second);
  }

  lemma MoreThanWhole(a: real, b: real)
    requires a > 0.0 && b > 0.0
    ensures Quotient(a + b, a) > 1.0
  {
    assert ((a + b) / a) * a == a + b;
  }

  /** A relevant result on the second rank behind an irrelevant one scores log2 / log3. */
  lemma SecondRankScore(gain: real -> real, log: nat -> real, r: real, k: int)
    requires IsGain(gain) && IsLog(log) && r > 0.0 && k >= 2
    ensures NdcgAt(gain, log, [0.0, r], k) == log(2) / log(3)
    ensures NdcgAt(gain, log, [0.0, r], 1) == 0.0
  {
    var s := [0.0, r];
    assert s[..1] == [0.0] && s[..1][..0] == [];
    assert Sort(Descending, [0.0]) == [0.0];
    assert Sort(Descending, s) == InsertSorted(Descending, [0.0], r) == [r, 0.0] by {
      assert [0.0][..0] == [] && InsertSorted(Descending, [], r) == [r];
    }
    assert [r, 0.0][..1] == [r] && [r][..0] == [];
    assert Quotient(0.0, log(2)) == 0.0 && Quotient(0.0, log(3)) == 0.0;
    assert Dcg(gain, log, [0.0]) == 0.0 && Dcg(gain, log, s) == Quotient(gain(r), log(3));
    assert Dcg(gain, log, [r]) == Quotient(gain(r), log(2)) && Dcg(gain, log, [r, 0.0]) == Quotient(gain(r), log(2));
    RatioOfQuotients(gain(r), log(2), log(3));
    assert Quotient(0.0, Quotient(gain(r), log(2))) == 0.0;
  }

  lemma RatioOfQuotients(g: real, a: real, b: real)
    requires g > 0.0 && a > 0.0 && b > 0.0
    ensures Quotient(g, a) > 0.0 && Quotient(Quotient(g, b), Quotient(g, a)) == a / b
  {
    var x, y := g / a, g / b;
    assert x * a == g && y * b == g && x > 0.0;
    assert (a / b) * b == a;
    assert y * b == x * a == x * ((a / b) * b) == (x * (a / b)) * b;
    assert y == x * (a / b);
    assert (y / x) * x == y;
  }
}
