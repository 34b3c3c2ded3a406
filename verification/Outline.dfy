/** When is the heading stack of `extract_sections` the chain of enclosing headings? */
module Outline {
  import opened Common
  import opened Markdown

  /** Levels of the headings, in document order; all positive. */
  predicate Positive(levels: seq<int>) {
    forall i :: 0 <= i < |levels| ==> levels[i] >= 1
  }

  /** The last position before `i` whose level is below `level`. */
  function LastBelow(levels: seq<int>, i: nat, level: int): (p: Option<nat>)
    requires i <= |levels|
    ensures p.Some? ==> p.value < i && levels[p.value] < level
  {
    if i == 0 then None
    else if levels[i - 1] < level then Some(i - 1)
    else LastBelow(levels, i - 1, level)
  }

  /** Heading `i` and its enclosing headings, outermost first: the parent of a heading is the nearest
      earlier heading of a smaller level. */
  function Enclosing(levels: seq<int>, i: nat): (chain: seq<nat>)
    requires i < |levels|
    ensures |chain| > 0 && chain[|chain| - 1] == i
    ensures forall k :: 0 <= k < |chain| ==> chain[k] <= i
    decreases i
  {
    match LastBelow(levels, i, levels[i])
    case None => [i]
    case Some(parent) => Enclosing(levels, parent) + [i]
  }

  /** The chain that is open after the first `n` headings. */
  function OpenChain(levels: seq<int>, n: nat): (chain: seq<nat>)
    requires n <= |levels|
    ensures forall k :: 0 <= k < |chain| ==> chain[k] < n
  {
    if n == 0 then [] else Enclosing(levels, n - 1)
  }

  /** The positions on the code's stack after the first `n` headings. */
  function Stack(levels: seq<int>, n: nat): (stack: seq<nat>)
    requires n <= |levels|
    ensures forall k :: 0 <= k < |stack| ==> stack[k] < n
  {
    if n == 0 then []
    else
      var stack := Stack(levels, n - 1);
      stack[..Min(Max(levels[n - 1] - 1, 0), |stack|)] + [n - 1]
  }

  /** Number of leading members of `chain` whose level is below `level`. */
  function CountBelow(levels: seq<int>, chain: seq<nat>, level: int): (n: nat)
    requires forall k :: 0 <= k < |chain| ==> chain[k] < |levels|
    ensures n <= |chain|
    ensures forall k :: 0 <= k < n ==> levels[chain[k]] < level
    ensures n < |chain| ==> levels[chain[n]] >= level
  {
    if chain == [] || levels[chain[0]] >= level then 0 else 1 + CountBelow(levels, chain[1..], level)
  }

  predicate Ascending(levels: seq<int>, chain: seq<nat>)
    requires forall k :: 0 <= k < |chain| ==> chain[k] < |levels|
  {
    forall j, k :: 0 <= j < k < |chain| ==> levels[chain[j]] < levels[chain[k]]
  }

  lemma {:induction false} ChainAscends(levels: seq<int>, i: nat)
    requires i < |levels|
    ensures Ascending(levels, Enclosing(levels, i))
    decreases i
  {
    match LastBelow(levels, i, levels[i])
    case None =>
    case Some(parent) => ChainAscends(levels, parent);
  }

  lemma CountBelowUnique(levels: seq<int>, chain: seq<nat>, level: int, n: nat)
    requires forall k :: 0 <= k < |chain| ==> chain[k] < |levels|
    requires Ascending(levels, chain) && n <= |chain|
    requires n > 0 ==> levels[chain[n - 1]] < level
    requires n < |chain| ==> levels[chain[n]] >= level
    ensures CountBelow(levels, chain, level) == n
  {
  }

  lemma {:induction false} CountBelowSnoc(levels: seq<int>, chain: seq<nat>, last: nat, level: int)
    requires forall k :: 0 <= k < |chain| ==> chain[k] < |levels|
    requires last < |levels| && levels[last] >= level
    ensures CountBelow(levels, chain + [last], level) == CountBelow(levels, chain, level)
    ensures (chain + [last])[..CountBelow(levels, chain, level)] == chain[..CountBelow(levels, chain, level)]
  {
    if chain != [] {
      assert (chain + [last])[1..] == chain[1..] + [last];
      CountBelowSnoc(levels, chain[1..], last, level);
    }
  }

  function ChainTo(levels: seq<int>, i: Option<nat>): seq<nat>
    requires i.Some? ==> i.value < |levels|
  {
    match i
    case None => []
    case Some(p) => Enclosing(levels, p)
  }

  /** The chain that a heading of level `level` extends. */
  function ParentOf(levels: seq<int>, n: nat, level: int): seq<nat>
    requires n <= |levels|
  {
    ChainTo(levels, LastBelow(levels, n, level))
  }

  lemma WholeChainIsParent(levels: seq<int>, last: nat, level: int)
    requires last < |levels| && levels[last] < level
    ensures var open := Enclosing(levels, last);
      open[..CountBelow(levels, open, level)] == ParentOf(levels, last + 1, level)
  {
    var open := Enclosing(levels, last);
    ChainAscends(levels, last);
    assert LastBelow(levels, last + 1, level) == Some(last);
    hide Enclosing, LastBelow, CountBelow;
    CountBelowUnique(levels, open, level, |open|);
    assert open[..|open|] == open;
  }

  lemma NoParent(levels: seq<int>, last: nat, level: int)
    requires last < |levels| && levels[last] >= level && LastBelow(levels, last, levels[last]).None?
    ensures var open := Enclosing(levels, last);
      open[..CountBelow(levels, open, level)] == ParentOf(levels, last + 1, level)
  {
    assert Enclosing(levels, last) == [last];
    hide Enclosing, LastBelow, CountBelow;
    NotBelow(levels, last, level);
    NoneBelow(levels, last, level, levels[last]);
    CountBelowUnique(levels, [last], level, 0);
  }

  lemma ParentOfParent(levels: seq<int>, last: nat, level: int, p: nat)
    requires last < |levels| && levels[last] >= level && LastBelow(levels, last, levels[last]) == Some(p)
    requires var open := Enclosing(levels, p); open[..CountBelow(levels, open, level)] == ParentOf(levels, p + 1, level)
    ensures var open := Enclosing(levels, last);
      open[..CountBelow(levels, open, level)] == ParentOf(levels, last + 1, level)
  {
    SameParent(levels, last, level, p);
    assert Enclosing(levels, last) == Enclosing(levels, p) + [last];
    hide *;
    CountBelowSnoc(levels, Enclosing(levels, p), last, level);
  }

  lemma SameParent(levels: seq<int>, last: nat, level: int, p: nat)
    requires last < |levels| && levels[last] >= level && LastBelow(levels, last, levels[last]) == Some(p)
    ensures ParentOf(levels, last + 1, level) == ParentOf(levels, p + 1, level)
  {
    hide Enclosing, LastBelow, ChainTo;
    NotBelow(levels, last, level);
    SkipHigher(levels, last, level, levels[last]);
  }

  lemma NotBelow(levels: seq<int>, i: nat, level: int)
    requires i < |levels| && levels[i] >= level
    ensures LastBelow(levels, i + 1, level) == LastBelow(levels, i, level)
  {
  }

  /** The chain that a heading of level `level` extends is the part of the open chain below `level`. */
  lemma {:induction false} ParentChain(levels: seq<int>, n: nat, level: int)
    requires n <= |levels|
    ensures var open := OpenChain(levels, n);
      open[..CountBelow(levels, open, level)] == ParentOf(levels, n, level)
    decreases n
  {
    hide Enclosing, LastBelow, CountBelow, ParentOf;
    if n == 0 {
      NothingOpen(levels, level);
    } else {
      var last := n - 1;
      if levels[last] < level {
        WholeChainIsParent(levels, last, level);
      } else {
        match LastBelow(levels, last, levels[last])
        case None => NoParent(levels, last, level);
        case Some(p) =>
          ParentChain(levels, p + 1, level);
          ParentOfParent(levels, last, level, p);
      }
    }
  }

  lemma NothingOpen(levels: seq<int>, level: int)
    ensures OpenChain(levels, 0) == [] && ParentOf(levels, 0, level) == [] && CountBelow(levels, [], level) == 0
  {
  }

  lemma {:induction false} NoneBelow(levels: seq<int>, i: nat, level: int, bound: int)
    requires i <= |levels| && level <= bound && LastBelow(levels, i, bound).None?
    ensures LastBelow(levels, i, level).None?
  {
    if i > 0 {
      NoneBelow(levels, i - 1, level, bound);
    }
  }

  /** Positions between the last one below `bound` and `i` are not below `level` either. */
  lemma {:induction false} SkipHigher(levels: seq<int>, i: nat, level: int, bound: int)
    requires i <= |levels| && level <= bound && LastBelow(levels, i, bound).Some?
    ensures LastBelow(levels, i, level) == LastBelow(levels, LastBelow(levels, i, bound).value + 1, level)
  {
    if levels[i - 1] >= bound {
      SkipHigher(levels, i - 1, level, bound);
    }
  }

  /** A new heading keeps exactly the open headings of smaller level when it is deeper than all of them,
      or when the open chain starts with levels 1, 2, ..., level - 1. */
  predicate Fits(levels: seq<int>, n: nat)
    requires n < |levels|
  {
    var open := OpenChain(levels, n);
    || (forall k :: 0 <= k < |open| ==> levels[open[k]] < levels[n])
    || (|open| >= levels[n] - 1 && forall k :: 0 <= k < levels[n] - 1 ==> levels[open[k]] == k + 1)
  }

  lemma AscendingAtLeast(levels: seq<int>, chain: seq<nat>, k: nat)
    requires forall i :: 0 <= i < |chain| ==> chain[i] < |levels|
    requires Positive(levels) && Ascending(levels, chain) && k < |chain|
    ensures levels[chain[k]] >= k + 1
  {
    if k > 0 {
      AscendingAtLeast(levels, chain, k - 1);
    }
  }

  /** If the first `m` levels stay at most `m`, they are 1, 2, ..., m. */
  lemma {:induction false} AscendingExact(levels: seq<int>, chain: seq<nat>, m: nat, k: nat)
    requires forall i :: 0 <= i < |chain| ==> chain[i] < |levels|
    requires Positive(levels) && Ascending(levels, chain) && k < m <= |chain|
    requires levels[chain[m - 1]] <= m
    ensures levels[chain[k]] == k + 1
    decreases m
  {
    AscendingAtLeast(levels, chain, k);
    if k < m - 1 {
      assert levels[chain[m - 2]] < levels[chain[m - 1]];
      AscendingExact(levels, chain, m - 1, k);
    }
  }

  lemma SameLengthSameSlice(chain: seq<nat>, a: nat, b: nat, n: nat)
    requires a <= |chain| && b <= |chain|
    ensures chain[..a] + [n] == chain[..b] + [n] <==> a == b
  {
    assert |chain[..a] + [n]| == a + 1 && |chain[..b] + [n]| == b + 1;
  }

  /** One step: from a correct stack, the code's slice is the enclosing chain exactly when the heading fits. */
  lemma StepIsChain(levels: seq<int>, n: nat)
    requires Positive(levels) && n < |levels| && Stack(levels, n) == OpenChain(levels, n)
    ensures Stack(levels, n + 1) == OpenChain(levels, n + 1) <==> Fits(levels, n)
  {
    hide CountBelow, Ascending, LastBelow;
    var open, level := OpenChain(levels, n), levels[n];
    var kept, below := Min(level - 1, |open|), CountBelow(levels, open, level);
    ParentChain(levels, n, level);
    SameLengthSameSlice(open, kept, below, n);
    OpenChainAscends(levels, n);
    KeptIsBelow(levels, open, level);
  }

  lemma OpenChainAscends(levels: seq<int>, n: nat)
    requires n <= |levels|
    ensures Ascending(levels, OpenChain(levels, n))
  {
    if n > 0 {
      ChainAscends(levels, n - 1);
    }
  }

  lemma KeptIsBelow(levels: seq<int>, open: seq<nat>, level: int)
    requires forall i :: 0 <= i < |open| ==> open[i] < |levels|
    requires Positive(levels) && Ascending(levels, open) && level >= 1
    ensures Min(level - 1, |open|) == CountBelow(levels, open, level) <==>
      || (forall k :: 0 <= k < |open| ==> levels[open[k]] < level)
      || (|open| >= level - 1 && forall k :: 0 <= k < level - 1 ==> levels[open[k]] == k + 1)
  {
    var below := CountBelow(levels, open, level);
    if below > 0 {
      AscendingAtLeast(levels, open, below - 1);
    }
    assert below <= level - 1;
    if below == level - 1 {
      forall k | 0 <= k < level - 1 ensures levels[open[k]] == k + 1 {
        AscendingExact(levels, open, level - 1, k);
      }
    }
  }

  lemma {:induction false} FittingStack(levels: seq<int>, n: nat)
    requires Positive(levels) && n <= |levels|
    requires forall m :: 0 <= m < n ==> Fits(levels, m)
    ensures Stack(levels, n) == OpenChain(levels, n)
  {
    if n == 0 {
      assert Stack(levels, 0) == [] && OpenChain(levels, 0) == [];
    } else {
      hide *;
      FittingStack(levels, n - 1);
      StepIsChain(levels, n - 1);
    }
  }

  /** The stack is the chain of enclosing headings after every heading, exactly when every heading fits. */
  lemma StackIsChain(levels: seq<int>)
    requires Positive(levels)
    ensures (forall m :: 0 <= m <= |levels| ==> Stack(levels, m) == OpenChain(levels, m)) <==>
      (forall m :: 0 <= m < |levels| ==> Fits(levels, m))
  {
    hide *;
    if forall m :: 0 <= m <= |levels| ==> Stack(levels, m) == OpenChain(levels, m) {
      forall m | 0 <= m < |levels| ensures Fits(levels, m) {
        assert Stack(levels, m + 1) == OpenChain(levels, m + 1);
        StepIsChain(levels, m);
      }
    }
    if forall m :: 0 <= m < |levels| ==> Fits(levels, m) {
      forall m | 0 <= m <= |levels| ensures Stack(levels, m) == OpenChain(levels, m) {
        FittingStack(levels, m);
      }
    }
  }

  /** No heading goes more than one level deeper than the one before it. */
  predicate NoSkips(levels: seq<int>) {
    && (levels != [] ==> levels[0] <= 1)
    && (forall i :: 0 < i < |levels| ==> levels[i] <= levels[i - 1] + 1)
  }

  /** An open chain with levels 1, 2, 3, ... */
  predicate Contiguous(levels: seq<int>, chain: seq<nat>)
    requires forall k :: 0 <= k < |chain| ==> chain[k] < |levels|
  {
    forall k :: 0 <= k < |chain| ==> levels[chain[k]] == k + 1
  }

  lemma ExtendContiguous(levels: seq<int>, open: seq<nat>, n: nat)
    requires n < |levels| && levels[n] >= 1
    requires forall k :: 0 <= k < |open| ==> open[k] < n
    requires Contiguous(levels, open) && levels[n] <= |open| + 1
    ensures CountBelow(levels, open, levels[n]) == levels[n] - 1
    ensures Contiguous(levels, open[..levels[n] - 1] + [n])
  {
    CountBelowUnique(levels, open, levels[n], levels[n] - 1);
  }

  /** The next heading keeps the part of the open chain below its level. */
  lemma OpenChainStep(levels: seq<int>, n: nat)
    requires n < |levels|
    ensures var open := OpenChain(levels, n);
      OpenChain(levels, n + 1) == open[..CountBelow(levels, open, levels[n])] + [n]
  {
    assert OpenChain(levels, n + 1) == ParentOf(levels, n, levels[n]) + [n];
    hide *;
    ParentChain(levels, n, levels[n]);
  }

  lemma {:induction false} NoSkipsOpenChain(levels: seq<int>, n: nat)
    requires Positive(levels) && NoSkips(levels) && n <= |levels|
    ensures n > 0 ==> |OpenChain(levels, n)| == levels[n - 1]
    ensures Contiguous(levels, OpenChain(levels, n))
  {
    if n > 0 {
      var open := OpenChain(levels, n - 1);
      assert levels[n - 1] >= 1 && (n == 1 ==> levels[0] <= 1 && open == []);
      assert n > 1 ==> levels[n - 1] <= levels[n - 2] + 1;
      hide *;
      NoSkipsOpenChain(levels, n - 1);
      OpenChainStep(levels, n - 1);
      ContiguousStep(levels, open, n - 1, OpenChain(levels, n));
    }
  }

  lemma ContiguousStep(levels: seq<int>, open: seq<nat>, n: nat, next: seq<nat>)
    requires n < |levels| && 1 <= levels[n] <= |open| + 1
    requires (forall k :: 0 <= k < |open| ==> open[k] < n) && Contiguous(levels, open)
    requires next == open[..CountBelow(levels, open, levels[n])] + [n]
    ensures |next| == levels[n] && (forall k :: 0 <= k < |next| ==> next[k] < |levels|) && Contiguous(levels, next)
  {
    ExtendContiguous(levels, open, n);
  }

  /** When no level is skipped, every path is the true chain of enclosing headings. */
  lemma NoSkipsStackIsChain(levels: seq<int>, n: nat)
    requires Positive(levels) && NoSkips(levels) && n <= |levels|
    ensures Stack(levels, n) == OpenChain(levels, n)
  {
    forall m | 0 <= m < n ensures Fits(levels, m) {
      NoSkipsOpenChain(levels, m);
    }
    FittingStack(levels, n);
  }

  // ---------- back to titles ----------

  function Levels(hs: seq<Heading>): seq<int> {
    seq(|hs|, i requires 0 <= i < |hs| => hs[i].level)
  }

  function Titles(hs: seq<Heading>, positions: seq<nat>): seq<string>
    requires forall k :: 0 <= k < |positions| ==> positions[k] < |hs|
  {
    seq(|positions|, k requires 0 <= k < |positions| => hs[positions[k]].title)
  }

  /** The titles that the parser keeps are those of the stacked positions. */
  lemma {:induction false} HeadingPathIsStack(hs: seq<Heading>, n: nat)
    requires n <= |hs|
    ensures HeadingPath(hs[..n]) == Titles(hs, Stack(Levels(hs), n))
  {
    if n > 0 {
      HeadingPathIsStack(hs, n - 1);
      assert hs[..n][..n - 1] == hs[..n - 1];
    }
  }

  /** For a document that skips no heading level, a section's path names its enclosing headings. */
  lemma NoSkipsHeadingPath(hs: seq<Heading>)
    requires Positive(Levels(hs)) && NoSkips(Levels(hs))
    ensures HeadingPath(hs) == Titles(hs, OpenChain(Levels(hs), |hs|))
  {
    NoSkipsStackIsChain(Levels(hs), |hs|);
    HeadingPathIsStack(hs, |hs|);
    assert hs[..|hs|] == hs;
  }

  /** A level-3 heading followed by a level-2 heading: the code files the second under the first. */
  lemma SkippedLevelGoesWrong()
    ensures var hs := [Heading(3, "deep"), Heading(2, "shallow"), Heading(3, "next")];
      && HeadingPath(hs[..2]) == ["deep", "shallow"]
      && OpenChain(Levels(hs), 2) == [1]
  {
    var hs := [Heading(3, "deep"), Heading(2, "shallow"), Heading(3, "next")];
    var levels := Levels(hs);
    assert levels == [3, 2, 3];
    assert hs[..1] == [hs[0]] && hs[..2] == [hs[0], hs[1]];
    assert hs[..2][..1] == hs[..1];
    assert HeadingPath([]) == [];
    assert HeadingPath(hs[..1]) == ["deep"];
    assert LastBelow(levels, 0, 2) == None;
    assert LastBelow(levels, 1, 2) == None;
    assert Enclosing(levels, 1) == [1];
  }
}
