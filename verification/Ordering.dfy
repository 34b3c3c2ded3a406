/** String order and stable sorting. */
module Ordering {
  import opened Common

  // ---------- strings ----------

  /** Lexicographic order by code point. */
  predicate StrLe(a: string, b: string) {
    a == "" || (b != "" && (a[0] < b[0] || (a[0] == b[0] && StrLe(a[1..], b[1..]))))
  }

  lemma {:induction false} StrLeTotal(a: string, b: string)
    ensures StrLe(a, b) || StrLe(b, a)
    ensures StrLe(a, a)
    decreases |a| + |b|
  {
    if a != "" {
      StrLeTotal(a[1..], if b == "" then "" else b[1..]);
    }
  }

  lemma {:induction false} StrLeTransitive(a: string, b: string, c: string)
    requires StrLe(a, b) && StrLe(b, c)
    ensures StrLe(a, c)
  {
    if a != "" && a[0] == b[0] && b[0] == c[0] {
      StrLeTransitive(a[1..], b[1..], c[1..]);
    }
  }

  /** Strings are compared at the first place where they differ; a string comes before its continuations. */
  lemma {:induction false} StrLeAtDifference(a: string, b: string, i: nat)
    requires i <= |a| && i <= |b| && a[..i] == b[..i] && (i < |a| && i < |b| ==> a[i] != b[i])
    requires i == |a| || i == |b| || a[i] != b[i]
    ensures StrLe(a, b) <==> i == |a| || (i < |b| && a[i] < b[i])
  {
    if i > 0 {
      assert a[0] == a[..i][0] == b[..i][0] == b[0];
      assert a[1..][..i - 1] == a[..i][1..] && b[1..][..i - 1] == b[..i][1..];
      StrLeAtDifference(a[1..], b[1..], i - 1);
    }
  }

  // ---------- sorting ----------

  ghost predicate TotalPreorder<T(!new)>(le: (T, T) -> bool) {
    && (forall x, y :: le(x, y) || le(y, x))
    && (forall x, y, z :: le(x, y) && le(y, z) ==> le(x, z))
  }

  ghost predicate Sorted<T>(le: (T, T) -> bool, s: seq<T>) {
    forall i, j :: 0 <= i < j < |s| ==> le(s[i], s[j])
  }

  /** Put `x` behind every member that is not greater. */
  function InsertSorted<T>(le: (T, T) -> bool, s: seq<T>, x: T): (r: seq<T>)
    ensures |r| == |s| + 1
  {
    if s == [] || le(s[|s| - 1], x) then s + [x]
    else InsertSorted(le, s[..|s| - 1], x) + [s[|s| - 1]]
  }

  /** `sorted(s)`: stable. */
  function Sort<T>(le: (T, T) -> bool, s: seq<T>): (r: seq<T>)
    ensures |r| == |s|
  {
    if s == [] then [] else InsertSorted(le, Sort(le, s[..|s| - 1]), s[|s| - 1])
  }

  lemma {:induction false} InsertSortedMembers<T>(le: (T, T) -> bool, s: seq<T>, x: T)
    ensures multiset(InsertSorted(le, s, x)) == multiset(s) + multiset{x}
  {
    if s != [] && !le(s[|s| - 1], x) {
      InsertSortedMembers(le, s[..|s| - 1], x);
      assert s == s[..|s| - 1] + [s[|s| - 1]];
    }
  }

  lemma {:induction false} SortMembers<T>(le: (T, T) -> bool, s: seq<T>)
    ensures multiset(Sort(le, s)) == multiset(s)
  {
    if s != [] {
      SortMembers(le, s[..|s| - 1]);
      InsertSortedMembers(le, Sort(le, s[..|s| - 1]), s[|s| - 1]);
      assert s == s[..|s| - 1] + [s[|s| - 1]];
    }
  }

  lemma SortKeepsMembers<T>(le: (T, T) -> bool, s: seq<T>)
    ensures forall x :: x in Sort(le, s) <==> x in s
  {
    SortMembers(le, s);
    assert forall x :: x in s <==> x in multiset(s);
    assert forall x :: x in Sort(le, s) <==> x in multiset(Sort(le, s));
  }

  lemma {:induction false} InsertSortedSorts<T(!new)>(le: (T, T) -> bool, s: seq<T>, x: T)
    requires TotalPreorder(le) && Sorted(le, s)
    ensures Sorted(le, InsertSorted(le, s, x))
  {
    if s == [] {
    } else if le(s[|s| - 1], x) {
      assert forall i :: 0 <= i < |s| ==> le(s[i], s[|s| - 1]) by {
        assert le(s[|s| - 1], s[|s| - 1]);
      }
    } else {
      var init, last := s[..|s| - 1], s[|s| - 1];
      InsertSortedSorts(le, init, x);
      InsertSortedMembers(le, init, x);
      var r := InsertSorted(le, init, x);
      assert forall y :: y in r ==> le(y, last) by {
        assert forall y :: y in r ==> y in multiset(r);
        assert le(x, last);
      }
    }
  }

  lemma {:induction false} SortSorts<T(!new)>(le: (T, T) -> bool, s: seq<T>)
    requires TotalPreorder(le)
    ensures Sorted(le, Sort(le, s))
  {
    if s != [] {
      SortSorts(le, s[..|s| - 1]);
      InsertSortedSorts(le, Sort(le, s[..|s| - 1]), s[|s| - 1]);
    }
  }

  /** Sorting a sorted sequence changes nothing. */
  lemma {:induction false} SortOfSorted<T(!new)>(le: (T, T) -> bool, s: seq<T>)
    requires Sorted(le, s)
    ensures Sort(le, s) == s
  {
    if s != [] {
      var n := |s| - 1;
      SortOfSorted(le, s[..n]);
      assert s == s[..n] + [s[n]];
      if n > 0 {
        assert le(s[n - 1], s[n]);
      }
    }
  }
}
