/** Result types shared by the model. */
module Common {

  datatype Option<+T> = None | Some(value: T)

  /** The repository's own error classes. */
  datatype Error =
    | IngestionError
    | PersistenceError
    | MemoryNotFoundError
    | LifecycleError
    | RetrievalError
    | PrivacyError

  datatype Result<+T> = Ok(value: T) | Err(error: Error)

  function Min(a: int, b: int): int {
    if a <= b then a else b
  }

  function Max(a: int, b: int): int {
    if a >= b then a else b
  }

  ghost predicate NoDuplicates<T(!new)>(s: seq<T>) {
    forall i, j :: 0 <= i < j < |s| ==> s[i] != s[j]
  }

  lemma NoDuplicatesAppend<T(!new)>(a: seq<T>, b: seq<T>)
    ensures NoDuplicates(a + b) <==> NoDuplicates(a) && NoDuplicates(b) && (forall x :: x in a ==> x !in b)
  {
    var s := a + b;
    assert forall i :: 0 <= i < |a| ==> a[i] == s[i];
    assert forall j :: 0 <= j < |b| ==> b[j] == s[|a| + j];
    if NoDuplicates(s) {
      forall x | x in a ensures x !in b {
        var i :| 0 <= i < |a| && a[i] == x;
        forall j | 0 <= j < |b| ensures b[j] != x {
          assert s[i] != s[|a| + j];
        }
      }
    }
    if NoDuplicates(a) && NoDuplicates(b) && (forall x :: x in a ==> x !in b) {
      forall i, j | 0 <= i < j < |s| ensures s[i] != s[j] {
        if i < |a| && j >= |a| {
          assert s[i] in a && s[j] in b;
        }
      }
    }
  }

  lemma NoDuplicatesPrefix<T(!new)>(s: seq<T>, k: nat)
    requires NoDuplicates(s) && k < |s|
    ensures s[k] !in s[..k]
  {
  }

  /** The members of `s` at `indices`. */
  function Pick<T>(s: seq<T>, indices: seq<nat>): (r: seq<T>)
    requires forall i :: 0 <= i < |indices| ==> indices[i] < |s|
    ensures |r| == |indices|
  {
    seq(|indices|, i requires 0 <= i < |indices| => s[indices[i]])
  }

  lemma SameMembersNoDuplicates<T(!new)>(a: seq<T>, b: seq<T>)
    requires multiset(a) == multiset(b) && NoDuplicates(a)
    ensures NoDuplicates(b)
  {
    forall i, j | 0 <= i < j < |b| ensures b[i] != b[j] {
      if b[i] == b[j] {
        TwiceIsTwo(b, i, j);
        OnceIsOne(a, b[i]);
        assert false;
      }
    }
  }

  lemma {:induction false} OnceIsOne<T(!new)>(a: seq<T>, x: T)
    requires NoDuplicates(a)
    ensures multiset(a)[x] <= 1
  {
    if a != [] {
      OnceIsOne(a[1..], x);
      assert a == [a[0]] + a[1..];
      if a[0] == x {
        assert forall i :: 0 <= i < |a[1..]| ==> a[1..][i] == a[i + 1];
        assert x !in a[1..];
      }
    }
  }

  lemma TwiceIsTwo<T>(b: seq<T>, i: nat, j: nat)
    requires i < j < |b| && b[i] == b[j]
    ensures multiset(b)[b[i]] >= 2
  {
    assert b == b[..i] + [b[i]] + b[i + 1..j] + [b[j]] + b[j + 1..];
  }

  lemma CancelOne<T(!new)>(p: multiset<T>, l: multiset<T>, r: multiset<T>, x: T)
    requires p + multiset{x} == l + multiset{x} + r
    ensures p == l + r
  {
    forall y ensures p[y] == (l + r)[y] {
      assert (p + multiset{x})[y] == (l + multiset{x} + r)[y];
    }
  }

  lemma WithoutOne<T(!new)>(a: seq<T>, b: seq<T>, i: nat)
    requires multiset(a) == multiset(b) && a != [] && i < |b| && b[i] == a[|a| - 1]
    ensures multiset(a[..|a| - 1]) == multiset(b[..i] + b[i + 1..])
  {
    var p, l, r, x := a[..|a| - 1], b[..i], b[i + 1..], b[i];
    assert a == p + [x] && b == l + [x] + r;
    CancelOne(multiset(p), multiset(l), multiset(r), x);
  }
}
