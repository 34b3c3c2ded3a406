/** Who owns which key while candidates are deduplicated, independently of what the candidates hold. */
module Ownership {
  import opened Common

  type Keys = seq<string>

  /** `owners`: the kept candidates by index; `byKey`: `owner_by_key`, an index into `owners`;
      `group`: the place in `owners` that each candidate went to. */
  datatype Assignment = Assignment(owners: seq<nat>, byKey: map<string, nat>, group: seq<nat>)

  /** `next((owner_by_key[key] for key in keys if key in owner_by_key), None)` */
  function FirstOwned(keys: Keys, byKey: map<string, nat>): (r: Option<nat>)
    ensures r.None? ==> forall k :: k in keys ==> k !in byKey
    ensures r.Some? ==> exists k :: k in keys && k in byKey && byKey[k] == r.value
  {
    if keys == [] then None
    else if keys[0] in byKey then Some(byKey[keys[0]])
    else FirstOwned(keys[1..], byKey)
  }

  function Claim(byKey: map<string, nat>, keys: Keys, owner: nat): map<string, nat> {
    map k | k in byKey.Keys + (set x | x in keys) :: if k in keys then owner else byKey[k]
  }

  function AssignOne(a: Assignment, i: nat, keys: Keys): Assignment {
    match FirstOwned(keys, a.byKey)
    case None => Assignment(a.owners + [i], Claim(a.byKey, keys, |a.owners|), a.group + [|a.owners|])
    case Some(owner) => Assignment(a.owners, Claim(a.byKey, keys, owner), a.group + [owner])
  }

  function Assign(ks: seq<Keys>): Assignment {
    if ks == [] then Assignment([], map[], []) else AssignOne(Assign(ks[..|ks| - 1]), |ks| - 1, ks[|ks| - 1])
  }

  lemma AssignSnoc(ks: seq<Keys>)
    requires ks != []
    ensures Assign(ks) == AssignOne(Assign(ks[..|ks| - 1]), |ks| - 1, ks[|ks| - 1])
  {
    hide AssignOne;
  }

  // ---------- shape ----------

  ghost predicate Shape(a: Assignment, n: nat) {
    && |a.group| == n
    && (forall i :: 0 <= i < n ==> a.group[i] < |a.owners|)
    && (forall j :: 0 <= j < |a.owners| ==> a.owners[j] < n && a.group[a.owners[j]] == j)
    && (forall k :: k in a.byKey ==> a.byKey[k] < |a.owners|)
    && (forall i, j :: 0 <= i < j < |a.owners| ==> a.owners[i] < a.owners[j])
  }

  lemma {:induction false} AssignShape(ks: seq<Keys>)
    ensures Shape(Assign(ks), |ks|)
  {
    if ks != [] {
      AssignShape(ks[..|ks| - 1]);
    }
  }

  /** Every key seen so far has an owner, and some candidate of that owner's group carries it. */
  ghost predicate Held(a: Assignment, ks: seq<Keys>)
    requires Shape(a, |ks|)
  {
    && (forall i, k :: 0 <= i < |ks| && k in ks[i] ==> k in a.byKey)
    && (forall k :: k in a.byKey ==> exists i :: 0 <= i < |ks| && k in ks[i] && a.group[i] == a.byKey[k])
  }

  lemma {:induction false} AssignHolds(ks: seq<Keys>)
    ensures Shape(Assign(ks), |ks|) && Held(Assign(ks), ks)
  {
    AssignShape(ks);
    if ks != [] {
      var n := |ks| - 1;
      AssignHolds(ks[..n]);
      var before, after := Assign(ks[..n]), Assign(ks);
      forall k | k in after.byKey
        ensures exists i :: 0 <= i < |ks| && k in ks[i] && after.group[i] == after.byKey[k]
      {
        if k in ks[n] {
          assert after.group[n] == after.byKey[k];
        } else {
          var i :| 0 <= i < n && k in ks[..n][i] && before.group[i] == before.byKey[k];
          assert k in ks[i] && after.group[i] == after.byKey[k];
        }
      }
      forall i, k | 0 <= i < |ks| && k in ks[i] ensures k in after.byKey {
        if i < n {
          assert ks[..n][i] == ks[i];
        }
      }
    }
  }

  // ---------- what is kept ----------

  ghost predicate Share(a: Keys, b: Keys) {
    exists k :: k in a && k in b
  }

  ghost predicate PairwiseUnshared(ks: seq<Keys>) {
    forall i, j :: 0 <= i < j < |ks| ==> !Share(ks[i], ks[j])
  }

  lemma {:induction false} OwnersShareNoKey(ks: seq<Keys>)
    ensures Shape(Assign(ks), |ks|) && PairwiseUnshared(Pick(ks, Assign(ks).owners))
  {
    AssignShape(ks);
    if ks != [] {
      var n := |ks| - 1;
      var before, after := Assign(ks[..n]), Assign(ks);
      OwnersShareNoKey(ks[..n]);
      AssignHolds(ks[..n]);
      var was, now := Pick(ks[..n], before.owners), Pick(ks, after.owners);
      assert forall j :: 0 <= j < |was| ==> now[j] == was[j];
      forall i, j | 0 <= i < j < |now| ensures !Share(now[i], now[j]) {
        if j < |was| {
          assert !Share(was[i], was[j]);
        } else {
          assert forall k :: k in ks[..n][before.owners[i]] ==> k in before.byKey;
        }
      }
    }
  }

  lemma OwnedKeyIsShared(ks: seq<Keys>, k: string)
    requires ks != [] && k in ks[|ks| - 1] && k in Assign(ks[..|ks| - 1]).byKey
    ensures !PairwiseUnshared(ks)
  {
    var n := |ks| - 1;
    AssignHolds(ks[..n]);
    var i :| 0 <= i < n && k in ks[..n][i];
    assert Share(ks[i], ks[n]);
  }

  /** Candidates that share no key all stay, each its own owner: a second pass changes nothing. */
  lemma {:induction false} UnsharedAllStay(ks: seq<Keys>)
    requires PairwiseUnshared(ks)
    ensures Assign(ks).owners == seq(|ks|, i requires 0 <= i < |ks| => i)
    ensures ks != [] ==> FirstOwned(ks[|ks| - 1], Assign(ks[..|ks| - 1]).byKey).None?
  {
    if ks != [] {
      var n := |ks| - 1;
      UnsharedAllStay(ks[..n]);
      var before := Assign(ks[..n]);
      forall k | k in ks[n] ensures k !in before.byKey {
        if k in before.byKey {
          OwnedKeyIsShared(ks, k);
          assert false;
        }
      }
    }
  }

  // ---------- chains of shared keys ----------

  /** Consecutive candidates share a key. */
  ghost predicate IsChain(ks: seq<Keys>, p: seq<nat>) {
    && p != []
    && (forall t :: 0 <= t < |p| ==> p[t] < |ks|)
    && (forall t :: 0 <= t < |p| - 1 ==> Share(ks[p[t]], ks[p[t + 1]]))
  }

  ghost predicate Joins(p: seq<nat>, a: nat, b: nat) {
    p != [] && p[0] == a && p[|p| - 1] == b
  }

  ghost predicate Linked(ks: seq<Keys>, a: nat, b: nat) {
    exists p :: IsChain(ks, p) && Joins(p, a, b)
  }

  /** All members of the chain ended up in one group. */
  ghost predicate Within(p: seq<nat>, group: seq<nat>, g: nat) {
    forall t :: 0 <= t < |p| ==> p[t] < |group| && group[p[t]] == g
  }

  ghost predicate LinkedToOwner(ks: seq<Keys>, a: Assignment, i: nat)
    requires Shape(a, |ks|) && i < |ks|
  {
    exists p :: IsChain(ks, p) && Joins(p, i, a.owners[a.group[i]]) && Within(p, a.group, a.group[i])
  }

  lemma ChainExtends(ks: seq<Keys>, more: seq<Keys>, p: seq<nat>)
    requires IsChain(ks, p) && ks <= more
    ensures IsChain(more, p)
  {
    forall t | 0 <= t < |p| - 1 ensures Share(more[p[t]], more[p[t + 1]]) {
      assert ks[p[t]] == more[p[t]] && ks[p[t + 1]] == more[p[t + 1]];
    }
  }

  ghost predicate AllLinked(ks: seq<Keys>, a: Assignment)
    requires Shape(a, |ks|)
  {
    forall i: nat :: i < |ks| ==> LinkedToOwner(ks, a, i)
  }

  lemma ChainGrows(ks: seq<Keys>, x: nat, p: seq<nat>)
    requires x < |ks| && IsChain(ks, p) && Share(ks[x], ks[p[0]])
    ensures IsChain(ks, [x] + p)
  {
    var q := [x] + p;
    forall t | 0 <= t < |q| - 1 ensures Share(ks[q[t]], ks[q[t + 1]]) {
      if t > 0 {
        assert q[t] == p[t - 1] && q[t + 1] == p[t];
      }
    }
  }

  /** A candidate that joins a group shares a key with a member, whose chain it prolongs. */
  lemma JoinsGroup(ks: seq<Keys>, before: Assignment, g: nat, i: nat, k: string)
    requires ks != [] && Shape(before, |ks| - 1)
    requires i < |ks| - 1 && k in ks[i] && k in ks[|ks| - 1] && before.group[i] == g < |before.owners|
    requires LinkedToOwner(ks[..|ks| - 1], before, i)
    ensures exists p :: IsChain(ks, p) && Joins(p, |ks| - 1, before.owners[g]) && Within(p, before.group + [g], g)
  {
    var n := |ks| - 1;
    var p :| IsChain(ks[..n], p) && Joins(p, i, before.owners[g]) && Within(p, before.group, g);
    ChainExtends(ks[..n], ks, p);
    assert Share(ks[n], ks[p[0]]);
    ChainGrows(ks, n, p);
    assert Joins([n] + p, n, before.owners[g]) && Within([n] + p, before.group + [g], g);
  }

  lemma NewMemberIsLinked(ks: seq<Keys>)
    requires ks != []
    requires Shape(Assign(ks[..|ks| - 1]), |ks| - 1) && AllLinked(ks[..|ks| - 1], Assign(ks[..|ks| - 1]))
    requires Shape(Assign(ks), |ks|)
    ensures LinkedToOwner(ks, Assign(ks), |ks| - 1)
  {
    var n := |ks| - 1;
    var before, after := Assign(ks[..n]), Assign(ks);
    assert after == AssignOne(before, n, ks[n]);
    AssignHolds(ks[..n]);
    hide IsChain, Share, Held, Claim, Assign, FirstOwned, LinkedToOwner;
    match FirstOwned(ks[n], before.byKey) {
      case None =>
        SelfLinked(ks, after, n);
      case Some(g) =>
        hide Shape;
        var i, k := Holder(ks, before, g);
        JoinsGroup(ks, before, g, i, k);
        assert after.owners == before.owners && after.group == before.group + [g];
        LinkedInGroup(ks, before, after, g);
    }
  }

  /** A candidate that holds the first owned key. */
  lemma Holder(ks: seq<Keys>, before: Assignment, g: nat) returns (i: nat, k: string)
    requires ks != [] && Shape(before, |ks| - 1) && Held(before, ks[..|ks| - 1])
    requires FirstOwned(ks[|ks| - 1], before.byKey) == Some(g)
    ensures i < |ks| - 1 && k in ks[i] && k in ks[|ks| - 1] && before.group[i] == g < |before.owners|
  {
    var n := |ks| - 1;
    k :| k in ks[n] && k in before.byKey && before.byKey[k] == g;
    i :| 0 <= i < n && k in ks[..n][i] && before.group[i] == g;
  }

  lemma LinkedInGroup(ks: seq<Keys>, before: Assignment, after: Assignment, g: nat)
    requires ks != [] && |before.group| == |ks| - 1 && Shape(after, |ks|) && g < |before.owners|
    requires after.owners == before.owners && after.group == before.group + [g]
    requires exists p :: IsChain(ks, p) && Joins(p, |ks| - 1, before.owners[g]) && Within(p, before.group + [g], g)
    ensures LinkedToOwner(ks, after, |ks| - 1)
  {
    hide IsChain;
  }

  lemma SelfLinked(ks: seq<Keys>, a: Assignment, n: nat)
    requires Shape(a, |ks|) && n < |ks| && a.owners[a.group[n]] == n
    ensures LinkedToOwner(ks, a, n)
  {
    assert IsChain(ks, [n]) && Joins([n], n, n) && Within([n], a.group, a.group[n]);
  }

  lemma StaysLinked(ks: seq<Keys>, before: Assignment, after: Assignment, i: nat)
    requires ks != [] && i < |ks| - 1 && Shape(before, |ks| - 1) && Shape(after, |ks|)
    requires before.owners <= after.owners && before.group <= after.group
    requires LinkedToOwner(ks[..|ks| - 1], before, i)
    ensures LinkedToOwner(ks, after, i)
  {
    var n := |ks| - 1;
    var p :| IsChain(ks[..n], p) && Joins(p, i, before.owners[before.group[i]]) && Within(p, before.group, before.group[i]);
    ChainExtends(ks[..n], ks, p);
    assert Joins(p, i, after.owners[after.group[i]]) && Within(p, after.group, after.group[i]);
  }

  /** Whatever was merged is linked to its owner by a chain of shared keys inside its own group. */
  lemma {:induction false} MembersAreLinked(ks: seq<Keys>)
    ensures Shape(Assign(ks), |ks|) && AllLinked(ks, Assign(ks))
  {
    AssignShape(ks);
    if ks != [] {
      var n := |ks| - 1;
      MembersAreLinked(ks[..n]);
      NewMemberIsLinked(ks);
      var before, after := Assign(ks[..n]), Assign(ks);
      forall i: nat | i < |ks| ensures LinkedToOwner(ks, after, i) {
        if i < n {
          StaysLinked(ks, before, after, i);
        }
      }
    }
  }

  // ---------- when the kept candidates are one per connected component ----------

  /** Candidate `i` shares keys with two earlier candidates that nothing before it connects. */
  ghost predicate Bridges(ks: seq<Keys>, i: nat)
    requires i < |ks|
  {
    exists a, b :: 0 <= a < i && 0 <= b < i && Share(ks[a], ks[i]) && Share(ks[b], ks[i]) && !Linked(ks[..i], a, b)
  }

  ghost predicate NothingBridges(ks: seq<Keys>) {
    forall i :: 0 <= i < |ks| ==> !Bridges(ks, i)
  }

  /** No two kept candidates are connected. */
  ghost predicate OnePerComponent(ks: seq<Keys>) {
    var owners := Assign(ks).owners;
    forall i, j :: 0 <= i < |owners| && 0 <= j < |owners| && Linked(ks, owners[i], owners[j]) ==> i == j
  }

  lemma LinkedTransitive(ks: seq<Keys>, a: nat, b: nat, c: nat)
    requires Linked(ks, a, b) && Linked(ks, b, c)
    ensures Linked(ks, a, c)
  {
    var p :| IsChain(ks, p) && Joins(p, a, b);
    var q :| IsChain(ks, q) && Joins(q, b, c);
    var r := p + q[1..];
    forall t | 0 <= t < |r| - 1 ensures Share(ks[r[t]], ks[r[t + 1]]) {
      if t < |p| - 1 {
        assert r[t] == p[t] && r[t + 1] == p[t + 1];
      } else {
        assert r[t] == q[t - (|p| - 1)] && r[t + 1] == q[t + 1 - (|p| - 1)];
      }
    }
    assert IsChain(ks, r) && Joins(r, a, c);
  }

  function Backwards(p: seq<nat>): (r: seq<nat>)
    ensures |r| == |p|
  {
    seq(|p|, i requires 0 <= i < |p| => p[|p| - 1 - i])
  }

  lemma LinkedSymmetric(ks: seq<Keys>, a: nat, b: nat)
    requires Linked(ks, a, b)
    ensures Linked(ks, b, a)
  {
    var p :| IsChain(ks, p) && Joins(p, a, b);
    var r := Backwards(p);
    forall t | 0 <= t < |r| - 1 ensures Share(ks[r[t]], ks[r[t + 1]]) {
      var u := |p| - 2 - t;
      assert r[t] == p[u + 1] && r[t + 1] == p[u];
      var k :| k in ks[p[u]] && k in ks[p[u + 1]];
    }
    assert IsChain(ks, r) && Joins(r, b, a);
  }

  lemma SharingLinks(ks: seq<Keys>, a: nat, b: nat)
    requires a < |ks| && b < |ks| && Share(ks[a], ks[b])
    ensures Linked(ks, a, b)
  {
    assert IsChain(ks, [a, b]) && Joins([a, b], a, b);
  }

  lemma SameGroupIsLinked(ks: seq<Keys>, a: nat, b: nat)
    requires Shape(Assign(ks), |ks|) && a < |ks| && b < |ks| && Assign(ks).group[a] == Assign(ks).group[b]
    ensures Linked(ks, a, b)
  {
    MembersAreLinked(ks);
    var o := Assign(ks).owners[Assign(ks).group[a]];
    assert LinkedToOwner(ks, Assign(ks), a) && LinkedToOwner(ks, Assign(ks), b);
    assert Linked(ks, a, o) && Linked(ks, b, o);
    LinkedSymmetric(ks, b, o);
    LinkedTransitive(ks, a, o, b);
  }

  /** Each candidate's keys are all owned by its own group. */
  ghost predicate Clean(ks: seq<Keys>, a: Assignment)
    requires Shape(a, |ks|)
  {
    forall i, k :: 0 <= i < |ks| && k in ks[i] ==> k in a.byKey && a.byKey[k] == a.group[i]
  }

  lemma ChainTail(ks: seq<Keys>, p: seq<nat>)
    requires IsChain(ks, p) && |p| > 1
    ensures IsChain(ks, p[1..])
  {
    var q := p[1..];
    forall t | 0 <= t < |q| - 1 ensures Share(ks[q[t]], ks[q[t + 1]]) {
      assert q[t] == p[t + 1] && q[t + 1] == p[t + 1 + 1];
    }
  }

  lemma CleanKey(ks: seq<Keys>, a: Assignment, i: nat, k: string)
    requires Shape(a, |ks|) && Clean(ks, a) && i < |ks| && k in ks[i]
    ensures k in a.byKey && a.byKey[k] == a.group[i]
  {
  }

  lemma {:induction false} CleanChain(ks: seq<Keys>, a: Assignment, p: seq<nat>)
    requires Shape(a, |ks|) && Clean(ks, a) && IsChain(ks, p)
    ensures a.group[p[0]] == a.group[p[|p| - 1]]
  {
    if |p| > 1 {
      assert Share(ks[p[0]], ks[p[0 + 1]]);
      var k :| k in ks[p[0]] && k in ks[p[1]];
      CleanKey(ks, a, p[0], k);
      CleanKey(ks, a, p[1], k);
      ChainTail(ks, p);
      CleanChain(ks, a, p[1..]);
      assert p[1..][0] == p[1] && p[1..][|p[1..]| - 1] == p[|p| - 1];
    }
  }

  lemma CleanLinks(ks: seq<Keys>, a: Assignment, x: nat, y: nat)
    requires Shape(a, |ks|) && Clean(ks, a) && Linked(ks, x, y)
    ensures x < |ks| && y < |ks| && a.group[x] == a.group[y]
  {
    var p :| IsChain(ks, p) && Joins(p, x, y);
    CleanChain(ks, a, p);
  }

  lemma NoBridgeBefore(ks: seq<Keys>)
    requires NothingBridges(ks) && ks != []
    ensures NothingBridges(ks[..|ks| - 1])
  {
    var n := |ks| - 1;
    forall i | 0 <= i < n ensures !Bridges(ks[..n], i) {
      assert ks[..n][..i] == ks[..i];
      assert !Bridges(ks, i);
    }
  }

  /** As long as nothing bridges, a key never changes hands. */
  lemma {:induction false} NoBridgeIsClean(ks: seq<Keys>)
    requires NothingBridges(ks)
    ensures Shape(Assign(ks), |ks|) && Clean(ks, Assign(ks))
  {
    AssignShape(ks);
    if ks != [] {
      var n := |ks| - 1;
      var before, after := Assign(ks[..n]), Assign(ks);
      NoBridgeBefore(ks);
      NoBridgeIsClean(ks[..n]);
      assert !Bridges(ks, n);
      hide Bridges, Share, NothingBridges;
      assert after == AssignOne(before, n, ks[n]);
      hide Assign, FirstOwned;
      forall k | k in ks[n] && k in before.byKey ensures FirstOwned(ks[n], before.byKey) == Some(before.byKey[k]) {
        KeepsHands(ks, k);
      }
      CleanStep(ks, before, after);
    }
  }

  lemma CleanStep(ks: seq<Keys>, before: Assignment, after: Assignment)
    requires ks != [] && Shape(before, |ks| - 1) && Shape(after, |ks|) && after == AssignOne(before, |ks| - 1, ks[|ks| - 1])
    requires Clean(ks[..|ks| - 1], before)
    requires var keys := ks[|ks| - 1];
      forall k :: k in keys && k in before.byKey ==> FirstOwned(keys, before.byKey) == Some(before.byKey[k])
    ensures Clean(ks, after)
  {
    hide FirstOwned;
    var n := |ks| - 1;
    forall i, k | 0 <= i < |ks| && k in ks[i] ensures k in after.byKey && after.byKey[k] == after.group[i] {
      if i < n {
        assert ks[..n][i] == ks[i];
      }
    }
  }

  lemma KeepsHands(ks: seq<Keys>, k: string)
    requires ks != [] && !Bridges(ks, |ks| - 1)
    requires Shape(Assign(ks[..|ks| - 1]), |ks| - 1) && Clean(ks[..|ks| - 1], Assign(ks[..|ks| - 1]))
    requires k in ks[|ks| - 1] && k in Assign(ks[..|ks| - 1]).byKey
    ensures FirstOwned(ks[|ks| - 1], Assign(ks[..|ks| - 1]).byKey) == Some(Assign(ks[..|ks| - 1]).byKey[k])
  {
    var n := |ks| - 1;
    var before := Assign(ks[..n]);
    AssignHolds(ks[..n]);
    var g := FirstOwned(ks[n], before.byKey).value;
    var first :| first in ks[n] && first in before.byKey && before.byKey[first] == g;
    var a :| 0 <= a < n && k in ks[..n][a] && before.group[a] == before.byKey[k];
    var b :| 0 <= b < n && first in ks[..n][b] && before.group[b] == g;
    assert Share(ks[a], ks[n]) && Share(ks[b], ks[n]);
    CleanLinks(ks[..n], before, a, b);
  }

  /** The output has one candidate per connected component exactly when no candidate bridges two
      components of those before it. */
  lemma OneOwnerPerComponent(ks: seq<Keys>)
    ensures OnePerComponent(ks) <==> NothingBridges(ks)
  {
    AssignShape(ks);
    var a := Assign(ks);
    if NothingBridges(ks) {
      NoBridgeIsClean(ks);
      forall i, j | 0 <= i < |a.owners| && 0 <= j < |a.owners| && Linked(ks, a.owners[i], a.owners[j]) ensures i == j {
        CleanLinks(ks, a, a.owners[i], a.owners[j]);
      }
    } else {
      var i :| 0 <= i < |ks| && Bridges(ks, i);
      BridgeConnectsOwners(ks, i);
    }
  }

  lemma {:induction false} PrefixAssign(ks: seq<Keys>, n: nat)
    requires n <= |ks|
    ensures Assign(ks[..n]).owners <= Assign(ks).owners && Assign(ks[..n]).group <= Assign(ks).group
  {
    if n == |ks| {
      assert ks[..n] == ks;
    } else {
      var m := |ks| - 1;
      PrefixAssign(ks[..m], n);
      assert ks[..m][..n] == ks[..n];
    }
  }

  lemma OwnerIsLinked(ks: seq<Keys>, x: nat)
    requires Shape(Assign(ks), |ks|) && x < |ks|
    ensures Linked(ks, x, Assign(ks).owners[Assign(ks).group[x]])
  {
    MembersAreLinked(ks);
    assert LinkedToOwner(ks, Assign(ks), x);
  }

  lemma BridgeConnectsOwners(ks: seq<Keys>, i: nat)
    requires i < |ks| && Bridges(ks, i) && Shape(Assign(ks), |ks|)
    ensures !OnePerComponent(ks)
  {
    var all := Assign(ks);
    var x, y :| 0 <= x < i && 0 <= y < i && Share(ks[x], ks[i]) && Share(ks[y], ks[i]) && !Linked(ks[..i], x, y);
    AssignShape(ks[..i]);
    PrefixAssign(ks, i);
    if all.group[x] == all.group[y] {
      SameGroupIsLinked(ks[..i], x, y);
    }
    OwnerIsLinked(ks, x);
    OwnerIsLinked(ks, y);
    var ox, oy := all.owners[all.group[x]], all.owners[all.group[y]];
    SharingLinks(ks, x, i);
    SharingLinks(ks, i, y);
    LinkedSymmetric(ks, x, ox);
    LinkedTransitive(ks, ox, x, i);
    LinkedTransitive(ks, ox, i, y);
    LinkedTransitive(ks, ox, y, oy);
  }

  /** Among candidates that share no key, a chain stays where it is. */
  lemma {:induction false} UnsharedChain(ks: seq<Keys>, p: seq<nat>, t: nat)
    requires PairwiseUnshared(ks) && IsChain(ks, p) && t < |p|
    ensures p[t] == p[0]
  {
    if t > 0 {
      UnsharedChain(ks, p, t - 1);
      assert Share(ks[p[t - 1]], ks[p[t - 1 + 1]]);
    }
  }

  /** Two candidates without a common key, and a third that shares a key with each: both stay, although the
      third connects them. */
  lemma BridgeKeepsBoth(x: Keys, y: Keys, z: Keys)
    requires !Share(x, y) && Share(x, z) && Share(y, z)
    ensures Assign([x, y, z]).owners == [0, 1] && !OnePerComponent([x, y, z])
  {
    var two, three := [x, y], [x, y, z];
    assert three[..2] == two;
    forall i, j | 0 <= i < j < |two| ensures !Share(two[i], two[j]) {
    }
    UnsharedAllStay(two);
    AssignShape(three);
    assert Assign(two).owners == [0, 1];
    assert Share(three[0], three[2]) && Share(three[1], three[2]);
    if Linked(two, 0, 1) {
      var p :| IsChain(two, p) && Joins(p, 0, 1);
      UnsharedChain(two, p, |p| - 1);
      assert false;
    }
    assert Bridges(three, 2);
    BridgeConnectsOwners(three, 2);
    FirstKeyIsOwned(two, x, z);
    assert two + [z] == three;
  }

  lemma FirstKeyIsOwned(ks: seq<Keys>, x: Keys, z: Keys)
    requires ks != [] && ks[0] == x && Share(x, z)
    ensures FirstOwned(z, Assign(ks).byKey).Some?
    ensures Assign(ks + [z]).owners == Assign(ks).owners
  {
    AssignHolds(ks);
    var k :| k in x && k in z;
    assert (ks + [z])[..|ks|] == ks;
  }
}
