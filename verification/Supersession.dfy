/** Chains of superseded records: when they stay free of cycles. */
module SupersessionChains {
  import opened Common
  import opened Store
  import opened Metadata
  import opened Lifecycle
  import opened Privacy
  import opened LifecycleHistory

  /** The record that replaced `id`, if one did. */
  function Link(s: Memories, id: string): Option<string> {
    if id in s then s[id].supersededBy else None
  }

  /** Where `n` links lead. */
  function Follow(s: Memories, id: string, n: nat): Option<string>
    decreases n
  {
    if n == 0 then Some(id)
    else match Link(s, id) case None => None case Some(next) => Follow(s, next, n - 1)
  }

  ghost predicate Leads(s: Memories, x: string, n: nat, y: string) {
    Follow(s, x, n) == Some(y)
  }

  ghost predicate Reaches(s: Memories, x: string, y: string) {
    exists n: nat :: Leads(s, x, n, y)
  }

  /** Some record is replaced, over one link or more, by itself. */
  ghost predicate Cyclic(s: Memories) {
    exists x, n: nat :: n > 0 && Leads(s, x, n, x)
  }

  // ---------- following links ----------

  lemma {:induction false} FollowOn(s: Memories, x: string, i: nat, y: string, j: nat)
    requires Leads(s, x, i, y)
    ensures Follow(s, x, i + j) == Follow(s, y, j)
    decreases i
  {
    if i > 0 {
      FollowOn(s, Link(s, x).value, i - 1, y, j);
    }
  }

  ghost predicate SameExceptAt(s: Memories, t: Memories, a: string) {
    forall x :: x != a ==> Link(s, x) == Link(t, x)
  }

  /** A way to `a` is no longer than that when the link of `a` is another one. */
  lemma {:induction false} WayTo(s: Memories, t: Memories, a: string, x: string, n: nat) returns (m: nat)
    requires SameExceptAt(s, t, a) && Leads(s, x, n, a)
    ensures m <= n && Leads(t, x, m, a)
    decreases n
  {
    if x == a {
      m := 0;
    } else {
      hide Link;
      m := WayTo(s, t, a, Link(s, x).value, n - 1);
      m := m + 1;
    }
  }

  /** A way either passes `a` or does not depend on its link. */
  lemma {:induction false} PassesOrSame(s: Memories, t: Memories, a: string, x: string, n: nat) returns (i: nat)
    requires SameExceptAt(s, t, a)
    ensures i <= n && (Leads(t, x, i, a) || Follow(s, x, n) == Follow(t, x, n))
    decreases n
  {
    i := 0;
    if x != a && n > 0 && Link(t, x).Some? {
      hide Link;
      i := PassesOrSame(s, t, a, Link(t, x).value, n - 1);
      if Leads(t, Link(t, x).value, i, a) {
        i := i + 1;
      }
    }
  }

  /** A cycle can be entered anywhere. */
  lemma Rotate(s: Memories, x: string, n: nat, i: nat, a: string)
    requires Leads(s, x, n, x) && i <= n && Leads(s, x, i, a)
    ensures Leads(s, a, n, a)
  {
    hide Follow;
    FollowOn(s, x, i, a, n - i);
    FollowOn(s, a, n - i, x, i);
    assert Leads(s, a, n - i, x);
  }

  // ---------- one new link ----------

  /** Linking `a` to `b` closes a cycle exactly when `b` already led to `a`. */
  lemma NewLink(s: Memories, t: Memories, a: string, b: string)
    requires !Cyclic(s) && SameExceptAt(s, t, a) && Link(t, a) == Some(b)
    ensures Cyclic(t) <==> Reaches(s, b, a)
  {
    hide Link;
    if Reaches(s, b, a) {
      var n: nat :| Leads(s, b, n, a);
      var m := WayTo(s, t, a, b, n);
      assert Leads(t, a, m + 1, a);
    }
    if Cyclic(t) {
      var x, n: nat :| n > 0 && Leads(t, x, n, x);
      var i := PassesOrSame(s, t, a, x, n);
      assert !Leads(s, x, n, x);
      Rotate(t, x, n, i, a);
      assert Leads(t, b, n - 1, a);
      var m := WayTo(t, s, a, b, n - 1);
      assert Leads(s, b, m, a);
    }
  }

  lemma SupersedeLinks(s: Memories, a: string, b: string, reason: Option<string>)
    requires Supersede(s, a, b, reason).Ok?
    ensures var t := Supersede(s, a, b, reason).value; SameExceptAt(s, t, a) && Link(t, a) == Some(b)
  {
    hide WithEvent, LifecycleEvent;
  }

  // ---------- a check before the call ----------

  /** Whether the links from `x` lead to `y`, found by walking them and stopping at a record seen before. */
  predicate Walk(s: Memories, x: string, y: string, seen: set<string>)
    decreases s.Keys - seen
  {
    x == y || (x in s && x !in seen && s[x].supersededBy.Some? && Walk(s, s[x].supersededBy.value, y, seen + {x}))
  }

  lemma {:induction false} WalkReaches(s: Memories, x: string, y: string, seen: set<string>) returns (n: nat)
    requires Walk(s, x, y, seen)
    ensures Leads(s, x, n, y)
    decreases s.Keys - seen
  {
    n := 0;
    if x != y {
      n := WalkReaches(s, s[x].supersededBy.value, y, seen + {x});
      n := n + 1;
    }
  }

  ghost predicate LedTo(s: Memories, seen: set<string>, x: string) {
    forall v :: v in seen ==> exists k: nat :: k > 0 && Leads(s, v, k, x)
  }

  lemma LedOn(s: Memories, seen: set<string>, x: string, y: string)
    requires LedTo(s, seen, x) && Link(s, x) == Some(y)
    ensures LedTo(s, seen + {x}, y)
  {
    assert Follow(s, y, 0) == Some(y);
    assert Leads(s, x, 1, y);
    hide Follow, Link;
    forall v | v in seen ensures exists k: nat :: k > 0 && Leads(s, v, k, y) {
      var k: nat :| k > 0 && Leads(s, v, k, x);
      FollowOn(s, v, k, x, 1);
      assert Leads(s, v, k + 1, y);
    }
  }

  lemma {:induction false} ReachesWalk(s: Memories, x: string, n: nat, y: string, seen: set<string>)
    requires !Cyclic(s) && Leads(s, x, n, y) && LedTo(s, seen, x)
    ensures Walk(s, x, y, seen)
    decreases n
  {
    if x != y {
      LedOn(s, seen, x, s[x].supersededBy.value);
      ReachesWalk(s, s[x].supersededBy.value, n - 1, y, seen + {x});
      assert x !in seen;
    }
  }

  /** Replacing `a` by `b` would close a cycle: `b` was itself replaced, directly or not, by `a`. */
  predicate ClosesCycle(s: Memories, a: string, b: string) {
    Walk(s, b, a, {})
  }

  /** A permitted supersession of `a` by `b` makes acyclic chains cyclic exactly when the links from `b` lead to
      `a` already. The link that `a` had is overwritten, the one of `b` stays. */
  lemma SupersedeMakesCycle(s: Memories, a: string, b: string, reason: Option<string>)
    requires !Cyclic(s) && Supersede(s, a, b, reason).Ok?
    ensures Cyclic(Supersede(s, a, b, reason).value) <==> ClosesCycle(s, a, b)
  {
    SupersedeLinks(s, a, b, reason);
    hide Supersede, Link, Cyclic;
    NewLink(s, Supersede(s, a, b, reason).value, a, b);
    if ClosesCycle(s, a, b) {
      var n := WalkReaches(s, b, a, {});
    }
    if Reaches(s, b, a) {
      var n: nat :| Leads(s, b, n, a);
      ReachesWalk(s, b, n, a, {});
    }
  }

  // ---------- whole runs ----------

  lemma OtherOperationKeepsLinks(s: Memories, op: Operation, id: string)
    requires !op.DoSupersede?
    ensures Link(Perform(s, op), id) == Link(s, id)
  {
    if op.DoScope? {
      if id in s && Affected(s[id], op.operation).Some? {
        AffectedKeepsLink(s[id], op.operation);
      }
      hide Affected;
    } else {
      hide WithEvent, LifecycleEvent, FeedbackConfidence, FeedbackImportance;
    }
  }

  lemma AffectedKeepsLink(r: AgentMemory, op: ScopeOperation)
    requires Affected(r, op).Some?
    ensures Affected(r, op).value.supersededBy == r.supersededBy
  {
    hide WithEvent, PrivacyEvent, RedactText, RedactEntries, RedactOption, RedactTags;
  }

  lemma {:induction false} SameLinksSameWay(s: Memories, t: Memories, x: string, n: nat)
    requires forall id :: Link(t, id) == Link(s, id)
    ensures Follow(t, x, n) == Follow(s, x, n)
    decreases n
  {
    hide Link;
    if n > 0 && Link(s, x).Some? {
      SameLinksSameWay(s, t, Link(s, x).value, n - 1);
    }
  }

  lemma SameLinksSameCycles(s: Memories, t: Memories)
    requires (forall id :: Link(t, id) == Link(s, id)) && Cyclic(s)
    ensures Cyclic(t)
  {
    hide Link, Follow;
    var x, n: nat :| n > 0 && Leads(s, x, n, x);
    SameLinksSameWay(s, t, x, n);
    assert Leads(t, x, n, x);
  }

  /** An operation that does not close a cycle. */
  predicate Guarded(s: Memories, op: Operation) {
    op.DoSupersede? && Outcome(s, op).Ok? ==> !ClosesCycle(s, op.replaced, op.replacement)
  }

  lemma PerformMakesCycle(s: Memories, op: Operation)
    requires !Cyclic(s)
    ensures Cyclic(Perform(s, op)) <==> !Guarded(s, op)
  {
    hide Cyclic, ClosesCycle, Supersede;
    if op.DoSupersede? {
      if Outcome(s, op).Ok? {
        SupersedeMakesCycle(s, op.replaced, op.replacement, op.reason);
      }
    } else {
      hide Perform;
      forall id ensures Link(Perform(s, op), id) == Link(s, id) {
        OtherOperationKeepsLinks(s, op, id);
      }
      hide Link;
      if Cyclic(Perform(s, op)) {
        SameLinksSameCycles(Perform(s, op), s);
      }
    }
  }

  ghost predicate NeverCyclic(s: Memories, ops: seq<Operation>) {
    !Cyclic(Run(s, ops)) && (ops != [] ==> NeverCyclic(s, ops[..|ops| - 1]))
  }

  predicate AllGuarded(s: Memories, ops: seq<Operation>) {
    ops != [] ==> AllGuarded(s, ops[..|ops| - 1]) && Guarded(Run(s, ops[..|ops| - 1]), ops[|ops| - 1])
  }

  /** Over every run, the chains are acyclic all the time exactly when no supersession of the run met its own
      record on the chain of the replacement. */
  lemma {:induction false} RunStaysAcyclic(s: Memories, ops: seq<Operation>)
    requires !Cyclic(s)
    ensures NeverCyclic(s, ops) <==> AllGuarded(s, ops)
  {
    hide Cyclic, Guarded, Perform;
    if ops != [] {
      var n := |ops| - 1;
      RunStaysAcyclic(s, ops[..n]);
      if NeverCyclic(s, ops[..n]) {
        PerformMakesCycle(Run(s, ops[..n]), ops[n]);
      }
    } else {
      assert Run(s, []) == s;
    }
  }
}
