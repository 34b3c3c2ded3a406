/** Discovery of Markdown files in a folder, over a finite and possibly cyclic directory graph. */
module Discovery {
  import opened Common
  import opened Ordering

  /** What a directory entry resolves to. `Broken` when it cannot be resolved, `Special` for what exists and is
      neither directory nor file, `Gone` for what has vanished in between. */
  datatype Target =
    | Directory(path: string)
    | File(path: string, markdown: bool)
    | Special
    | Gone
    | Broken

  datatype Child = Child(path: string, isSymlink: bool, target: Target)

  /** Each directory by its resolved path; `None` when it cannot be listed. */
  type FileSystem = map<string, Option<seq<Child>>>

  /** Directories lead to directories. */
  ghost predicate Closed(fs: FileSystem) {
    forall d, c :: d in fs && fs[d].Some? && c in fs[d].value && c.target.Directory? ==> c.target.path in fs
  }

  predicate Offends(c: Child, allowSymlinks: bool) {
    (c.isSymlink && !allowSymlinks) || c.target.Broken? || c.target.Special?
  }

  predicate ChildLe(a: Child, b: Child) {
    StrLe(a.path, b.path)
  }

  // ---------- the children of one directory ----------

  datatype Walk = Walk(queue: seq<string>, seen: set<string>, files: seq<string>)

  function Visit(w: Walk, c: Child, allowSymlinks: bool): Option<Walk> {
    if Offends(c, allowSymlinks) then None
    else
      match c.target
      case Directory(p) => Some(if p in w.seen then w else w.(queue := w.queue + [p], seen := w.seen + {p}))
      case File(p, markdown) => Some(if markdown then w.(files := w.files + [p]) else w)
      case _ => Some(w)
  }

  function VisitAll(w: Walk, cs: seq<Child>, allowSymlinks: bool): Option<Walk> {
    if cs == [] then Some(w)
    else
      match VisitAll(w, cs[..|cs| - 1], allowSymlinks)
      case None => None
      case Some(before) => Visit(before, cs[|cs| - 1], allowSymlinks)
  }

  ghost predicate Harmless(cs: seq<Child>, allowSymlinks: bool) {
    forall c :: c in cs ==> !Offends(c, allowSymlinks)
  }

  ghost function DirectoriesOf(cs: seq<Child>): set<string> {
    set c | c in cs && c.target.Directory? :: c.target.path
  }

  ghost function FilesOf(cs: seq<Child>): set<string> {
    set c | c in cs && c.target.File? && c.target.markdown :: c.target.path
  }

  ghost function Elements(s: seq<string>): set<string> {
    set x | x in s
  }

  /** `after` queues each directory among the children that was not seen before, once, and has all their files. */
  ghost predicate Visited(before: Walk, cs: seq<Child>, after: Walk) {
    && before.queue <= after.queue
    && after.seen == before.seen + DirectoriesOf(cs)
    && Elements(after.files) == Elements(before.files) + FilesOf(cs)
    && Elements(after.queue[|before.queue|..]) == DirectoriesOf(cs) - before.seen
    && NoDuplicates(after.queue[|before.queue|..])
  }

  lemma ElementsSnoc(s: seq<string>, x: string)
    ensures Elements(s + [x]) == Elements(s) + {x}
  {
  }

  lemma ChildrenSnoc(cs: seq<Child>, c: Child)
    ensures DirectoriesOf(cs + [c]) == DirectoriesOf(cs) + if c.target.Directory? then {c.target.path} else {}
    ensures FilesOf(cs + [c]) == FilesOf(cs) + if c.target.File? && c.target.markdown then {c.target.path} else {}
  {
    var all := cs + [c];
    assert forall x :: x in all <==> x in cs || x == c;
    if c.target.Directory? {
      assert c in all;
    }
    if c.target.File? {
      assert c in all;
    }
  }

  lemma VisitedMore(before: Walk, cs: seq<Child>, after: Walk, c: Child, allowSymlinks: bool)
    requires Visited(before, cs, after) && Visit(after, c, allowSymlinks).Some?
    ensures Visited(before, cs + [c], Visit(after, c, allowSymlinks).value)
  {
    ChildrenSnoc(cs, c);
    hide DirectoriesOf, FilesOf, Offends;
    var next := Visit(after, c, allowSymlinks).value;
    var n := |before.queue|;
    match c.target
    case Directory(p) =>
      if p !in after.seen {
        var new_ := after.queue[n..];
        assert next.queue[n..] == new_ + [p];
        ElementsSnoc(new_, p);
        assert p !in Elements(new_);
        NoDuplicatesAppend(new_, [p]);
      }
    case File(p, markdown) => ElementsSnoc(after.files, p);
    case _ =>
  }

  /** Visiting all children succeeds exactly when none offends. */
  lemma {:induction false} VisitAllIs(w: Walk, cs: seq<Child>, allowSymlinks: bool)
    ensures VisitAll(w, cs, allowSymlinks).Some? <==> Harmless(cs, allowSymlinks)
    ensures VisitAll(w, cs, allowSymlinks).Some? ==> Visited(w, cs, VisitAll(w, cs, allowSymlinks).value)
  {
    if cs != [] {
      var init, last := cs[..|cs| - 1], cs[|cs| - 1];
      VisitAllIs(w, init, allowSymlinks);
      assert cs == init + [last];
      assert Harmless(cs, allowSymlinks) <==> Harmless(init, allowSymlinks) && !Offends(last, allowSymlinks);
      hide Visited, Harmless, Offends;
      if VisitAll(w, cs, allowSymlinks).Some? {
        VisitedMore(w, init, VisitAll(w, init, allowSymlinks).value, last, allowSymlinks);
      }
    }
  }

  // ---------- reachability ----------

  ghost predicate IsPath(fs: FileSystem, p: seq<string>) {
    && p != [] && (forall i :: 0 <= i < |p| ==> p[i] in fs)
    && (forall i :: 0 <= i < |p| - 1 ==> fs[p[i]].Some? && p[i + 1] in DirectoriesOf(fs[p[i]].value))
  }

  ghost predicate ReachableFrom(fs: FileSystem, root: string, d: string) {
    exists p :: IsPath(fs, p) && p[0] == root && p[|p| - 1] == d
  }

  lemma ReachesItself(fs: FileSystem, root: string)
    requires root in fs
    ensures ReachableFrom(fs, root, root)
  {
    assert IsPath(fs, [root]);
  }

  lemma ReachesChildren(fs: FileSystem, root: string, d: string, x: string)
    requires ReachableFrom(fs, root, d) && d in fs && fs[d].Some? && x in DirectoriesOf(fs[d].value) && x in fs
    ensures ReachableFrom(fs, root, x)
  {
    hide DirectoriesOf;
    var p :| IsPath(fs, p) && p[0] == root && p[|p| - 1] == d;
    assert IsPath(fs, p + [x]);
  }

  /** A set of directories that contains the root and whose children's directories it contains has everything reachable. */
  lemma {:induction false} ClosedSetHasPath(fs: FileSystem, all: set<string>, p: seq<string>)
    requires IsPath(fs, p) && p[0] in all
    requires forall d :: d in all && d in fs && fs[d].Some? ==> DirectoriesOf(fs[d].value) <= all
    ensures p[|p| - 1] in all
  {
    hide DirectoriesOf;
    if |p| > 1 {
      assert p[0 + 1] in DirectoriesOf(fs[p[0]].value);
      var q := p[1..];
      assert IsPath(fs, q) by {
        forall i | 0 <= i < |q| - 1 ensures fs[q[i]].Some? && q[i + 1] in DirectoriesOf(fs[q[i]].value) {
          assert q[i] == p[i + 1] && q[i + 1] == p[i + 1 + 1];
        }
      }
      ClosedSetHasPath(fs, all, q);
    }
  }

  // ---------- the worklist ----------

  ghost predicate Expandable(fs: FileSystem, d: string, allowSymlinks: bool) {
    d in fs && fs[d].Some? && Harmless(fs[d].value, allowSymlinks)
  }

  ghost function AllFiles(fs: FileSystem, ds: seq<string>): set<string> {
    set d, c | d in ds && d in fs && fs[d].Some? && c in fs[d].value && c.target.File? && c.target.markdown :: c.target.path
  }

  /** Every directory seen is reachable and either expanded or queued, never both; the expanded ones gave
      their directories to `seen` and their files to the result. */
  ghost predicate Working(fs: FileSystem, root: string, allowSymlinks: bool, expanded: seq<string>, w: Walk) {
    && root in w.seen
    && (forall d :: d in w.seen ==> d in fs && ReachableFrom(fs, root, d))
    && Elements(expanded + w.queue) == w.seen && NoDuplicates(expanded + w.queue)
    && (forall d :: d in expanded ==> Expandable(fs, d, allowSymlinks) && DirectoriesOf(fs[d].value) <= w.seen)
    && Elements(w.files) == AllFiles(fs, expanded)
  }

  /** The whole folder can be walked: every reachable directory can be listed and has no offending entry. */
  ghost predicate Walkable(fs: FileSystem, root: string, allowSymlinks: bool) {
    forall d :: ReachableFrom(fs, root, d) ==> Expandable(fs, d, allowSymlinks)
  }

  ghost predicate IsMarkdownBelow(fs: FileSystem, root: string, path: string) {
    exists d, c :: ReachableFrom(fs, root, d) && d in fs && fs[d].Some? && c in fs[d].value
      && c.target == File(path, true)
  }

  lemma SameChildren(a: seq<Child>, b: seq<Child>, allowSymlinks: bool)
    requires forall c :: c in a <==> c in b
    ensures DirectoriesOf(a) == DirectoriesOf(b) && FilesOf(a) == FilesOf(b)
    ensures Harmless(a, allowSymlinks) <==> Harmless(b, allowSymlinks)
  {
    hide Offends;
  }

  lemma AllFilesSnoc(fs: FileSystem, ds: seq<string>, d: string)
    requires d in fs && fs[d].Some?
    ensures AllFiles(fs, ds + [d]) == AllFiles(fs, ds) + FilesOf(fs[d].value)
  {
    assert forall x :: x in ds + [d] <==> x in ds || x == d;
  }

  lemma ElementsAppend(a: seq<string>, b: seq<string>)
    ensures Elements(a + b) == Elements(a) + Elements(b)
  {
  }

  /** The queue keeps what was there and gets the new directories; together with the expanded ones it stays `seen`. */
  lemma QueueStep(expanded: seq<string>, rest: seq<string>, current: string, before: Walk, directories: set<string>, after: Walk)
    requires before.queue == rest && rest <= after.queue
    requires Elements(expanded + (rest + [current])) == before.seen && NoDuplicates(expanded + (rest + [current]))
    requires after.seen == before.seen + directories
    requires Elements(after.queue[|rest|..]) == directories - before.seen && NoDuplicates(after.queue[|rest|..])
    ensures Elements(expanded + [current] + after.queue) == after.seen && NoDuplicates(expanded + [current] + after.queue)
  {
    var new_ := after.queue[|rest|..];
    var all, front := expanded + [current] + after.queue, expanded + [current] + rest;
    assert after.queue == rest + new_ && all == front + new_;
    ElementsAppend(front, new_);
    SameElements(expanded, rest, current);
    hide Elements;
    assert forall x :: x in new_ ==> x !in before.seen by {
      InElements(new_);
    }
    InElements(front);
    NoDuplicatesAppend(front, new_);
  }

  lemma InElements(s: seq<string>)
    ensures forall x :: x in s <==> x in Elements(s)
  {
  }

  lemma SameElements(expanded: seq<string>, rest: seq<string>, current: string)
    requires NoDuplicates(expanded + (rest + [current]))
    ensures Elements(expanded + [current] + rest) == Elements(expanded + (rest + [current]))
    ensures NoDuplicates(expanded + [current] + rest)
  {
    var a, b := expanded + (rest + [current]), expanded + [current] + rest;
    ElementsAppend(expanded, rest + [current]);
    ElementsAppend(rest, [current]);
    ElementsAppend(expanded + [current], rest);
    ElementsAppend(expanded, [current]);
    assert a == expanded + rest + [current];
    assert multiset(a) == multiset(b);
    SameMembersNoDuplicates(a, b);
  }

  /** The entry in turn can be listed and nothing in it offends: it is expanded. */
  lemma WorkStep(fs: FileSystem, root: string, allowSymlinks: bool, expanded: seq<string>, w: Walk, cs: seq<Child>, after: Walk)
    requires Closed(fs) && Working(fs, root, allowSymlinks, expanded, w) && w.queue != []
    requires var current := w.queue[|w.queue| - 1]; Expandable(fs, current, allowSymlinks) && forall c :: c in cs <==> c in fs[current].value
    requires Visited(w.(queue := w.queue[..|w.queue| - 1]), cs, after)
    ensures Working(fs, root, allowSymlinks, expanded + [w.queue[|w.queue| - 1]], after)
  {
    var k := |w.queue| - 1;
    var rest, current := w.queue[..k], w.queue[k];
    var listed := fs[current].value;
    assert w.queue == rest + [current];
    SameChildren(cs, listed, allowSymlinks);
    AllFilesSnoc(fs, expanded, current);
    CurrentIsSeen(expanded, w.queue);
    hide DirectoriesOf, FilesOf, AllFiles, ReachableFrom, Harmless, Elements, Closed, Expandable;
    QueueStep(expanded, rest, current, w.(queue := rest), DirectoriesOf(cs), after);
    hide NoDuplicates;
    NewDirectoriesReached(fs, root, w.seen, current);
    OneMoreExpanded(fs, allowSymlinks, expanded, current, w.seen, after.seen);
  }

  lemma OneMoreExpanded(fs: FileSystem, allowSymlinks: bool, expanded: seq<string>, current: string,
                        seen: set<string>, more: set<string>)
    requires forall d :: d in expanded ==> Expandable(fs, d, allowSymlinks) && DirectoriesOf(fs[d].value) <= seen
    requires Expandable(fs, current, allowSymlinks) && more == seen + DirectoriesOf(fs[current].value)
    ensures forall d :: d in expanded + [current] ==> Expandable(fs, d, allowSymlinks) && DirectoriesOf(fs[d].value) <= more
  {
    hide DirectoriesOf, Harmless;
  }

  /** What is found in a reachable directory is reachable. */
  lemma NewDirectoriesReached(fs: FileSystem, root: string, seen: set<string>, current: string)
    requires Closed(fs) && current in seen && current in fs && fs[current].Some?
    requires forall d :: d in seen ==> d in fs && ReachableFrom(fs, root, d)
    ensures forall d :: d in seen + DirectoriesOf(fs[current].value) ==> d in fs && ReachableFrom(fs, root, d)
  {
    DirectoriesAreListed(fs, current);
    hide DirectoriesOf, ReachableFrom, Closed;
    forall d | d in seen + DirectoriesOf(fs[current].value) ensures d in fs && ReachableFrom(fs, root, d) {
      if d !in seen {
        ReachesChildren(fs, root, current, d);
      }
    }
  }

  lemma CurrentIsSeen(expanded: seq<string>, queue: seq<string>)
    requires queue != []
    ensures queue[|queue| - 1] in Elements(expanded + queue)
  {
    assert (expanded + queue)[|expanded| + |queue| - 1] == queue[|queue| - 1];
  }

  lemma DirectoriesAreListed(fs: FileSystem, d: string)
    requires Closed(fs) && d in fs && fs[d].Some?
    ensures DirectoriesOf(fs[d].value) <= fs.Keys
  {
  }

  // ---------- the outcome ----------

  lemma AllWorked(fs: FileSystem, root: string, allowSymlinks: bool, expanded: seq<string>, w: Walk, d: string)
    requires Working(fs, root, allowSymlinks, expanded, w) && w.queue == [] && ReachableFrom(fs, root, d)
    ensures d in expanded
  {
    assert expanded + [] == expanded;
    InElements(expanded);
    hide ReachableFrom, DirectoriesOf, Elements, AllFiles, Expandable;
    var p := PathTo(fs, root, d);
    ClosedSetHasPath(fs, w.seen, p);
  }

  ghost function PathTo(fs: FileSystem, root: string, d: string): (p: seq<string>)
    requires ReachableFrom(fs, root, d)
    ensures IsPath(fs, p) && p[0] == root && p[|p| - 1] == d
  {
    var p :| IsPath(fs, p) && p[0] == root && p[|p| - 1] == d;
    p
  }

  /** With an empty queue, exactly the reachable directories were expanded, so the folder could be walked, and
      the files are exactly the Markdown files below the root. */
  lemma EmptyQueueIsDone(fs: FileSystem, root: string, allowSymlinks: bool, expanded: seq<string>, w: Walk)
    requires Working(fs, root, allowSymlinks, expanded, w) && w.queue == []
    ensures Walkable(fs, root, allowSymlinks) && NoDuplicates(expanded)
    ensures forall d :: d in expanded <==> ReachableFrom(fs, root, d)
    ensures forall p :: p in w.files <==> IsMarkdownBelow(fs, root, p)
  {
    assert expanded + [] == expanded;
    InElements(expanded);
    InElements(w.files);
    hide ReachableFrom, DirectoriesOf, Elements, Harmless;
    forall d | ReachableFrom(fs, root, d) ensures d in expanded {
      AllWorked(fs, root, allowSymlinks, expanded, w, d);
    }
    hide Working;
    forall p ensures p in AllFiles(fs, expanded) <==> IsMarkdownBelow(fs, root, p) {
      FilesBelow(fs, root, expanded, p);
    }
  }

  lemma FilesBelow(fs: FileSystem, root: string, expanded: seq<string>, p: string)
    requires forall d :: d in expanded <==> ReachableFrom(fs, root, d)
    ensures p in AllFiles(fs, expanded) <==> IsMarkdownBelow(fs, root, p)
  {
    hide ReachableFrom;
    if IsMarkdownBelow(fs, root, p) {
      var d, c :| ReachableFrom(fs, root, d) && d in fs && fs[d].Some? && c in fs[d].value && c.target == File(p, true);
      assert d in expanded;
    }
  }

  lemma NotWalkable(fs: FileSystem, root: string, allowSymlinks: bool, expanded: seq<string>, w: Walk)
    requires Working(fs, root, allowSymlinks, expanded, w) && w.queue != []
    requires !Expandable(fs, w.queue[|w.queue| - 1], allowSymlinks)
    ensures !Walkable(fs, root, allowSymlinks)
  {
    CurrentIsSeen(expanded, w.queue);
    hide ReachableFrom, Elements, AllFiles, Expandable;
  }

  lemma StartWorking(fs: FileSystem, root: string, allowSymlinks: bool)
    requires root in fs
    ensures Working(fs, root, allowSymlinks, [], Walk([root], {root}, []))
  {
    ReachesItself(fs, root);
    assert [] + [root] == [root];
    hide ReachableFrom;
  }

  /** The loop over the children of one directory. */
  method VisitChildren(children: seq<Child>, w: Walk, allowSymlinks: bool) returns (r: Option<Walk>)
    ensures r == VisitAll(w, children, allowSymlinks)
  {
    var queue, seen, files := w.queue, w.seen, w.files;
    for i := 0 to |children|
      invariant VisitAll(w, children[..i], allowSymlinks) == Some(Walk(queue, seen, files))
    {
      assert children[..i + 1][..i] == children[..i];
      var child := children[i];
      if Offends(child, allowSymlinks) {
        VisitAllStops(w, children, i + 1, allowSymlinks);
        return None;
      }
      match child.target
      case Directory(path) =>
        if path !in seen {
          seen := seen + {path};
          queue := queue + [path];
        }
      case File(path, markdown) =>
        if markdown {
          files := files + [path];
        }
      case _ =>
    }
    assert children[..|children|] == children;
    r := Some(Walk(queue, seen, files));
  }

  lemma {:induction false} VisitAllStops(w: Walk, cs: seq<Child>, n: nat, allowSymlinks: bool)
    requires n <= |cs| && VisitAll(w, cs[..n], allowSymlinks).None?
    ensures VisitAll(w, cs, allowSymlinks).None?
  {
    if n == |cs| {
      assert cs[..n] == cs;
    } else {
      var k := |cs| - 1;
      assert cs[..k][..n] == cs[..n];
      VisitAllStops(w, cs[..k], n, allowSymlinks);
    }
  }

  /** What `current.iterdir()` gives, sorted, and what its entries make of the walk. */
  method ExpandDirectory(fs: FileSystem, current: string, w: Walk, allowSymlinks: bool)
    returns (r: Option<Walk>, ghost children: seq<Child>)
    requires current in fs
    ensures r.Some? <==> Expandable(fs, current, allowSymlinks)
    ensures r.Some? ==> (forall c :: c in children <==> c in fs[current].value) && Visited(w, children, r.value)
  {
    children := [];
    match fs[current]
    case None => r := None;
    case Some(listed) =>
      var sorted := Sort(ChildLe, listed);
      SortKeepsMembers(ChildLe, listed);
      hide Sort, Visited, Harmless;
      SameChildren(sorted, listed, allowSymlinks);
      VisitAllIs(w, sorted, allowSymlinks);
      r := VisitChildren(sorted, w, allowSymlinks);
      children := sorted;
  }

  /** `collect_markdown_files`; `le` is the order of paths, and `expanded` lists the directories in the order in
      which they were listed. */
  method CollectMarkdownFiles(fs: FileSystem, root: string, allowSymlinks: bool, le: (string, string) -> bool)
    returns (r: Result<seq<string>>, ghost expanded: seq<string>)
    requires Closed(fs) && root in fs && TotalPreorder(le)
    ensures r.Ok? <==> Walkable(fs, root, allowSymlinks)
    ensures r.Err? ==> r.error == IngestionError
    ensures r.Ok? ==> Sorted(le, r.value) && forall p :: p in r.value <==> IsMarkdownBelow(fs, root, p)
    ensures r.Ok? ==> NoDuplicates(expanded) && forall d :: d in expanded <==> ReachableFrom(fs, root, d)
  {
    expanded := [];
    var w := Walk([root], {root}, []);
    StartWorking(fs, root, allowSymlinks);
    hide *;
    while w.queue != []
      invariant Working(fs, root, allowSymlinks, expanded, w)
      decreases fs.Keys - w.seen, |w.queue|
    {
      var current := w.queue[|w.queue| - 1];
      QueuedIsDirectory(fs, root, allowSymlinks, expanded, w);
      var after;
      ghost var children;
      after, children := ExpandDirectory(fs, current, w.(queue := w.queue[..|w.queue| - 1]), allowSymlinks);
      if after.None? {
        NotWalkable(fs, root, allowSymlinks, expanded, w);
        return Err(IngestionError), expanded;
      }
      WorkStep(fs, root, allowSymlinks, expanded, w, children, after.value);
      WorkShrinks(fs, root, allowSymlinks, expanded + [current], w, children, after.value);
      expanded := expanded + [current];
      w := after.value;
    }
    EmptyQueueIsDone(fs, root, allowSymlinks, expanded, w);
    SortSorts(le, w.files);
    SortKeepsMembers(le, w.files);
    r := Ok(Sort(le, w.files));
  }

  lemma QueuedIsDirectory(fs: FileSystem, root: string, allowSymlinks: bool, expanded: seq<string>, w: Walk)
    requires Working(fs, root, allowSymlinks, expanded, w) && w.queue != []
    ensures w.queue[|w.queue| - 1] in fs
  {
    CurrentIsSeen(expanded, w.queue);
    hide ReachableFrom, Elements, AllFiles, Expandable;
  }

  /** Either a directory is seen for the first time, or the queue gets shorter. */
  lemma WorkShrinks(fs: FileSystem, root: string, allowSymlinks: bool, expanded: seq<string>, w: Walk, cs: seq<Child>, after: Walk)
    requires Working(fs, root, allowSymlinks, expanded, after) && w.queue != []
    requires Visited(w.(queue := w.queue[..|w.queue| - 1]), cs, after)
    ensures w.seen <= after.seen <= fs.Keys
    ensures after.seen == w.seen ==> |after.queue| < |w.queue|
  {
    var n := |w.queue| - 1;
    InElements(after.queue[n..]);
    hide ReachableFrom, Elements, AllFiles, Expandable, DirectoriesOf, FilesOf;
    if |after.queue| > n {
      var first := after.queue[n..][0];
      assert first in after.seen && first !in w.seen;
    }
  }
}
