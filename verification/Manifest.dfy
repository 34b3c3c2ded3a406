/** The folder manifest and the operations that change it. */
module Manifest {
  import opened Common
  import opened Ordering

  datatype Status = Pending | Running | Succeeded | Failed

  /** A manifest entry; sizes, times, errors and counters do not steer anything. */
  datatype Entry = Entry(path: string, status: Status, attempts: nat)

  predicate EntryLe(a: Entry, b: Entry) {
    StrLe(a.path, b.path)
  }

  lemma EntryOrder()
    ensures TotalPreorder(EntryLe)
  {
    forall x: Entry, y: Entry ensures EntryLe(x, y) || EntryLe(y, x) {
      StrLeTotal(x.path, y.path);
    }
    forall x: Entry, y: Entry, z: Entry | EntryLe(x, y) && EntryLe(y, z) ensures EntryLe(x, z) {
      StrLeTransitive(x.path, y.path, z.path);
    }
  }

  /** The entry for `path`; a later one hides an earlier one. */
  function Find(files: seq<Entry>, path: string): Option<Entry> {
    if files == [] then None
    else if files[|files| - 1].path == path then Some(files[|files| - 1])
    else Find(files[..|files| - 1], path)
  }

  lemma {:induction false} FindNames(files: seq<Entry>, path: string)
    ensures Find(files, path).Some? ==> Find(files, path).value.path == path
  {
    if files != [] {
      FindNames(files[..|files| - 1], path);
    }
  }

  /** No two entries share a path. */
  predicate UniquePaths(files: seq<Entry>) {
    files == [] ||
    (UniquePaths(files[..|files| - 1]) && Find(files[..|files| - 1], files[|files| - 1].path).None?)
  }

  /** A manifest as it should be: one entry for each path, sorted by path. */
  ghost predicate WellFormed(files: seq<Entry>) {
    UniquePaths(files) && Sorted(EntryLe, files)
  }

  lemma FindSnoc(a: seq<Entry>, e: Entry, path: string)
    ensures Find(a + [e], path) == if e.path == path then Some(e) else Find(a, path)
  {
    assert (a + [e])[..|a|] == a;
  }

  lemma UniqueSnoc(a: seq<Entry>, e: Entry)
    ensures UniquePaths(a + [e]) <==> UniquePaths(a) && Find(a, e.path).None?
  {
    assert (a + [e])[..|a|] == a;
  }

  /** Inserting an entry for a new path adds just that entry. */
  lemma {:induction false} FindInsertSorted(files: seq<Entry>, e: Entry)
    requires UniquePaths(files) && Find(files, e.path).None?
    ensures UniquePaths(InsertSorted(EntryLe, files, e))
    ensures forall path :: Find(InsertSorted(EntryLe, files, e), path) == if path == e.path then Some(e) else Find(files, path)
  {
    hide EntryLe;
    if files == [] || EntryLe(files[|files| - 1], e) {
      UniqueSnoc(files, e);
      forall path ensures Find(files + [e], path) == if path == e.path then Some(e) else Find(files, path) {
        FindSnoc(files, e, path);
      }
    } else {
      var n := |files| - 1;
      FindInsertSorted(files[..n], e);
      var inner := InsertSorted(EntryLe, files[..n], e);
      UniqueSnoc(inner, files[n]);
      forall path ensures Find(inner + [files[n]], path) == if path == e.path then Some(e) else Find(files, path) {
        FindSnoc(inner, files[n], path);
      }
    }
  }

  /** Sorting changes no entry. */
  lemma {:induction false} FindSort(files: seq<Entry>)
    requires UniquePaths(files)
    ensures UniquePaths(Sort(EntryLe, files))
    ensures forall path :: Find(Sort(EntryLe, files), path) == Find(files, path)
  {
    hide EntryLe;
    if files != [] {
      var n := |files| - 1;
      FindSort(files[..n]);
      FindInsertSorted(Sort(EntryLe, files[..n]), files[n]);
    }
  }

  lemma SortIsWellFormed(files: seq<Entry>)
    requires UniquePaths(files)
    ensures WellFormed(Sort(EntryLe, files))
    ensures forall path :: Find(Sort(EntryLe, files), path) == Find(files, path)
  {
    FindSort(files);
    EntryOrder();
    SortSorts(EntryLe, files);
  }

  // ---------- synchronizing with the files on disk ----------

  function Released(e: Entry): Entry {
    if e.status == Running then e.(status := Pending) else e
  }

  /** The entry dictionary, in insertion order: a repeated path keeps its first place and its last value. */
  function EntryMap(files: seq<Entry>): seq<Entry> {
    if files == [] then []
    else Put(EntryMap(files[..|files| - 1]), files[|files| - 1])
  }

  function Put(entries: seq<Entry>, e: Entry): seq<Entry> {
    if entries == [] then [e]
    else if entries[|entries| - 1].path == e.path then entries[..|entries| - 1] + [e]
    else if Find(entries, e.path).None? then entries + [e]
    else Put(entries[..|entries| - 1], e) + [entries[|entries| - 1]]
  }

  function ReleaseAll(files: seq<Entry>): seq<Entry> {
    if files == [] then [] else ReleaseAll(files[..|files| - 1]) + [Released(files[|files| - 1])]
  }

  function AddMissing(entries: seq<Entry>, names: seq<string>): seq<Entry> {
    if names == [] then entries
    else
      var before := AddMissing(entries, names[..|names| - 1]);
      var name := names[|names| - 1];
      if Find(before, name).None? then before + [Entry(name, Pending, 0)] else before
  }

  /** `_synchronize_manifest_with_files` */
  function Synchronize(files: seq<Entry>, names: seq<string>): seq<Entry> {
    Sort(EntryLe, AddMissing(ReleaseAll(EntryMap(files)), names))
  }

  /** Putting an entry touches no other path. */
  lemma {:induction false} PutPuts(entries: seq<Entry>, e: Entry)
    requires UniquePaths(entries)
    ensures UniquePaths(Put(entries, e))
    ensures forall path :: Find(Put(entries, e), path) == if path == e.path then Some(e) else Find(entries, path)
  {
    if Find(entries, e.path).None? {
      FindAppended(entries, e);
    } else if entries[|entries| - 1].path == e.path {
      UpdateLastUpdates(entries, e);
    } else {
      var n := |entries| - 1;
      PutPuts(entries[..n], e);
      var inner := Put(entries[..n], e);
      UniqueSnoc(inner, entries[n]);
      forall path ensures Find(inner + [entries[n]], path) == if path == e.path then Some(e) else Find(entries, path) {
        FindSnoc(inner, entries[n], path);
      }
    }
  }

  /** The dictionary has one entry for each stored path, the last one. */
  lemma {:induction false} EntryMapKeepsLast(files: seq<Entry>)
    ensures UniquePaths(EntryMap(files))
    ensures forall path :: Find(EntryMap(files), path) == Find(files, path)
  {
    if files != [] {
      hide Put;
      EntryMapKeepsLast(files[..|files| - 1]);
      PutPuts(EntryMap(files[..|files| - 1]), files[|files| - 1]);
    }
  }

  lemma {:induction false} FindReleaseAll(files: seq<Entry>, path: string)
    ensures Find(ReleaseAll(files), path) ==
      match Find(files, path) { case None => None case Some(e) => Some(Released(e)) }
  {
    if files != [] {
      FindReleaseAll(files[..|files| - 1], path);
      FindSnoc(ReleaseAll(files[..|files| - 1]), Released(files[|files| - 1]), path);
    }
  }

  lemma {:induction false} ReleaseAllUnique(files: seq<Entry>)
    requires UniquePaths(files)
    ensures UniquePaths(ReleaseAll(files))
  {
    if files != [] {
      var n := |files| - 1;
      ReleaseAllUnique(files[..n]);
      FindReleaseAll(files[..n], files[n].path);
      UniqueSnoc(ReleaseAll(files[..n]), Released(files[n]));
    }
  }

  function Added(entries: seq<Entry>, names: seq<string>, path: string): Option<Entry> {
    if Find(entries, path).Some? then Find(entries, path)
    else if path in names then Some(Entry(path, Pending, 0)) else None
  }

  lemma {:induction false} AddMissingAdds(entries: seq<Entry>, names: seq<string>)
    requires UniquePaths(entries)
    ensures UniquePaths(AddMissing(entries, names))
    ensures forall path :: Find(AddMissing(entries, names), path) == Added(entries, names, path)
  {
    if names != [] {
      var n := |names| - 1;
      var before, name := AddMissing(entries, names[..n]), names[n];
      AddMissingAdds(entries, names[..n]);
      assert names == names[..n] + [name];
      if Find(before, name).None? {
        UniqueSnoc(before, Entry(name, Pending, 0));
        forall path ensures Find(AddMissing(entries, names), path) == Added(entries, names, path) {
          FindSnoc(before, Entry(name, Pending, 0), path);
        }
      }
    }
  }

  /** What synchronizing does to each path. */
  function SyncedEntry(e: Option<Entry>, path: string, names: seq<string>): Option<Entry> {
    match e
    case Some(entry) => Some(if entry.status == Running then Entry(path, Pending, entry.attempts) else entry)
    case None => if path in names then Some(Entry(path, Pending, 0)) else None
  }

  /** Whatever is stored: one entry for each stored path, the last if there are several, and one for each file. */
  lemma SynchronizeSpec(files: seq<Entry>, names: seq<string>)
    ensures WellFormed(Synchronize(files, names))
    ensures forall path :: Find(Synchronize(files, names), path) == SyncedEntry(Find(files, path), path, names)
  {
    hide Sort, AddMissing, ReleaseAll, EntryMap, EntryLe;
    var entries := EntryMap(files);
    EntryMapKeepsLast(files);
    ReleaseAllUnique(entries);
    AddMissingAdds(ReleaseAll(entries), names);
    SortIsWellFormed(AddMissing(ReleaseAll(entries), names));
    forall path ensures Find(Synchronize(files, names), path) == SyncedEntry(Find(files, path), path, names) {
      FindReleaseAll(entries, path);
      FindNames(files, path);
    }
  }

  // ---------- changing one entry ----------

  /** Overwrite the last entry for `e.path`. */
  function UpdateLast(files: seq<Entry>, e: Entry): seq<Entry> {
    if files == [] then []
    else if files[|files| - 1].path == e.path then files[..|files| - 1] + [e]
    else UpdateLast(files[..|files| - 1], e) + [files[|files| - 1]]
  }

  /** `_set_manifest_entry_status` */
  function SetStatus(files: seq<Entry>, path: string, status: Status, attemptsDelta: nat): seq<Entry> {
    match Find(files, path)
    case None => Sort(EntryLe, files + [Entry(path, status, attemptsDelta)])
    case Some(e) => Sort(EntryLe, UpdateLast(files, Entry(path, status, e.attempts + attemptsDelta)))
  }

  lemma {:induction false} UpdateLastUpdates(files: seq<Entry>, e: Entry)
    requires UniquePaths(files) && Find(files, e.path).Some?
    ensures UniquePaths(UpdateLast(files, e))
    ensures forall path :: Find(UpdateLast(files, e), path) == if path == e.path then Some(e) else Find(files, path)
  {
    var n := |files| - 1;
    if files[n].path == e.path {
      UniqueSnoc(files[..n], e);
      forall path ensures Find(files[..n] + [e], path) == if path == e.path then Some(e) else Find(files, path) {
        FindSnoc(files[..n], e, path);
      }
    } else {
      UpdateLastUpdates(files[..n], e);
      var inner := UpdateLast(files[..n], e);
      UniqueSnoc(inner, files[n]);
      forall path ensures Find(inner + [files[n]], path) == if path == e.path then Some(e) else Find(files, path) {
        FindSnoc(inner, files[n], path);
      }
    }
  }

  lemma FindAppended(files: seq<Entry>, e: Entry)
    requires UniquePaths(files) && Find(files, e.path).None?
    ensures UniquePaths(files + [e])
    ensures forall p :: Find(files + [e], p) == if p == e.path then Some(e) else Find(files, p)
  {
    UniqueSnoc(files, e);
    forall p ensures Find(files + [e], p) == if p == e.path then Some(e) else Find(files, p) {
      FindSnoc(files, e, p);
    }
  }

  /** The attempts recorded for `path`. */
  function Attempts(files: seq<Entry>, path: string): nat {
    if Find(files, path).Some? then Find(files, path).value.attempts else 0
  }

  function AfterSet(files: seq<Entry>, path: string, status: Status, attemptsDelta: nat, p: string): Option<Entry> {
    if p == path then Some(Entry(path, status, Attempts(files, path) + attemptsDelta)) else Find(files, p)
  }

  /** What setting a status does to each path. */
  lemma SetStatusSpec(files: seq<Entry>, path: string, status: Status, attemptsDelta: nat)
    requires UniquePaths(files)
    ensures WellFormed(SetStatus(files, path, status, attemptsDelta))
    ensures forall p :: Find(SetStatus(files, path, status, attemptsDelta), p) == AfterSet(files, path, status, attemptsDelta, p)
  {
    hide Sort, UpdateLast, WellFormed, UniquePaths, Find;
    var e := Entry(path, status, Attempts(files, path) + attemptsDelta);
    if Find(files, path).None? {
      FindAppended(files, e);
      SortIsWellFormed(files + [e]);
    } else {
      UpdateLastUpdates(files, e);
      SortIsWellFormed(UpdateLast(files, e));
    }
  }

  // ---------- selecting ----------

  predicate Selectable(e: Option<Entry>, onlyFailed: bool) {
    && !(e.Some? && e.value.status == Succeeded)
    && (onlyFailed ==> e.Some? && e.value.status == Failed)
  }

  function SelectAll(names: seq<string>, files: seq<Entry>, onlyFailed: bool): seq<string> {
    if names == [] then []
    else
      var name := names[|names| - 1];
      var before := SelectAll(names[..|names| - 1], files, onlyFailed);
      if Selectable(Find(files, name), onlyFailed) then before + [name] else before
  }

  /** `_select_ingest_candidates`: the selectable files in order, at most `limit` of them. */
  function Select(names: seq<string>, files: seq<Entry>, onlyFailed: bool, limit: Option<nat>): seq<string> {
    var all := SelectAll(names, files, onlyFailed);
    if limit.Some? then all[..Min(limit.value, |all|)] else all
  }

  lemma {:induction false} SelectAllSelects(names: seq<string>, files: seq<Entry>, onlyFailed: bool)
    ensures var all := SelectAll(names, files, onlyFailed);
      && (NoDuplicates(names) ==> NoDuplicates(all))
      && forall name :: name in all <==> name in names && Selectable(Find(files, name), onlyFailed)
  {
    if names != [] {
      hide Find, Selectable;
      var n := |names| - 1;
      NoDuplicatesAppend(names[..n], [names[n]]);
      assert names == names[..n] + [names[n]];
      SelectAllSelects(names[..n], files, onlyFailed);
      NoDuplicatesAppend(SelectAll(names[..n], files, onlyFailed), [names[n]]);
    }
  }

  lemma SelectSelects(names: seq<string>, files: seq<Entry>, onlyFailed: bool, limit: Option<nat>)
    ensures var selected := Select(names, files, onlyFailed, limit);
      && (NoDuplicates(names) ==> NoDuplicates(selected))
      && forall name :: name in selected ==> name in names && Selectable(Find(files, name), onlyFailed)
  {
    hide Find, Selectable;
    SelectAllSelects(names, files, onlyFailed);
  }

  /** The places in `names` of what is selected: in order, each at most once. */
  ghost predicate PicksInOrder(names: seq<string>, selected: seq<string>, places: seq<nat>) {
    && |places| == |selected|
    && (forall k :: 0 <= k < |places| ==> places[k] < |names| && names[places[k]] == selected[k])
    && (forall j, k :: 0 <= j < k < |places| ==> places[j] < places[k])
  }

  /** Nothing selectable is passed over. */
  ghost predicate PassesOnly(names: seq<string>, files: seq<Entry>, onlyFailed: bool, places: seq<nat>, upTo: nat) {
    forall i :: 0 <= i < |names| && i < upTo && Selectable(Find(files, names[i]), onlyFailed) ==> i in places
  }

  lemma {:induction false} AllInOrder(names: seq<string>, files: seq<Entry>, onlyFailed: bool) returns (places: seq<nat>)
    ensures PicksInOrder(names, SelectAll(names, files, onlyFailed), places)
    ensures PassesOnly(names, files, onlyFailed, places, |names|)
  {
    places := [];
    if names != [] {
      hide Find, Selectable;
      var n := |names| - 1;
      places := AllInOrder(names[..n], files, onlyFailed);
      assert forall i :: 0 <= i < n ==> names[..n][i] == names[i];
      if Selectable(Find(files, names[n]), onlyFailed) {
        places := places + [n];
      }
    }
  }

  /** A run takes its files in the order in which they were found, passes over none that it could take, and stops at
      the limit; it takes files that have not succeeded, or only those that have failed. */
  lemma SelectInOrder(names: seq<string>, files: seq<Entry>, onlyFailed: bool, limit: Option<nat>) returns (places: seq<nat>)
    ensures var selected := Select(names, files, onlyFailed, limit);
      && PicksInOrder(names, selected, places)
      && (limit.Some? ==> |selected| <= limit.value)
      && (limit.None? || |selected| < limit.value ==> PassesOnly(names, files, onlyFailed, places, |names|))
      && (places != [] ==> PassesOnly(names, files, onlyFailed, places, places[|places| - 1]))
  {
    var all := AllInOrder(names, files, onlyFailed);
    hide Find, Selectable, SelectAll;
    var selected := Select(names, files, onlyFailed, limit);
    places := all[..|selected|];
    if |selected| < |all| && places != [] {
      forall i | 0 <= i < |names| && i < places[|places| - 1] && Selectable(Find(files, names[i]), onlyFailed) ensures i in places {
        var k :| 0 <= k < |all| && all[k] == i;
        assert k < |places| && places[k] == i;
      }
    }
    assert |selected| == |all| ==> places == all;
  }

  lemma SelectableMeans(files: seq<Entry>, path: string)
    ensures Selectable(Find(files, path), false) <==> Find(files, path).None? || Find(files, path).value.status != Succeeded
    ensures Selectable(Find(files, path), true) <==> Find(files, path).Some? && Find(files, path).value.status == Failed
  {
    hide Find;
  }
}
