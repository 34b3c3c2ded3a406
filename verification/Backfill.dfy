/** The migration that numbers the stored chunks of each document. */
module Backfill {
  import opened Common
  import opened Ordering

  /** A stored value, by what `int(...)` makes of it. `exact` tells whether it equals that integer. */
  datatype Value =
    | Null
    | Number(number: int, exact: bool)
    | Text(parsed: Option<int>)
    | Other

  datatype Metadata = Metadata(sectionIndex: Value, sectionChunkIndex: Value, documentChunkIndex: Value, rest: string)

  /** The columns of a document chunk that the migration reads. `metadata` is `None` when it is no mapping. */
  datatype Row = Row(
    memoryId: Option<string>, userId: Option<string>, projectId: Option<string>, agentId: Option<string>,
    sourcePath: Option<string>, chunkIndex: Value, sectionIndex: Value, sectionChunkIndex: Value,
    documentChunkIndex: Value, metadata: Option<Metadata>
  )

  datatype GroupKey = GroupKey(
    userId: Option<string>, projectId: Option<string>, agentId: Option<string>, sourcePath: Option<string>
  )

  const UNKNOWN_SORT_INDEX := 1_000_000_000

  function ToInt(v: Value): Option<int> {
    match v
    case Null => None
    case Number(n, _) => Some(n)
    case Text(parsed) => parsed
    case Other => None
  }

  /** `_coerce_optional_int` */
  function CoerceOptionalInt(values: seq<Value>): Option<int> {
    if values == [] then None
    else if ToInt(values[0]).Some? then ToInt(values[0])
    else CoerceOptionalInt(values[1..])
  }

  /** `value == i` in the source's language: a string never equals a number. */
  predicate EqualsInt(v: Value, i: int) {
    v == Number(i, true)
  }

  function CoerceMetadata(m: Option<Metadata>): Metadata {
    match m case Some(x) => x case None => Metadata(Null, Null, Null, "")
  }

  function KeyOf(r: Row): GroupKey {
    GroupKey(r.userId, r.projectId, r.agentId, r.sourcePath)
  }

  function SectionOf(r: Row): Option<int> {
    CoerceOptionalInt([r.sectionIndex, CoerceMetadata(r.metadata).sectionIndex])
  }

  function ChunkOf(r: Row): Option<int> {
    CoerceOptionalInt([r.sectionChunkIndex, r.chunkIndex, CoerceMetadata(r.metadata).sectionChunkIndex])
  }

  predicate Resolves(r: Row) {
    SectionOf(r).Some? && ChunkOf(r).Some?
  }

  // ---------- the updates of one row ----------

  datatype Updates = Updates(
    sectionIndex: Option<int>, sectionChunkIndex: Option<int>, chunkIndex: Option<int>,
    documentChunkIndex: Option<int>, metadata: Option<Metadata>
  )

  function Change(current: Value, target: Option<int>): Option<int> {
    if target.Some? && !EqualsInt(current, target.value) then target else None
  }

  function Changed(current: Value, target: Option<int>): Value {
    match Change(current, target) case Some(i) => Number(i, true) case None => current
  }

  function UpdatesOf(r: Row, document: Option<int>): Updates {
    var m := CoerceMetadata(r.metadata);
    var updated := Metadata(Changed(m.sectionIndex, SectionOf(r)), Changed(m.sectionChunkIndex, ChunkOf(r)),
                            Changed(m.documentChunkIndex, document), m.rest);
    Updates(Change(r.sectionIndex, SectionOf(r)), Change(r.sectionChunkIndex, ChunkOf(r)), Change(r.chunkIndex, ChunkOf(r)),
            Change(r.documentChunkIndex, document), if updated != m then Some(updated) else None)
  }

  function Put(current: Value, update: Option<int>): Value {
    match update case Some(i) => Number(i, true) case None => current
  }

  /** `mutable.set(key, value)` for every update */
  function Apply(r: Row, u: Updates): Row {
    r.(sectionIndex := Put(r.sectionIndex, u.sectionIndex), sectionChunkIndex := Put(r.sectionChunkIndex, u.sectionChunkIndex),
       chunkIndex := Put(r.chunkIndex, u.chunkIndex), documentChunkIndex := Put(r.documentChunkIndex, u.documentChunkIndex),
       metadata := if u.metadata.Some? then u.metadata else r.metadata)
  }

  const NOTHING := Updates(None, None, None, None, None)

  /** A row after its own updates; one without an id cannot be looked up and stays. */
  function Renumbered(r: Row, document: Option<int>): (n: Row)
    ensures n.memoryId == r.memoryId && KeyOf(n) == KeyOf(r)
  {
    if r.memoryId.None? then r else Apply(r, UpdatesOf(r, document))
  }

  /** A column and its copy in the metadata both hold the target, if there is one. */
  predicate Holds(column: Value, copy: Value, target: Option<int>) {
    target.Some? ==> EqualsInt(column, target.value) && EqualsInt(copy, target.value)
  }

  /** Afterwards the columns and the metadata agree with the resolved positions. */
  lemma RenumberedAgrees(r: Row, document: Option<int>)
    requires r.memoryId.Some?
    ensures var n := Renumbered(r, document);
      && Holds(n.sectionIndex, CoerceMetadata(n.metadata).sectionIndex, SectionOf(r))
      && Holds(n.sectionChunkIndex, CoerceMetadata(n.metadata).sectionChunkIndex, ChunkOf(r))
      && Holds(n.chunkIndex, CoerceMetadata(n.metadata).sectionChunkIndex, ChunkOf(r))
      && Holds(n.documentChunkIndex, CoerceMetadata(n.metadata).documentChunkIndex, document)
    ensures document.None? ==> Renumbered(r, document).documentChunkIndex == r.documentChunkIndex
    ensures document.None? ==>
      CoerceMetadata(Renumbered(r, document).metadata).documentChunkIndex == CoerceMetadata(r.metadata).documentChunkIndex
  {
  }

  /** Positions resolve to the same numbers before and after, and a second renumbering has nothing to do. */
  lemma RenumberedSettles(r: Row, document: Option<int>)
    ensures SectionOf(Renumbered(r, document)) == SectionOf(r) && ChunkOf(Renumbered(r, document)) == ChunkOf(r)
    ensures Renumbered(Renumbered(r, document), document) == Renumbered(r, document)
  {
    if r.memoryId.Some? {
      RenumberedAgrees(r, document);
      var n := Renumbered(r, document);
      SectionFrom(r, n);
      ChunkFrom(r, n);
    }
  }

  lemma SectionFrom(r: Row, n: Row)
    requires SectionOf(r).Some? ==> EqualsInt(n.sectionIndex, SectionOf(r).value)
    requires SectionOf(r).None? ==> n.sectionIndex == r.sectionIndex
    requires SectionOf(r).None? ==> CoerceMetadata(n.metadata).sectionIndex == CoerceMetadata(r.metadata).sectionIndex
    ensures SectionOf(n) == SectionOf(r)
  {
  }

  lemma ChunkFrom(r: Row, n: Row)
    requires ChunkOf(r).Some? ==> EqualsInt(n.sectionChunkIndex, ChunkOf(r).value)
    requires ChunkOf(r).None? ==> n.sectionChunkIndex == r.sectionChunkIndex && n.chunkIndex == r.chunkIndex
    requires ChunkOf(r).None? ==>
      CoerceMetadata(n.metadata).sectionChunkIndex == CoerceMetadata(r.metadata).sectionChunkIndex
    ensures ChunkOf(n) == ChunkOf(r)
  {
  }

  // ---------- the order within a group ----------

  /** A row's place in the table and its sort key. */
  datatype Entry = Entry(index: nat, section: int, chunk: int, memoryId: string)

  function OrUnknown(v: Option<int>): int {
    if v.Some? then v.value else UNKNOWN_SORT_INDEX
  }

  function EntryOf(rows: seq<Row>, i: nat): Entry
    requires i < |rows|
  {
    Entry(i, OrUnknown(SectionOf(rows[i])), OrUnknown(ChunkOf(rows[i])),
          if rows[i].memoryId.Some? then rows[i].memoryId.value else "")
  }

  predicate EntryLe(a: Entry, b: Entry) {
    a.section < b.section
    || (a.section == b.section && (a.chunk < b.chunk || (a.chunk == b.chunk && StrLe(a.memoryId, b.memoryId))))
  }

  lemma EntryLeIsOrder()
    ensures TotalPreorder(EntryLe)
  {
    forall a, b ensures EntryLe(a, b) || EntryLe(b, a) {
      StrLeTotal(a.memoryId, b.memoryId);
    }
    forall a, b, c | EntryLe(a, b) && EntryLe(b, c) ensures EntryLe(a, c) {
      if a.section == b.section == c.section && a.chunk == b.chunk == c.chunk {
        StrLeTransitive(a.memoryId, b.memoryId, c.memoryId);
      }
    }
  }

  /** The first `n` rows' members of a group, in table order. */
  function Members(rows: seq<Row>, key: GroupKey, n: nat): (r: seq<Entry>)
    requires n <= |rows|
  {
    if n == 0 then []
    else Members(rows, key, n - 1) + if KeyOf(rows[n - 1]) == key then [EntryOf(rows, n - 1)] else []
  }

  function Placed(rows: seq<Row>, key: GroupKey): seq<Entry> {
    Sort(EntryLe, Members(rows, key, |rows|))
  }

  predicate AllResolve(rows: seq<Row>, key: GroupKey) {
    forall i :: 0 <= i < |rows| && KeyOf(rows[i]) == key ==> Resolves(rows[i])
  }

  function PlaceOf(entries: seq<Entry>, i: nat): nat {
    if entries == [] then 0
    else if entries[|entries| - 1].index == i then |entries| - 1
    else PlaceOf(entries[..|entries| - 1], i)
  }

  /** The document index of row `i`, if its whole group resolves. */
  function DocumentIndex(rows: seq<Row>, i: nat): Option<int>
    requires i < |rows|
  {
    if AllResolve(rows, KeyOf(rows[i])) then Some(PlaceOf(Placed(rows, KeyOf(rows[i])), i)) else None
  }

  /** The table after the migration. */
  ghost function Backfilled(rows: seq<Row>): (r: seq<Row>)
    ensures |r| == |rows|
  {
    seq(|rows|, i requires 0 <= i < |rows| => Renumbered(rows[i], DocumentIndex(rows, i)))
  }

  lemma {:induction false} MembersAre(rows: seq<Row>, key: GroupKey, n: nat, e: Entry)
    requires n <= |rows|
    ensures e in Members(rows, key, n) <==> e.index < n && KeyOf(rows[e.index]) == key && e == EntryOf(rows, e.index)
  {
    hide EntryOf, KeyOf;
    if n > 0 {
      MembersAre(rows, key, n - 1, e);
      assert EntryOf(rows, n - 1).index == n - 1 by { EntryIndex(rows, n - 1); }
      if e.index == n - 1 && e == EntryOf(rows, n - 1) && KeyOf(rows[n - 1]) == key {
        assert Members(rows, key, n)[|Members(rows, key, n - 1)|] == e;
      }
    }
  }

  lemma EntryIndex(rows: seq<Row>, i: nat)
    requires i < |rows|
    ensures EntryOf(rows, i).index == i
  {
  }

  ghost predicate DistinctIndices(entries: seq<Entry>) {
    forall i, j :: 0 <= i < j < |entries| ==> entries[i].index != entries[j].index
  }

  lemma {:induction false} MembersDistinct(rows: seq<Row>, key: GroupKey, n: nat)
    requires n <= |rows|
    ensures DistinctIndices(Members(rows, key, n))
  {
    if n > 0 {
      MembersDistinct(rows, key, n - 1);
      var before := Members(rows, key, n - 1);
      hide EntryOf, KeyOf, Members;
      EntryIndex(rows, n - 1);
      forall i | 0 <= i < |before| ensures before[i].index < n - 1 {
        MembersAre(rows, key, n - 1, before[i]);
      }
      assert Members(rows, key, n) == before + [EntryOf(rows, n - 1)] || Members(rows, key, n) == before by {
        MembersStep(rows, key, n);
      }
    }
  }

  lemma MembersStep(rows: seq<Row>, key: GroupKey, n: nat)
    requires 0 < n <= |rows|
    ensures Members(rows, key, n)
         == Members(rows, key, n - 1) + if KeyOf(rows[n - 1]) == key then [EntryOf(rows, n - 1)] else []
  {
  }

  /** The sorted group: exactly its rows, each once, in the order of section, chunk and id. */
  lemma PlacedIsGroup(rows: seq<Row>, key: GroupKey)
    ensures DistinctIndices(Placed(rows, key)) && Sorted(EntryLe, Placed(rows, key))
    ensures forall e :: e in Placed(rows, key) <==> e.index < |rows| && KeyOf(rows[e.index]) == key && e == EntryOf(rows, e.index)
  {
    var members := Members(rows, key, |rows|);
    EntryLeIsOrder();
    SortSorts(EntryLe, members);
    SortMembers(EntryLe, members);
    SortKeepsMembers(EntryLe, members);
    MembersDistinct(rows, key, |rows|);
    var p := Sort(EntryLe, members);
    hide Sort, Members, EntryOf, KeyOf, TotalPreorder, EntryLe, Sorted;
    assert NoDuplicates(members);
    SameMembersNoDuplicates(members, p);
    forall e ensures e in p <==> e.index < |rows| && KeyOf(rows[e.index]) == key && e == EntryOf(rows, e.index) {
      MembersAre(rows, key, |rows|, e);
    }
    forall i, j | 0 <= i < j < |p| ensures p[i].index != p[j].index {
      assert p[i] in p && p[j] in p;
    }
  }

  lemma {:induction false} PlaceOfEntry(entries: seq<Entry>, d: nat)
    requires DistinctIndices(entries) && d < |entries|
    ensures PlaceOf(entries, entries[d].index) == d
  {
    if d < |entries| - 1 {
      PlaceOfEntry(entries[..|entries| - 1], d);
    }
  }

  /** In a group whose rows all resolve, the document indices are a bijection onto 0 .. n-1 in the order of
      section, chunk and memory id: place `d` belongs to exactly one row of the group. */
  lemma ResolvedGroupIsNumbered(rows: seq<Row>, key: GroupKey, d: nat)
    requires AllResolve(rows, key) && d < |Placed(rows, key)|
    ensures var i := Placed(rows, key)[d].index;
      && i < |rows| && KeyOf(rows[i]) == key && DocumentIndex(rows, i) == Some(d)
      && (rows[i].memoryId.Some? ==> EqualsInt(Backfilled(rows)[i].documentChunkIndex, d))
    ensures forall j :: 0 <= j < |rows| && KeyOf(rows[j]) == key && DocumentIndex(rows, j) == Some(d) ==>
      j == Placed(rows, key)[d].index
  {
    var p := Placed(rows, key);
    PlacedIsGroup(rows, key);
    assert p[d] in p;
    PlaceOfEntry(p, d);
    var i := p[d].index;
    if rows[i].memoryId.Some? {
      RenumberedAgrees(rows[i], DocumentIndex(rows, i));
    }
    hide Placed, EntryOf, PlaceOf, AllResolve, Renumbered, Resolves;
    forall j | 0 <= j < |rows| && KeyOf(rows[j]) == key && DocumentIndex(rows, j) == Some(d) ensures j == i {
      IsPlaced(rows, key, j);
    }
  }

  lemma IsPlaced(rows: seq<Row>, key: GroupKey, j: nat)
    requires j < |rows| && KeyOf(rows[j]) == key
    ensures PlaceOf(Placed(rows, key), j) < |Placed(rows, key)| && Placed(rows, key)[PlaceOf(Placed(rows, key), j)].index == j
  {
    PlacedIsGroup(rows, key);
    var p := Placed(rows, key);
    EntryIndex(rows, j);
    assert EntryOf(rows, j) in p;
    var d :| 0 <= d < |p| && p[d] == EntryOf(rows, j);
    PlaceOfEntry(p, d);
  }

  /** In any other group the document indices are left alone. */
  lemma UnresolvedGroupIsLeftAlone(rows: seq<Row>, i: nat)
    requires i < |rows| && !AllResolve(rows, KeyOf(rows[i]))
    ensures Backfilled(rows)[i].documentChunkIndex == rows[i].documentChunkIndex
    ensures CoerceMetadata(Backfilled(rows)[i].metadata).documentChunkIndex == CoerceMetadata(rows[i].metadata).documentChunkIndex
  {
    if rows[i].memoryId.Some? {
      RenumberedAgrees(rows[i], None);
    }
  }

  // ---------- positions and places in words ----------

  /** A position is taken from the first column that has a number, and from the metadata when none has. */
  lemma PositionsResolve(r: Row)
    ensures var m := CoerceMetadata(r.metadata);
      && SectionOf(r) == (if ToInt(r.sectionIndex).Some? then ToInt(r.sectionIndex) else ToInt(m.sectionIndex))
      && ChunkOf(r) == (if ToInt(r.sectionChunkIndex).Some? then ToInt(r.sectionChunkIndex)
                        else if ToInt(r.chunkIndex).Some? then ToInt(r.chunkIndex) else ToInt(m.sectionChunkIndex))
  {
    hide ToInt, CoerceOptionalInt;
    var m := CoerceMetadata(r.metadata);
    TwoColumns(r.sectionIndex, m.sectionIndex);
    TwoColumns(r.chunkIndex, m.sectionChunkIndex);
    FirstColumn(r.sectionChunkIndex, [r.chunkIndex, m.sectionChunkIndex]);
    assert [r.sectionChunkIndex] + [r.chunkIndex, m.sectionChunkIndex] == [r.sectionChunkIndex, r.chunkIndex, m.sectionChunkIndex];
  }

  lemma FirstColumn(a: Value, rest: seq<Value>)
    ensures CoerceOptionalInt([a] + rest) == if ToInt(a).Some? then ToInt(a) else CoerceOptionalInt(rest)
  {
    assert ([a] + rest)[1..] == rest;
  }

  lemma TwoColumns(a: Value, b: Value)
    ensures CoerceOptionalInt([a, b]) == if ToInt(a).Some? then ToInt(a) else ToInt(b)
  {
    FirstColumn(a, [b]);
    FirstColumn(b, []);
    assert [a] + [b] == [a, b] && [b] + [] == [b];
    assert CoerceOptionalInt([]) == None;
  }

  /** Renumbering touches positions only, and none that does not resolve. */
  lemma RenumberedKeeps(r: Row, document: Option<int>)
    ensures var n := Renumbered(r, document);
      && n == r.(sectionIndex := n.sectionIndex, sectionChunkIndex := n.sectionChunkIndex, chunkIndex := n.chunkIndex,
                 documentChunkIndex := n.documentChunkIndex, metadata := n.metadata)
      && CoerceMetadata(n.metadata).rest == CoerceMetadata(r.metadata).rest
      && (SectionOf(r).None? ==> n.sectionIndex == r.sectionIndex)
      && (ChunkOf(r).None? ==> n.sectionChunkIndex == r.sectionChunkIndex && n.chunkIndex == r.chunkIndex)
      && (r.memoryId.None? ==> n == r)
  {
  }

  /** The first of two rows by section, then by chunk, then by memory id. */
  predicate StandsBefore(a: Row, b: Row)
    requires Resolves(a) && Resolves(b)
  {
    || SectionOf(a).value < SectionOf(b).value
    || (SectionOf(a).value == SectionOf(b).value && ChunkOf(a).value < ChunkOf(b).value)
    || (SectionOf(a) == SectionOf(b) && ChunkOf(a) == ChunkOf(b) && StrLe(IdOf(a), IdOf(b)) && !StrLe(IdOf(b), IdOf(a)))
  }

  function IdOf(r: Row): string {
    if r.memoryId.Some? then r.memoryId.value else ""
  }

  /** In a group whose rows all resolve, the document indices follow section, chunk and memory id. */
  lemma NumberedInOrder(rows: seq<Row>, i: nat, j: nat)
    requires i < |rows| && j < |rows| && KeyOf(rows[i]) == KeyOf(rows[j]) && AllResolve(rows, KeyOf(rows[i]))
    requires StandsBefore(rows[i], rows[j])
    ensures DocumentIndex(rows, i).Some? && DocumentIndex(rows, j).Some?
    ensures DocumentIndex(rows, i).value < DocumentIndex(rows, j).value
  {
    var key := KeyOf(rows[i]);
    var p := Placed(rows, key);
    var d, e := PlaceOf(p, i), PlaceOf(p, j);
    IsPlaced(rows, key, i);
    IsPlaced(rows, key, j);
    PlacedIsGroup(rows, key);
    assert p[d] in p && p[e] in p;
    EntriesDiffer(rows, i, j);
    assert p[d] == EntryOf(rows, i) && p[e] == EntryOf(rows, j);
    hide *;
    SortedPlaces(p, d, e);
  }

  lemma SortedPlaces(p: seq<Entry>, d: nat, e: nat)
    requires Sorted(EntryLe, p) && d < |p| && e < |p| && d != e && !EntryLe(p[e], p[d])
    ensures d < e
  {
  }

  lemma EntriesDiffer(rows: seq<Row>, i: nat, j: nat)
    requires i < |rows| && j < |rows| && Resolves(rows[i]) && Resolves(rows[j]) && StandsBefore(rows[i], rows[j])
    ensures !EntryLe(EntryOf(rows, j), EntryOf(rows, i)) && i != j
  {
    hide SectionOf, ChunkOf, StrLe;
  }

  // ---------- running it twice ----------

  lemma {:induction false} SameMembers(a: seq<Row>, b: seq<Row>, key: GroupKey, n: nat)
    requires |a| == |b| && n <= |a|
    requires forall i :: 0 <= i < |a| ==> KeyOf(a[i]) == KeyOf(b[i]) && EntryOf(a, i) == EntryOf(b, i)
    ensures Members(a, key, n) == Members(b, key, n)
  {
    if n > 0 {
      SameMembers(a, b, key, n - 1);
      hide EntryOf, KeyOf;
    }
  }

  lemma BackfilledAt(rows: seq<Row>, i: nat)
    requires i < |rows|
    ensures Backfilled(rows)[i] == Renumbered(rows[i], DocumentIndex(rows, i))
  {
    hide Renumbered, DocumentIndex;
  }

  lemma BackfillKeepsEntries(rows: seq<Row>, i: nat)
    requires i < |rows|
    ensures var after := Backfilled(rows);
      KeyOf(after[i]) == KeyOf(rows[i]) && EntryOf(after, i) == EntryOf(rows, i) && Resolves(after[i]) == Resolves(rows[i])
  {
    BackfilledAt(rows, i);
    RenumberedSettles(rows[i], DocumentIndex(rows, i));
    hide Renumbered, DocumentIndex, SectionOf, ChunkOf, KeyOf, Backfilled;
  }

  lemma BackfillKeepsIndices(rows: seq<Row>, i: nat)
    requires i < |rows|
    ensures DocumentIndex(Backfilled(rows), i) == DocumentIndex(rows, i)
  {
    var after, key := Backfilled(rows), KeyOf(rows[i]);
    hide Backfilled, EntryOf, KeyOf, Resolves, Sort, PlaceOf;
    forall j | 0 <= j < |rows|
      ensures KeyOf(after[j]) == KeyOf(rows[j]) && EntryOf(after, j) == EntryOf(rows, j) && Resolves(after[j]) == Resolves(rows[j])
    {
      BackfillKeepsEntries(rows, j);
    }
    SameMembers(rows, after, key, |rows|);
    hide Members;
  }

  /** Running the migration twice equals running it once. */
  lemma BackfillIsIdempotent(rows: seq<Row>)
    ensures Backfilled(Backfilled(rows)) == Backfilled(rows)
  {
    var once := Backfilled(rows);
    var twice := Backfilled(once);
    hide Backfilled, Renumbered, DocumentIndex;
    forall i | 0 <= i < |rows| ensures twice[i] == once[i] {
      BackfilledAt(rows, i);
      BackfilledAt(once, i);
      BackfillKeepsIndices(rows, i);
      RenumberedSettles(rows[i], DocumentIndex(rows, i));
    }
  }

  // ---------- the migration ----------

  datatype Pending = Pending(memoryId: string, updates: Updates)

  /** No two rows have the same id. */
  ghost predicate UniqueIds(rows: seq<Row>) {
    forall i, j :: 0 <= i < j < |rows| && rows[i].memoryId.Some? ==> rows[i].memoryId != rows[j].memoryId
  }

  function Lookup(rows: seq<Row>, id: string): (r: Option<nat>)
    ensures r.Some? ==> r.value < |rows| && rows[r.value].memoryId == Some(id)
    ensures r.None? ==> forall i :: 0 <= i < |rows| ==> rows[i].memoryId != Some(id)
  {
    if rows == [] then None
    else if rows[|rows| - 1].memoryId == Some(id) then Some(|rows| - 1)
    else Lookup(rows[..|rows| - 1], id)
  }

  function ApplyPending(rows: seq<Row>, p: Pending): (r: seq<Row>)
    ensures |r| == |rows|
  {
    match Lookup(rows, p.memoryId)
    case None => rows
    case Some(i) => rows[i := Apply(rows[i], p.updates)]
  }

  function ApplyAll(rows: seq<Row>, pending: seq<Pending>): (r: seq<Row>)
    ensures |r| == |rows|
  {
    if pending == [] then rows else ApplyPending(ApplyAll(rows, pending[..|pending| - 1]), pending[|pending| - 1])
  }

  /** The rows in `done` have their updates, the others are as before. */
  ghost function Partly(rows: seq<Row>, done: set<nat>): (r: seq<Row>)
    ensures |r| == |rows|
  {
    seq(|rows|, i requires 0 <= i < |rows| => if i in done then Renumbered(rows[i], DocumentIndex(rows, i)) else rows[i])
  }

  lemma NoUpdatesNoChange(r: Row, document: Option<int>)
    requires UpdatesOf(r, document) == NOTHING
    ensures Renumbered(r, document) == r
  {
  }

  lemma LookupFinds(rows: seq<Row>, i: nat)
    requires UniqueIds(rows) && i < |rows| && rows[i].memoryId.Some?
    ensures Lookup(rows, rows[i].memoryId.value) == Some(i)
  {
  }

  /** One row more. */
  lemma PartlyStep(rows: seq<Row>, done: set<nat>, i: nat)
    requires UniqueIds(rows) && i < |rows| && i !in done
    ensures var u := UpdatesOf(rows[i], DocumentIndex(rows, i));
      if rows[i].memoryId.None? || u == NOTHING then Partly(rows, done + {i}) == Partly(rows, done)
      else Partly(rows, done + {i}) == ApplyPending(Partly(rows, done), Pending(rows[i].memoryId.value, u))
  {
    var before, after, u := Partly(rows, done), Partly(rows, done + {i}), UpdatesOf(rows[i], DocumentIndex(rows, i));
    hide DocumentIndex, UpdatesOf, Apply, KeyOf;
    assert before[i] == rows[i];
    assert forall j :: 0 <= j < |rows| && j != i ==> after[j] == before[j];
    if rows[i].memoryId.None? {
      assert after[i] == before[i];
    } else if u == NOTHING {
      NoUpdatesNoChange(rows[i], DocumentIndex(rows, i));
    } else {
      assert forall j :: 0 <= j < |rows| ==> before[j].memoryId == rows[j].memoryId;
      hide Partly;
      LookupFinds(before, i);
    }
  }

  lemma ApplyAllSnoc(rows: seq<Row>, pending: seq<Pending>, p: Pending)
    ensures ApplyAll(rows, pending + [p]) == ApplyPending(ApplyAll(rows, pending), p)
  {
    assert (pending + [p])[..|pending|] == pending;
  }

  // ---------- groups ----------

  /** `grouped_rows[key]` after `n` rows */
  function Group(rows: seq<Row>, key: GroupKey, n: nat): (r: seq<nat>)
    requires n <= |rows|
  {
    if n == 0 then [] else Group(rows, key, n - 1) + if KeyOf(rows[n - 1]) == key then [n - 1] else []
  }

  lemma {:induction false} GroupHolds(rows: seq<Row>, key: GroupKey, n: nat, i: nat)
    requires n <= |rows|
    ensures i in Group(rows, key, n) <==> i < n && KeyOf(rows[i]) == key
  {
    hide KeyOf;
    if n > 0 {
      GroupHolds(rows, key, n - 1, i);
    }
  }

  ghost predicate Within(group: seq<nat>, n: nat) {
    forall j :: 0 <= j < |group| ==> group[j] < n
  }

  function Entries(rows: seq<Row>, group: seq<nat>): (r: seq<Entry>)
    requires Within(group, |rows|)
  {
    if group == [] then [] else Entries(rows, group[..|group| - 1]) + [EntryOf(rows, group[|group| - 1])]
  }

  lemma EntriesSnoc(rows: seq<Row>, group: seq<nat>, i: nat)
    requires Within(group, |rows|) && i < |rows|
    ensures Entries(rows, group + [i]) == Entries(rows, group) + [EntryOf(rows, i)]
  {
    assert (group + [i])[..|group|] == group;
  }

  lemma {:induction false} MembersAreEntries(rows: seq<Row>, key: GroupKey, n: nat)
    requires n <= |rows|
    ensures Within(Group(rows, key, n), n) && Within(Group(rows, key, n), |rows|)
    ensures Entries(rows, Group(rows, key, n)) == Members(rows, key, n)
  {
    hide KeyOf, EntryOf;
    if n > 0 {
      MembersAreEntries(rows, key, n - 1);
      var before := Group(rows, key, n - 1);
      assert Within(Group(rows, key, n), n);
      if KeyOf(rows[n - 1]) == key {
        EntriesSnoc(rows, before, n - 1);
      } else {
        assert Group(rows, key, n) == before;
      }
    }
  }

  ghost function IndexSet(entries: seq<Entry>): set<nat> {
    set e | e in entries :: e.index
  }

  ghost function RowsOf(rows: seq<Row>, keys: set<GroupKey>): set<nat> {
    set i: nat | i < |rows| && KeyOf(rows[i]) in keys
  }

  lemma GroupIsDone(rows: seq<Row>, keys: set<GroupKey>, key: GroupKey)
    ensures RowsOf(rows, keys) + IndexSet(Placed(rows, key)) == RowsOf(rows, keys + {key})
  {
    var p := Placed(rows, key);
    PlacedIsGroup(rows, key);
    hide Placed, EntryOf, KeyOf;
    forall i: nat | i in RowsOf(rows, {key}) ensures i in IndexSet(p) {
      EntryIndex(rows, i);
      assert EntryOf(rows, i) in p;
    }
  }

  lemma AllDone(rows: seq<Row>, done: set<nat>)
    requires forall i: nat :: i < |rows| ==> i in done
    ensures Partly(rows, done) == Backfilled(rows)
  {
    hide Renumbered, DocumentIndex;
  }

  lemma NoneDone(rows: seq<Row>)
    ensures Partly(rows, {}) == rows
  {
  }

  lemma EntryTurn(rows: seq<Row>, key: GroupKey, d: nat, done: set<nat>)
    requires d < |Placed(rows, key)| && done !! RowsOf(rows, {key})
    ensures var i := Placed(rows, key)[d].index;
      && i < |rows| && KeyOf(rows[i]) == key && i !in done + IndexSet(Placed(rows, key)[..d])
      && DocumentIndex(rows, i) == (if AllResolve(rows, key) then Some(d) else None)
    ensures IndexSet(Placed(rows, key)[..d + 1]) == IndexSet(Placed(rows, key)[..d]) + {Placed(rows, key)[d].index}
  {
    var p := Placed(rows, key);
    hide Placed, EntryOf, KeyOf, AllResolve, Resolves, PlaceOf;
    PlacedIsGroup(rows, key);
    PlaceOfEntry(p, d);
    assert p[d] in p;
    var i := p[d].index;
    assert i in RowsOf(rows, {key});
    hide Sorted;
    assert p[..d + 1] == p[..d] + [p[d]];
  }

  /** The grouping after `n` rows. */
  ghost predicate Grouped(rows: seq<Row>, keys: seq<GroupKey>, groups: map<GroupKey, seq<nat>>, n: nat) {
    && n <= |rows| && NoDuplicates(keys)
    && (forall k :: k in groups <==> k in keys)
    && (forall k :: if k in groups then groups[k] == Group(rows, k, n) else Group(rows, k, n) == [])
    && (forall i :: 0 <= i < n ==> KeyOf(rows[i]) in groups)
  }

  lemma GroupedStep(rows: seq<Row>, keys: seq<GroupKey>, groups: map<GroupKey, seq<nat>>, n: nat)
    requires Grouped(rows, keys, groups, n) && n < |rows|
    ensures var key := KeyOf(rows[n]);
      var members := if key in groups then groups[key] else [];
      Grouped(rows, if key in groups then keys else keys + [key], groups[key := members + [n]], n + 1)
  {
    hide KeyOf, NoDuplicates;
    var key := KeyOf(rows[n]);
    forall k ensures Group(rows, k, n + 1) == Group(rows, k, n) + if key == k then [n] else [] {
    }
    hide Group;
    NoDuplicatesAppend(keys, [key]);
    OneKeyOnly(key);
    assert forall k :: k in keys + [key] <==> k in keys || k == key;
  }

  lemma OneKeyOnly(key: GroupKey)
    ensures NoDuplicates([key])
  {
  }

  ghost function KeySet(keys: seq<GroupKey>, n: nat): set<GroupKey>
    requires n <= |keys|
  {
    set k | k in keys[..n]
  }

  lemma GroupedAt(rows: seq<Row>, keys: seq<GroupKey>, groups: map<GroupKey, seq<nat>>, g: nat)
    requires Grouped(rows, keys, groups, |rows|) && g < |keys|
    ensures keys[g] in groups && groups[keys[g]] == Group(rows, keys[g], |rows|)
    ensures keys[g] !in KeySet(keys, g) && KeySet(keys, g + 1) == KeySet(keys, g) + {keys[g]}
  {
    hide Group, KeyOf;
    NoDuplicatesPrefix(keys, g);
    assert keys[..g + 1] == keys[..g] + [keys[g]];
  }

  lemma OtherGroups(rows: seq<Row>, covered: set<GroupKey>, key: GroupKey)
    requires key !in covered
    ensures RowsOf(rows, covered) !! RowsOf(rows, {key})
  {
  }

  lemma AllCovered(rows: seq<Row>, keys: seq<GroupKey>, groups: map<GroupKey, seq<nat>>)
    requires Grouped(rows, keys, groups, |rows|)
    ensures forall i: nat :: i < |rows| ==> i in RowsOf(rows, KeySet(keys, |keys|))
  {
    hide KeyOf, Group;
    assert keys[..|keys|] == keys;
  }

  /** The document chunks of the store. */
  class ChunkTable {
    var rows: seq<Row>

    constructor (rows: seq<Row>)
      ensures this.rows == rows
    {
      this.rows := rows;
    }

    /** The second half: all updates in one transaction. */
    method ApplyUpdates(pending: seq<Pending>)
      modifies this
      ensures rows == ApplyAll(old(rows), pending)
    {
      for n := 0 to |pending|
        invariant rows == ApplyAll(old(rows), pending[..n])
      {
        assert pending[..n + 1][..n] == pending[..n];
        match Lookup(rows, pending[n].memoryId)
        case None =>
        case Some(i) => rows := rows[i := Apply(rows[i], pending[n].updates)];
      }
      assert pending[..|pending|] == pending;
    }

    /** The entries of one group, and whether all its positions resolve. */
    method NormalizeGroup(group: seq<nat>) returns (entries: seq<Entry>, canAssign: bool)
      requires Within(group, |rows|)
      ensures entries == Entries(rows, group)
      ensures canAssign <==> forall j :: 0 <= j < |group| ==> Resolves(rows[group[j]])
    {
      entries, canAssign := [], true;
      for j := 0 to |group|
        invariant entries == Entries(rows, group[..j])
        invariant canAssign <==> forall i :: 0 <= i < j ==> Resolves(rows[group[i]])
      {
        assert group[..j + 1][..j] == group[..j];
        hide Resolves, EntryOf;
        if !Resolves(rows[group[j]]) {
          canAssign := false;
        }
        entries := entries + [EntryOf(rows, group[j])];
      }
      assert group[..|group|] == group;
    }

    lemma GroupResolves(key: GroupKey)
      ensures Within(Group(rows, key, |rows|), |rows|)
      ensures AllResolve(rows, key)
         <==> forall j :: 0 <= j < |Group(rows, key, |rows|)| ==> Resolves(rows[Group(rows, key, |rows|)[j]])
    {
      var g := Group(rows, key, |rows|);
      MembersAreEntries(rows, key, |rows|);
      hide Group, Resolves, KeyOf, Entries, Members;
      forall i: nat ensures i in g <==> i < |rows| && KeyOf(rows[i]) == key {
        GroupHolds(rows, key, |rows|, i);
      }
      if forall j :: 0 <= j < |g| ==> Resolves(rows[g[j]]) {
        forall i | 0 <= i < |rows| && KeyOf(rows[i]) == key ensures Resolves(rows[i]) {
          assert i in g;
          var j :| 0 <= j < |g| && g[j] == i;
        }
      }
      if AllResolve(rows, key) {
        forall j | 0 <= j < |g| ensures Resolves(rows[g[j]]) {
          assert g[j] in g;
        }
      }
    }

    /** The updates of one group, in sorted order. */
    method GroupUpdates(key: GroupKey, group: seq<nat>, pending: seq<Pending>, ghost done: set<nat>)
      returns (more: seq<Pending>)
      requires UniqueIds(rows) && group == Group(rows, key, |rows|)
      requires ApplyAll(rows, pending) == Partly(rows, done) && done !! RowsOf(rows, {key})
      ensures ApplyAll(rows, more) == Partly(rows, done + IndexSet(Placed(rows, key)))
    {
      more := pending;
      MembersAreEntries(rows, key, |rows|);
      GroupResolves(key);
      var entries, canAssign := NormalizeGroup(group);
      var sorted := Sort(EntryLe, entries);
      assert sorted == Placed(rows, key) && (canAssign <==> AllResolve(rows, key));
      assert done + IndexSet(sorted[..0]) == done;
      assert sorted[..|sorted|] == sorted;
      hide *;
      for d := 0 to |sorted|
        invariant ApplyAll(rows, more) == Partly(rows, done + IndexSet(sorted[..d]))
      {
        EntryTurn(rows, key, d, done);
        more := RowUpdates(sorted[d].index, if canAssign then Some(d) else None, more, done + IndexSet(sorted[..d]));
        assert done + IndexSet(sorted[..d]) + {sorted[d].index} == done + IndexSet(sorted[..d + 1]);
      }
    }

    method RowUpdates(i: nat, document: Option<int>, pending: seq<Pending>, ghost done: set<nat>)
      returns (more: seq<Pending>)
      requires UniqueIds(rows) && i < |rows| && i !in done && document == DocumentIndex(rows, i)
      requires ApplyAll(rows, pending) == Partly(rows, done)
      ensures ApplyAll(rows, more) == Partly(rows, done + {i})
    {
      more := pending;
      hide *;
      var updates := UpdatesOf(rows[i], document);
      PartlyStep(rows, done, i);
      if rows[i].memoryId.Some? && updates != NOTHING {
        more := more + [Pending(rows[i].memoryId.value, updates)];
        ApplyAllSnoc(rows, pending, Pending(rows[i].memoryId.value, updates));
      }
    }

    /** `grouped_rows`, and its keys in insertion order */
    method GroupRows() returns (keys: seq<GroupKey>, groups: map<GroupKey, seq<nat>>)
      ensures Grouped(rows, keys, groups, |rows|)
    {
      keys, groups := [], map[];
      assert Grouped(rows, keys, groups, 0);
      hide *;
      for n := 0 to |rows|
        invariant Grouped(rows, keys, groups, n)
      {
        GroupedStep(rows, keys, groups, n);
        var key := KeyOf(rows[n]);
        var members := if key in groups then groups[key] else [];
        if key !in groups {
          keys := keys + [key];
        }
        groups := groups[key := members + [n]];
      }
    }

    /** `_backfill_document_chunk_positions` */
    method BackfillDocumentChunkPositions()
      requires UniqueIds(rows)
      modifies this
      ensures rows == Backfilled(old(rows))
    {
      var keys, groups := GroupRows();
      var pending: seq<Pending> := [];
      NoneDone(rows);
      assert KeySet(keys, 0) == {} && RowsOf(rows, {}) == {};
      assert ApplyAll(rows, []) == rows;
      hide *;
      for g := 0 to |keys|
        invariant rows == old(rows)
        invariant ApplyAll(rows, pending) == Partly(rows, RowsOf(rows, KeySet(keys, g)))
      {
        GroupedAt(rows, keys, groups, g);
        ghost var covered := KeySet(keys, g);
        OtherGroups(rows, covered, keys[g]);
        pending := GroupUpdates(keys[g], groups[keys[g]], pending, RowsOf(rows, covered));
        GroupIsDone(rows, covered, keys[g]);
      }
      AllCovered(rows, keys, groups);
      AllDone(rows, RowsOf(rows, KeySet(keys, |keys|)));
      ApplyUpdates(pending);
    }
  }
}
