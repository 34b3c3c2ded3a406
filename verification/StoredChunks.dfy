/** What the store holds of a document after a successful ingest, chunk by chunk, and what the result's counts count. */
module StoredChunks {
  import opened Common
  import opened Text
  import opened Chunking
  import opened Hashing
  import opened Store
  import opened IngestPlan
  import opened DocumentPlan
  import opened DocumentIngest
  import opened IngestTheorems

  // ---------- a chunk of the document, as it is stored ----------

  /** The key of a chunk: the hash of path, heading path and index, one to a line. */
  function KeyOfChunk(hash: string -> string, path: string, chunk: MarkdownChunk): string {
    hash(path + "\n" + HeadingPathKey(chunk.headingPath) + "\n" + Decimal(chunk.chunkIndex))
  }

  /** The stored fields that say what a chunk is and where it comes from. */
  predicate HoldsText(data: Create, title: Option<string>, summary: Option<string>, chunk: MarkdownChunk, k: nat) {
    && data.payload.title == title && data.payload.summary == summary && data.payload.text == Strip(chunk.text)
    && data.payload.headingPath == chunk.headingPath && data.payload.sectionIndex == chunk.sectionIndex
    && data.payload.chunkIndex == chunk.chunkIndex && data.payload.documentChunkIndex == k
  }

  /** A visible chunk of the document under its key. */
  predicate IsFiled(data: Create, doc: Document, key: string) {
    && data.scope == doc.scope && data.memoryType == DocumentChunk && data.sourcePath == Some(doc.path)
    && data.stableKey == Some(key) && data.sourceHash == Some(key)
    && data.status == Active && data.allowRetrieval && data.allowLlmContext && !data.documentRemoved
  }

  /** A chunk without what is computed from it. */
  function Bare(data: Create): Create {
    data.(chunkId := None, contentHash := None, payload := data.payload.(embedding := NoEmbedding))
  }

  /** Content hash, chunk id and vector belong to the very chunk that carries them. */
  predicate IsDerived(env: Environment, embedding: string -> Embedding, doc: Document, data: Create, chunk: MarkdownChunk) {
    var content := env.hash(NormalizeNewlines(env.embeddingText(Bare(data))));
    && data.contentHash == Some(content)
    && data.chunkId == Some(env.hash(doc.path + "\n" + HeadingPathKey(chunk.headingPath) + "\n" + Decimal(chunk.chunkIndex) + "\n" + content))
    && data.payload.embedding == embedding(env.embeddingText(data.(payload := data.payload.(embedding := NoEmbedding))))
  }

  lemma CandidateHolds(
    env: Environment, embedding: string -> Embedding, doc: Document, title: Option<string>, summary: Option<string>,
    chunks: seq<MarkdownChunk>, k: nat
  )
    requires k < |chunks|
    ensures var data := Embedded(env, embedding, Candidates(env, doc, title, summary, chunks)[k]);
      && HoldsText(data, title, summary, chunks[k], k)
      && IsFiled(data, doc, KeyOfChunk(env.hash, doc.path, chunks[k]))
      && IsDerived(env, embedding, doc, data, chunks[k])
    ensures CreateKey(Candidates(env, doc, title, summary, chunks)[k]) == KeyOfChunk(env.hash, doc.path, chunks[k])
  {
    CandidateAt(env, doc, title, summary, chunks, k);
    hide Candidates, Strip, NormalizeNewlines, HeadingPathKey, Decimal;
  }

  // ---------- after a successful ingest ----------

  /** The stored chunk under `key` is already what is planned. */
  ghost predicate StoredUnchanged(db: Database, doc: Document, key: string, c: Create) {
    At(db, doc, key).Some? && Matches(At(db, doc, key).value, c)
  }

  /** What a planned key holds when the target is reached. */
  lemma PlannedKeyReached(
    policy: RemovedChunkPolicy, db: Database, doc: Document, planned: map<string, Create>, after: Database, key: string
  )
    requires Reached(policy, db, doc, planned, after) && key in planned
    ensures At(after, doc, key).Some?
    ensures if StoredUnchanged(db, doc, key, planned[key]) then Erase(At(after, doc, key).value) == Erase(At(db, doc, key).value)
            else At(after, doc, key).value.data == planned[key]
  {
    AtFromView(after, doc, key);
    AtFromView(db, doc, key);
    assert View(after, doc, key) == Target(policy, Planned(planned, key), View(db, doc, key));
    hide At, Tidy, Others, View, Reached;
  }

  lemma SameMatch(env: Environment, embedding: string -> Embedding, r: Record, c: Create)
    ensures Matches(r, Embedded(env, embedding, c)) <==> Matches(r, c)
  {
  }

  /** After a successful ingest of what was read, every chunk of the document is stored, under its key, as one visible
      record with the document's title and summary, its own text, headings and positions, and with hash, id and vector
      computed from just that; unless it was there unchanged before, and is left as it was. */
  lemma ChunkIsStored(
    env: Environment, embedding: string -> Embedding, settings: Settings, source: Source, reading: Reading, db: Database, doc: Document,
    found: seq<Record>, now: int, commits: nat, k: nat
  )
    requires Sound(env, embedding, settings) && Reads(settings, source, reading) && k < |reading.chunks|
    requires Ready(db, doc, found, Candidates(env, doc, reading.title, source.description, reading.chunks))
    requires Outcome(env, settings, db, found, Candidates(env, doc, reading.title, source.description, reading.chunks),
                     false, now, commits).1.Ok?
    ensures var cands := Candidates(env, doc, reading.title, source.description, reading.chunks);
      var after := Outcome(env, settings, db, found, cands, false, now, commits).0;
      var key := KeyOfChunk(env.hash, doc.path, reading.chunks[k]);
      && At(after, doc, key).Some?
      && var data := At(after, doc, key).value.data;
      if StoredUnchanged(db, doc, key, cands[k]) then data == At(db, doc, key).value.data
      else
        && HoldsText(data, reading.title, source.description, reading.chunks[k], k)
        && IsFiled(data, doc, key)
        && IsDerived(env, embedding, doc, data, reading.chunks[k])
  {
    var cands := Candidates(env, doc, reading.title, source.description, reading.chunks);
    var planned, key := PlannedChunks(env, embedding, cands), KeyOfChunk(env.hash, doc.path, reading.chunks[k]);
    var after := Outcome(env, settings, db, found, cands, false, now, commits).0;
    IngestMovesTowardsTarget(env, embedding, settings, db, doc, found, cands, now, commits);
    CandidateHolds(env, embedding, doc, reading.title, source.description, reading.chunks, k);
    assert GoodCandidates(doc, cands);
    KeysAreDistinct(doc, cands);
    hide *;
    PlannedChunksAre(env, embedding, cands);
    assert cands[k] in cands;
    PlannedKeyReached(settings.policy, db, doc, planned, after, key);
    StoredEither(env, embedding, db, doc, key, cands[k]);
    ErasedData(At(after, doc, key).value, At(db, doc, key));
  }

  lemma KeysAreDistinct(doc: Document, cands: seq<Create>)
    requires GoodCandidates(doc, cands)
    ensures NoDuplicates(CreateKeys(cands))
  {
  }

  lemma StoredEither(env: Environment, embedding: string -> Embedding, db: Database, doc: Document, key: string, c: Create)
    ensures StoredUnchanged(db, doc, key, Embedded(env, embedding, c)) <==> StoredUnchanged(db, doc, key, c)
    ensures StoredUnchanged(db, doc, key, c) ==> At(db, doc, key).Some?
  {
    hide At;
  }

  lemma ErasedData(a: Record, b: Option<Record>)
    ensures b.Some? && Erase(a) == Erase(b.value) ==> a.data == b.value.data
  {
  }

  // ---------- what is no longer planned ----------

  /** A stored chunk that is no longer planned: gone from the store, or kept in it as removed and hidden under the same
      keys, unless it was removed or deleted before. */
  ghost predicate IsDropped(policy: RemovedChunkPolicy, before: Record, after: Option<Record>) {
    if before.data.status == Removed || before.data.status == Deleted then after == Some(before)
    else if policy == HardDelete then after == None
    else
      && after.Some?
      && var d := after.value.data;
      && d.status == Removed && !d.allowRetrieval && !d.allowLlmContext && d.documentRemoved
      && d == before.data.(status := d.status, allowRetrieval := d.allowRetrieval, allowLlmContext := d.allowLlmContext,
                           documentRemoved := d.documentRemoved)
      && after.value == before.(version := before.version + 1, data := d)
  }

  lemma UnplannedKeyReached(
    policy: RemovedChunkPolicy, db: Database, doc: Document, planned: map<string, Create>, after: Database, key: string
  )
    requires Reached(policy, db, doc, planned, after) && key !in planned
    ensures match View(db, doc, key)
      case None => View(after, doc, key).None?
      case Some(before) => IsDropped(policy, before, View(after, doc, key))
  {
    assert View(after, doc, key) == Target(policy, Planned(planned, key), View(db, doc, key));
    hide At, Tidy, Others, View, Reached;
  }

  /** After a successful ingest, what was stored of the document under a key that is no longer planned is dropped. */
  lemma UnplannedChunksAreDropped(
    env: Environment, embedding: string -> Embedding, settings: Settings, db: Database, doc: Document, found: seq<Record>,
    cands: seq<Create>, now: int, commits: nat, key: string
  )
    requires Sound(env, embedding, settings) && Ready(db, doc, found, cands) && key !in CreateKeys(cands)
    requires Outcome(env, settings, db, found, cands, false, now, commits).1.Ok?
    ensures var after := Outcome(env, settings, db, found, cands, false, now, commits).0;
      match View(db, doc, key)
      case None => View(after, doc, key).None?
      case Some(before) => IsDropped(settings.policy, before, View(after, doc, key))
  {
    var planned, after := PlannedChunks(env, embedding, cands), Outcome(env, settings, db, found, cands, false, now, commits).0;
    IngestMovesTowardsTarget(env, embedding, settings, db, doc, found, cands, now, commits);
    assert GoodCandidates(doc, cands);
    KeysAreDistinct(doc, cands);
    hide *;
    PlannedChunksAre(env, embedding, cands);
    UnplannedKeyReached(settings.policy, db, doc, planned, after, key);
  }

  // ---------- planned ids ----------

  /** A hash like SHA-256 in hexadecimal: no two texts share it, and it has no line break. */
  ghost predicate IsHexHash(hash: string -> string) {
    (forall a, b :: hash(a) == hash(b) ==> a == b) && (forall s :: '\n' !in hash(s))
  }

  /** Two planned chunks have one id exactly when heading key, index and content hash agree. */
  lemma PlannedIdsAgree(
    env: Environment, doc: Document, title: Option<string>, summary: Option<string>, chunks: seq<MarkdownChunk>, i: nat, j: nat
  )
    requires IsHexHash(env.hash) && i < |chunks| && j < |chunks|
    ensures var cands := Candidates(env, doc, title, summary, chunks);
      cands[i].chunkId == cands[j].chunkId <==>
        && HeadingPathKey(chunks[i].headingPath) == HeadingPathKey(chunks[j].headingPath)
        && chunks[i].chunkIndex == chunks[j].chunkIndex
        && cands[i].contentHash == cands[j].contentHash
  {
    var cands := Candidates(env, doc, title, summary, chunks);
    CandidateAt(env, doc, title, summary, chunks, i);
    CandidateAt(env, doc, title, summary, chunks, j);
    IdText(env, doc, title, summary, chunks[i], i);
    IdText(env, doc, title, summary, chunks[j], j);
    hide Candidates, BuildChunkMemory, HeadingPathKey, SourceHashInput;
    SourceHashInputInjective(doc.path, chunks[i].headingPath, chunks[i].chunkIndex, chunks[j].headingPath, chunks[j].chunkIndex);
    var a := SourceHashInput(doc.path, chunks[i].headingPath, chunks[i].chunkIndex);
    var b := SourceHashInput(doc.path, chunks[j].headingPath, chunks[j].chunkIndex);
    var x, y := cands[i].contentHash.value, cands[j].contentHash.value;
    if a + "\n" + x == b + "\n" + y {
      LastNewlineSplits(a, x, b, y);
    }
  }

  lemma IdText(env: Environment, doc: Document, title: Option<string>, summary: Option<string>, chunk: MarkdownChunk, k: nat)
    requires IsHexHash(env.hash)
    ensures var c := BuildChunkMemory(env, doc, title, summary, chunk, k);
      && c.contentHash.Some? && '\n' !in c.contentHash.value
      && c.chunkId == Some(env.hash(SourceHashInput(doc.path, chunk.headingPath, chunk.chunkIndex) + "\n" + c.contentHash.value))
  {
    hide NormalizeNewlines, Strip, SourceHashInput;
  }

  // ---------- what the counts count ----------

  /** The planned keys that are not stored yet, and those that are stored otherwise. */
  ghost function NewKeys(db: Database, doc: Document, cands: seq<Create>): set<string> {
    set c | c in cands && At(db, doc, CreateKey(c)).None? :: CreateKey(c)
  }

  ghost function ChangedKeys(db: Database, doc: Document, cands: seq<Create>): set<string> {
    set c | c in cands && At(db, doc, CreateKey(c)).Some? && !StoredUnchanged(db, doc, CreateKey(c), c) :: CreateKey(c)
  }

  /** The listed keys that are no longer planned and still live. */
  ghost function DroppedKeys(db: Database, doc: Document, found: seq<Record>, cands: seq<Create>): set<string> {
    set r | r in found && r.data.sourceHash.Some? && r.data.sourceHash.value !in CreateKeys(cands)
         && r.data.status != Removed && r.data.status != Deleted :: r.data.sourceHash.value
  }

  lemma {:induction false} DistinctAreAsMany(keys: seq<string>, members: set<string>)
    requires NoDuplicates(keys) && forall key :: key in keys <==> key in members
    ensures |keys| == |members|
  {
    if keys == [] {
      assert members == {};
    } else {
      var n := |keys| - 1;
      NoDuplicatesPrefix(keys, n);
      assert forall key :: key in keys[..n] <==> key in members - {keys[n]};
      DistinctAreAsMany(keys[..n], members - {keys[n]});
    }
  }

  lemma {:induction false} ReplacementWithKey(replacements: seq<(Record, Create)>, key: string) returns (p: (Record, Create))
    requires key in ReplacementKeys(replacements)
    ensures p in replacements && CreateKey(p.1) == key
  {
    var n := |replacements| - 1;
    if CreateKey(replacements[n].1) == key {
      p := replacements[n];
    } else {
      p := ReplacementWithKey(replacements[..n], key);
    }
  }

  /** Which planned keys are inserted, and which replaced. */
  lemma PendingKinds(existing: map<string, Record>, cands: seq<Create>, pending: seq<PendingWrite>, key: string)
    requires ArePending(existing, cands, pending)
    ensures var a, b := CreateKeys(Inserts(pending)), ReplacementKeys(Replacements(pending));
      && (key in a ==> key !in existing && exists c :: c in cands && CreateKey(c) == key)
      && (key in b ==> key in existing && exists c :: c in cands && CreateKey(c) == key && !IsUnchanged(existing, c))
  {
    SplitMembers(pending);
    hide CreateKey, Inserts, Replacements, IsUnchanged, NoDuplicates, WriteKeys, CreateKeys, ReplacementKeys;
    if key in CreateKeys(Inserts(pending)) {
      var c := CandidateWithKey(Inserts(pending), key);
      assert PendingWrite(None, c) in pending;
    }
    if key in ReplacementKeys(Replacements(pending)) {
      var p := ReplacementWithKey(Replacements(pending), key);
      assert PendingWrite(Some(p.0), p.1) in pending;
    }
  }

  lemma PendingSplits(existing: map<string, Record>, cands: seq<Create>, pending: seq<PendingWrite>, c: Create)
    requires ArePending(existing, cands, pending) && c in cands && !IsUnchanged(existing, c)
    ensures var a, b := CreateKeys(Inserts(pending)), ReplacementKeys(Replacements(pending));
      && (CreateKey(c) !in existing ==> CreateKey(c) in a) && (CreateKey(c) in existing ==> CreateKey(c) in b)
  {
    hide *;
    PendingHas(existing, cands, pending, c);
    PendingKeys(existing, cands, pending);
    SplitKeys(pending);
    PendingKinds(existing, cands, pending, CreateKey(c));
  }

  lemma PendingHas(existing: map<string, Record>, cands: seq<Create>, pending: seq<PendingWrite>, c: Create)
    requires ArePending(existing, cands, pending) && c in cands && !IsUnchanged(existing, c)
    ensures CreateKey(c) in WriteKeys(pending)
  {
  }

  lemma UnchangedIsStored(db: Database, doc: Document, found: seq<Record>, c: Create)
    requires Tidy(db, doc) && Listed(db, doc, found)
    ensures IsUnchanged(LastByHash(found), c) <==> StoredUnchanged(db, doc, CreateKey(c), c)
    ensures CreateKey(c) in LastByHash(found) <==> At(db, doc, CreateKey(c)).Some?
  {
    IndexIsAt(db, doc, found, CreateKey(c));
    hide At, LastByHash, Matches, CreateKey, Tidy, Listed;
  }

  lemma InsertedKeys(db: Database, doc: Document, found: seq<Record>, cands: seq<Create>)
    requires Ready(db, doc, found, cands)
    ensures var pending := PendingWrites(LastByHash(found), cands);
      && |Inserts(pending)| == |NewKeys(db, doc, cands)|
      && |Replacements(pending)| == |ChangedKeys(db, doc, cands)|
  {
    var existing := LastByHash(found);
    var pending := PendingWrites(existing, cands);
    assert GoodCandidates(doc, cands) && Tidy(db, doc) && Listed(db, doc, found);
    KeysAreDistinct(doc, cands);
    PendingAre(existing, cands);
    PendingKeys(existing, cands, pending);
    SplitKeys(pending);
    var a, b := CreateKeys(Inserts(pending)), ReplacementKeys(Replacements(pending));
    NoDuplicatesAppend(a, b);
    hide Ready, GoodCandidates, Tidy, Listed, ArePending, CreateKeys, ReplacementKeys, WriteKeys, PendingWrites, LastByHash, CreateKey, At,
      StoredUnchanged, IsUnchanged, NoDuplicates;
    forall key ensures key in a <==> key in NewKeys(db, doc, cands) {
      KeyIsNew(db, doc, found, cands, pending, key);
    }
    forall key ensures key in b <==> key in ChangedKeys(db, doc, cands) {
      KeyIsChanged(db, doc, found, cands, pending, key);
    }
    DistinctAreAsMany(a, NewKeys(db, doc, cands));
    DistinctAreAsMany(b, ChangedKeys(db, doc, cands));
    if Replacements(pending) != [] {
      ReplacementKeyAt(Replacements(pending), 0);
    } else {
      NoReplacementKeys();
    }
  }

  lemma KeyIsNew(db: Database, doc: Document, found: seq<Record>, cands: seq<Create>, pending: seq<PendingWrite>, key: string)
    requires Tidy(db, doc) && Listed(db, doc, found) && ArePending(LastByHash(found), cands, pending)
    ensures key in CreateKeys(Inserts(pending)) <==> key in NewKeys(db, doc, cands)
  {
    hide Tidy, Listed, ArePending, CreateKeys, LastByHash, CreateKey, At, StoredUnchanged, IsUnchanged, Inserts, Replacements, ReplacementKeys;
    PendingKinds(LastByHash(found), cands, pending, key);
    forall c | c in cands && CreateKey(c) == key
      ensures key in LastByHash(found) <==> At(db, doc, key).Some?
      ensures At(db, doc, key).None? ==> key in CreateKeys(Inserts(pending))
    {
      UnchangedIsStored(db, doc, found, c);
      if At(db, doc, key).None? {
        NotStored(db, doc, key, c);
        PendingSplits(LastByHash(found), cands, pending, c);
      }
    }
  }

  lemma NotStored(db: Database, doc: Document, key: string, c: Create)
    requires At(db, doc, key).None?
    ensures !StoredUnchanged(db, doc, key, c)
  {
    hide At;
  }

  lemma KeyIsChanged(db: Database, doc: Document, found: seq<Record>, cands: seq<Create>, pending: seq<PendingWrite>, key: string)
    requires Tidy(db, doc) && Listed(db, doc, found) && ArePending(LastByHash(found), cands, pending)
    ensures key in ReplacementKeys(Replacements(pending)) <==> key in ChangedKeys(db, doc, cands)
  {
    hide Tidy, Listed, ArePending, CreateKeys, LastByHash, CreateKey, At, StoredUnchanged, IsUnchanged, Inserts, Replacements, ReplacementKeys;
    PendingKinds(LastByHash(found), cands, pending, key);
    forall c | c in cands && CreateKey(c) == key
      ensures key in LastByHash(found) <==> At(db, doc, key).Some?
      ensures IsUnchanged(LastByHash(found), c) <==> StoredUnchanged(db, doc, key, c)
      ensures At(db, doc, key).Some? && !StoredUnchanged(db, doc, key, c) ==> key in ReplacementKeys(Replacements(pending))
    {
      UnchangedIsStored(db, doc, found, c);
      if At(db, doc, key).Some? && !StoredUnchanged(db, doc, key, c) {
        PendingSplits(LastByHash(found), cands, pending, c);
      }
    }
  }

  lemma RemovedKeys(db: Database, doc: Document, found: seq<Record>, cands: seq<Create>)
    requires Ready(db, doc, found, cands)
    ensures (forall key :: key in KeyOrder(found) ==> key in LastByHash(found))
    ensures |Removals(LastByHash(found), KeyOrder(found), CreateKeys(cands))| == |DroppedKeys(db, doc, found, cands)|
  {
    var existing, planned := LastByHash(found), CreateKeys(cands);
    assert Tidy(db, doc) && Listed(db, doc, found);
    KeyOrderIsKeys(found);
    var removals := Removals(existing, KeyOrder(found), planned);
    RemovalsAre(existing, KeyOrder(found), planned);
    hide Ready, Removals, Tidy, Listed, CreateKeys, KeyOrder, LastByHash, RecordKeys, NoDuplicates;
    forall r | r in found && r.data.sourceHash.Some? ensures existing[r.data.sourceHash.value] == r {
      LastIsOnly(db, doc, found, r);
    }
    forall key ensures key in RecordKeys(removals) <==> key in DroppedKeys(db, doc, found, cands) {
      if key in existing {
        assert existing[key] in found;
      }
    }
    DistinctAreAsMany(RecordKeys(removals), DroppedKeys(db, doc, found, cands));
    if removals != [] {
      RecordKeyAt(removals, 0);
    } else {
      NoReplacementKeys();
    }
  }

  lemma LastIsOnly(db: Database, doc: Document, found: seq<Record>, r: Record)
    requires Tidy(db, doc) && Listed(db, doc, found) && r in found && r.data.sourceHash.Some?
    ensures r.data.sourceHash.value in LastByHash(found) && LastByHash(found)[r.data.sourceHash.value] == r
  {
    var key := r.data.sourceHash.value;
    KeyOrderIsKeys(found);
    hide LastByHash, KeyOrder;
    var last := LastByHash(found)[key];
    assert Mine(db, doc, last.memoryId) && Mine(db, doc, r.memoryId);
    assert db.records[last.memoryId].data.sourceHash == db.records[r.memoryId].data.sourceHash;
  }

  /** A successful ingest, and a dry run, report as added the planned keys that were not stored, as updated those that
      were stored otherwise, as removed the live stored keys that are no longer planned, and the rest as unchanged. */
  lemma CountsAre(
    env: Environment, embedding: string -> Embedding, settings: Settings, db: Database, doc: Document, found: seq<Record>,
    cands: seq<Create>, dryRun: bool, now: int, commits: nat
  )
    requires Sound(env, embedding, settings) && Ready(db, doc, found, cands)
    requires Outcome(env, settings, db, found, cands, dryRun, now, commits).1.Ok?
    ensures var r := Outcome(env, settings, db, found, cands, dryRun, now, commits).1.value;
      && r.added == |NewKeys(db, doc, cands)| && r.updated == |ChangedKeys(db, doc, cands)|
      && r.removed == |DroppedKeys(db, doc, found, cands)|
      && r.same == |cands| - r.added - r.updated
  {
    InsertedKeys(db, doc, found, cands);
    RemovedKeys(db, doc, found, cands);
    hide Sound, Ready, NewKeys, ChangedKeys, DroppedKeys;
    DryRunForetells(env, embedding, settings, db, found, cands, now, commits);
    DryResult(env, settings, db, found, cands, now, commits);
    hide Outcome;
  }

  lemma DryResult(env: Environment, settings: Settings, db: Database, found: seq<Record>, cands: seq<Create>, now: int, commits: nat)
    requires forall key :: key in KeyOrder(found) ==> key in LastByHash(found)
    ensures var pending := PendingWrites(LastByHash(found), cands);
      Outcome(env, settings, db, found, cands, true, now, commits).1 == Ok(IngestResult(
        |Inserts(pending)|, |Replacements(pending)|, |Removals(LastByHash(found), KeyOrder(found), CreateKeys(cands))|,
        |cands| - |pending|))
  {
    hide PendingWrites, LastByHash, KeyOrder, Removals, Inserts, Replacements, CreateKeys;
  }

  // ---------- what an ingest never changes ----------

  /** A record that is still there was created when it was, has its carried fields, and is untouched or stamped. */
  ghost predicate OriginsKept(before: Database, after: Database, now: int) {
    forall id :: id in before.records && id in after.records ==>
      && after.records[id].createdAt == before.records[id].createdAt && after.records[id].carried == before.records[id].carried
      && (after.records[id] == before.records[id] || after.records[id].updatedAt == now)
  }

  ghost predicate ReplacesStored(db: Database, ops: seq<Op>) {
    forall k :: 0 <= k < |ops| && ops[k].ReplaceOp? ==>
      ops[k].existing.memoryId in db.records && db.records[ops[k].existing.memoryId] == ops[k].existing
  }

  lemma {:induction false} OriginsStay(policy: RemovedChunkPolicy, now: int, db: Database, ops: seq<Op>)
    requires Consistent(db) && ReplacesStored(db, ops) && ApplyOps(policy, now, db, ops).Ok?
    ensures var after := ApplyOps(policy, now, db, ops).value;
      Consistent(after) && OriginsKept(db, after, now) && after.nextId >= db.nextId
  {
    if ops != [] {
      var n := |ops| - 1;
      OriginsStay(policy, now, db, ops[..n]);
      var mid := ApplyOps(policy, now, db, ops[..n]).value;
      hide ApplyOps;
      OneOriginStays(policy, now, db, mid, ops[n]);
    }
  }

  lemma OneOriginStays(policy: RemovedChunkPolicy, now: int, db: Database, mid: Database, op: Op)
    requires Consistent(db) && Consistent(mid) && OriginsKept(db, mid, now) && mid.nextId >= db.nextId
    requires op.ReplaceOp? ==> op.existing.memoryId in db.records && db.records[op.existing.memoryId] == op.existing
    requires ApplyOp(policy, now, mid, op).Ok?
    ensures var after := ApplyOp(policy, now, mid, op).value;
      Consistent(after) && OriginsKept(db, after, now) && after.nextId >= db.nextId
  {
  }

  /** An ingest, finished or not, changes no creation time. */
  lemma IngestKeepsOrigins(
    env: Environment, embedding: string -> Embedding, settings: Settings, db: Database, doc: Document, found: seq<Record>,
    cands: seq<Create>, now: int, commits: nat
  )
    requires Sound(env, embedding, settings) && Ready(db, doc, found, cands)
    ensures OriginsKept(db, Outcome(env, settings, db, found, cands, false, now, commits).0, now)
  {
    var ops, planned := RealOps(env, embedding, found, cands), PlannedChunks(env, embedding, cands);
    var k := CommittedCount(|ops|, settings.transactionSize, commits);
    RealOutcome(env, embedding, settings, db, found, cands, now, commits);
    IngestIsPlan(settings.policy, env, embedding, db, doc, found, cands);
    assert Tidy(db, doc);
    hide *;
    PlanReachesTarget(settings.policy, now, db, doc, planned, ops);
    SizesAreSound(env, embedding, settings);
    CommittedIsPrefix(settings.policy, now, db, ops, settings.transactionSize, commits);
    PlanReplacesStored(settings.policy, db, doc, planned, ops, k);
    OriginsStay(settings.policy, now, db, ops[..k]);
  }

  lemma PlanReplacesStored(policy: RemovedChunkPolicy, db: Database, doc: Document, planned: map<string, Create>, ops: seq<Op>, k: nat)
    requires Tidy(db, doc) && IsPlan(policy, db, doc, planned, ops) && k <= |ops|
    ensures Consistent(db) && ReplacesStored(db, ops[..k])
  {
    hide At;
    forall i | 0 <= i < k && ops[..k][i].ReplaceOp?
      ensures ops[i].existing.memoryId in db.records && db.records[ops[i].existing.memoryId] == ops[i].existing
    {
      assert OpFits(db, doc, planned, OpKey(ops[i]), ops[i]);
      AtIsMine(db, doc, OpKey(ops[i]));
    }
  }

  /** A limit may be reached, not passed; without a limit everything is within it. */
  lemma LimitsMayBeReached(settings: Settings, source: Source, sections: nat, chunks: nat)
    ensures WithinLimits(settings, source, sections, chunks) <==>
      && (settings.limits.maxFileSize.Some? ==> source.fileSize <= settings.limits.maxFileSize.value)
      && (settings.limits.maxFrontmatter.Some? ==> source.frontmatterBytes <= settings.limits.maxFrontmatter.value)
      && (settings.limits.maxSections.Some? ==> sections <= settings.limits.maxSections.value)
      && (settings.limits.maxChunks.Some? ==> chunks <= settings.limits.maxChunks.value)
  {
  }
}
