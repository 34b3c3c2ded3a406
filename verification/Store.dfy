/** Memory records and the repository operations that ingestion uses. */
module Store {
  import opened Common

  datatype Scope = Scope(userId: Option<string>, projectId: Option<string>, agentId: Option<string>)

  datatype MemoryType =
    | UserPreference | ProjectFact | TaskState | ConversationSummary | Decision | Observation | ErrorDebugNote | DocumentChunk

  datatype MemoryStatus =
    | Active | Candidate | Superseded | Contradicted | Expired | Forgotten | Deleted | Removed

  /** What became of the vector that the embedding provider returned. */
  datatype Embedding = NoEmbedding | Attached(vector: seq<real>) | Quarantined(vector: seq<real>)

  /** The fields of a chunk that no decision of the ingest depends on. */
  datatype Payload = Payload(
    title: Option<string>, summary: Option<string>, text: string, headingPath: seq<string>,
    sectionIndex: nat, chunkIndex: nat, documentChunkIndex: nat, embedding: Embedding
  )

  /** `MemoryCreate`; `contentHash` and `documentRemoved` live in its metadata. */
  datatype Create = Create(
    scope: Scope, memoryType: MemoryType, status: MemoryStatus,
    stableKey: Option<string>, sourcePath: Option<string>, sourceHash: Option<string>,
    chunkId: Option<string>, contentHash: Option<string>,
    allowRetrieval: bool, allowLlmContext: bool, documentRemoved: bool, payload: Payload
  )

  /** `MemoryRecord`; `carried` stands for the fields that a replacement leaves alone. */
  datatype Record = Record(memoryId: nat, data: Create, carried: string, version: nat, createdAt: int, updatedAt: int)

  /** All records by id. Fresh ids are handed out in order. */
  datatype Database = Database(records: map<nat, Record>, nextId: nat)

  ghost predicate Consistent(db: Database) {
    forall id :: id in db.records ==> id < db.nextId && db.records[id].memoryId == id
  }

  /** `_new_record` and `_insert_memory` */
  function Insert(db: Database, memory: Create, now: int): Database {
    Database(db.records[db.nextId := Record(db.nextId, memory, "", 1, now, now)], db.nextId + 1)
  }

  /** `_persist_existing` */
  function PersistExisting(db: Database, record: Record): Result<Database> {
    if record.memoryId !in db.records then Err(MemoryNotFoundError)
    else Ok(db.(records := db.records[record.memoryId := record]))
  }

  /** `_delete_memory` */
  function Delete(db: Database, memoryId: nat): Result<Database> {
    if memoryId !in db.records then Err(MemoryNotFoundError)
    else Ok(db.(records := db.records - {memoryId}))
  }

  /** `_replace_record` */
  function ReplaceRecord(existing: Record, replacement: Create, stableKey: string, now: int): Record {
    existing.(data := replacement.(stableKey := Some(stableKey)), version := existing.version + 1, updatedAt := now)
  }

  /** `_update_memory` with the patch that marks a chunk as removed; the patch's metadata comes from the
      record as it was listed, every other field from the stored record. */
  function MarkRemoved(db: Database, listed: Record, now: int): Result<Database> {
    if listed.memoryId !in db.records then Err(MemoryNotFoundError)
    else
      var stored := db.records[listed.memoryId];
      var data := stored.data.(status := Removed, allowRetrieval := false, allowLlmContext := false,
                               contentHash := listed.data.contentHash, documentRemoved := true);
      PersistExisting(db, stored.(data := data, version := stored.version + 1, updatedAt := now))
  }

  /** A scope and a source path: what one ingest is about. */
  datatype Document = Document(scope: Scope, path: string)

  predicate BelongsTo(data: Create, doc: Document) {
    data.memoryType == DocumentChunk && data.scope == doc.scope && data.sourcePath == Some(doc.path)
  }

  predicate Mine(db: Database, doc: Document, id: nat) {
    id in db.records && BelongsTo(db.records[id].data, doc)
  }

  /** The stored chunks of `doc` have pairwise distinct, non-null source hashes. */
  ghost predicate Tidy(db: Database, doc: Document) {
    && Consistent(db)
    && (forall id :: Mine(db, doc, id) ==> db.records[id].data.sourceHash.Some?)
    && (forall i, j :: Mine(db, doc, i) && Mine(db, doc, j) ==>
          db.records[i].data.sourceHash == db.records[j].data.sourceHash ==> i == j)
  }

  /** The records other than `id` are the same ones, unchanged. */
  ghost predicate OthersKept(before: Database, after: Database, id: nat) {
    forall x :: x != id ==>
      (x in after.records <==> x in before.records) && (x in before.records ==> after.records[x] == before.records[x])
  }

  lemma InsertAddsOne(db: Database, memory: Create, now: int)
    requires Consistent(db)
    ensures |Insert(db, memory, now).records| == |db.records| + 1
  {
    assert Insert(db, memory, now).records.Keys == db.records.Keys + {db.nextId};
  }

  lemma DeletingRemovesOne(db: Database, memoryId: nat)
    requires memoryId in db.records
    ensures |(db.records - {memoryId}).Keys| == |db.records| - 1
  {
    assert (db.records - {memoryId}).Keys == db.records.Keys - {memoryId};
  }

  /** What marking a chunk as removed does to the stored record, in terms of the record as it was listed: it is
      hidden and flagged, gets the listed content hash back, and keeps everything that identifies it. */
  ghost predicate MarkedFrom(stored: Record, listed: Record, marked: Record, now: int) {
    && marked.data.status == Removed && !marked.data.allowRetrieval && !marked.data.allowLlmContext
    && marked.data.documentRemoved && marked.data.contentHash == listed.data.contentHash
    && marked.version == stored.version + 1 && marked.updatedAt == now && marked.createdAt == stored.createdAt
    && marked.memoryId == stored.memoryId && marked.carried == stored.carried
    && marked.data.scope == stored.data.scope && marked.data.memoryType == stored.data.memoryType
    && marked.data.sourcePath == stored.data.sourcePath && marked.data.sourceHash == stored.data.sourceHash
    && marked.data.stableKey == stored.data.stableKey && marked.data.chunkId == stored.data.chunkId
    && marked.data.payload == stored.data.payload
  }

  /** The repository, a mutable database. */
  class Repository {
    var db: Database

    constructor ()
      ensures db == Database(map[], 0) && Consistent(db)
    {
      db := Database(map[], 0);
    }

    /** `_insert_memory` */
    method InsertMemory(memory: Create, now: int) returns (r: Record)
      requires Consistent(db)
      modifies this
      ensures Consistent(db) && OthersKept(old(db), db, r.memoryId)
      ensures r.memoryId !in old(db.records) && |db.records| == |old(db.records)| + 1
      ensures r.memoryId in db.records && db.records[r.memoryId] == r
      ensures r.data == memory && r.version == 1 && r.createdAt == r.updatedAt == now
      ensures db == Insert(old(db), memory, now)
    {
      InsertAddsOne(db, memory, now);
      r := Record(db.nextId, memory, "", 1, now, now);
      db := Database(db.records[r.memoryId := r], db.nextId + 1);
    }

    /** `_persist_existing` */
    method PersistExistingRecord(record: Record) returns (r: Result<Record>)
      requires Consistent(db)
      modifies this
      ensures Consistent(db) && OthersKept(old(db), db, record.memoryId) && db.records.Keys == old(db.records.Keys)
      ensures if record.memoryId in old(db.records) then r == Ok(record) && db.records[record.memoryId] == record
              else r == Err(MemoryNotFoundError) && db == old(db)
      ensures PersistExisting(old(db), record) == if r.Ok? then Ok(db) else Err(MemoryNotFoundError)
    {
      if record.memoryId !in db.records {
        return Err(MemoryNotFoundError);
      }
      db := db.(records := db.records[record.memoryId := record]);
      r := Ok(record);
    }

    /** `_delete_memory` */
    method DeleteMemory(memoryId: nat) returns (r: Result<()>)
      requires Consistent(db)
      modifies this
      ensures Consistent(db) && OthersKept(old(db), db, memoryId) && memoryId !in db.records
      ensures if memoryId in old(db.records) then r == Ok(()) && |db.records| == |old(db.records)| - 1
              else r == Err(MemoryNotFoundError) && db == old(db)
      ensures Delete(old(db), memoryId) == if r.Ok? then Ok(db) else Err(MemoryNotFoundError)
    {
      if memoryId !in db.records {
        return Err(MemoryNotFoundError);
      }
      DeletingRemovesOne(db, memoryId);
      db := db.(records := db.records - {memoryId});
      r := Ok(());
    }

    /** `_update_memory` with the patch that marks a chunk as removed */
    method MarkChunkRemoved(listed: Record, now: int) returns (r: Result<Record>)
      requires Consistent(db)
      modifies this
      ensures Consistent(db) && OthersKept(old(db), db, listed.memoryId) && db.records.Keys == old(db.records.Keys)
      ensures if listed.memoryId in old(db.records) then r.Ok? && db.records[listed.memoryId] == r.value
              else r == Err(MemoryNotFoundError) && db == old(db)
      ensures r.Ok? ==> MarkedFrom(old(db).records[listed.memoryId], listed, r.value, now)
      ensures MarkRemoved(old(db), listed, now) == if r.Ok? then Ok(db) else Err(MemoryNotFoundError)
    {
      if listed.memoryId !in db.records {
        return Err(MemoryNotFoundError);
      }
      var stored := db.records[listed.memoryId];
      var data := stored.data.(status := Removed, allowRetrieval := false, allowLlmContext := false,
                               contentHash := listed.data.contentHash, documentRemoved := true);
      r := PersistExistingRecord(stored.(data := data, version := stored.version + 1, updatedAt := now));
    }

    /** `list_by_source_path` for document chunks: each matching record once, in some order. */
    method ListBySourcePath(doc: Document) returns (found: seq<Record>)
      requires Consistent(db)
      ensures Listed(db, doc, found) && NoDuplicates(found)
    {
      found := [];
      var ids := set id | id in db.records && Mine(db, doc, id);
      while ids != {}
        invariant forall id :: id in ids ==> Mine(db, doc, id)
        invariant forall r :: r in found ==> Mine(db, doc, r.memoryId) && r == db.records[r.memoryId]
        invariant forall r :: r in found ==> r.memoryId !in ids
        invariant NoDuplicates(found)
        invariant forall id :: Mine(db, doc, id) ==> id in ids || db.records[id] in found
        decreases ids
      {
        var id :| id in ids;
        ids := ids - {id};
        found := found + [db.records[id]];
      }
    }
  }

  ghost predicate Listed(db: Database, doc: Document, found: seq<Record>) {
    && (forall r :: r in found ==> Mine(db, doc, r.memoryId) && r == db.records[r.memoryId])
    && (forall id :: Mine(db, doc, id) ==> db.records[id] in found)
  }
}
