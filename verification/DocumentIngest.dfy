/** From chunks to operations: the planning half of `ingest_document`. */
module DocumentPlan {
  import opened Common
  import opened Text
  import opened Chunking
  import opened Hashing
  import opened Store
  import opened IngestPlan
  import Packing
  import Markdown

  type Vector = seq<real>

  /** What the ingest calls but does not define: SHA-256, the embedding text, the embedding provider, and the
      check that attaches, quarantines or refuses a vector. */
  datatype Environment = Environment(
    hash: string -> string,
    embeddingText: Create -> string,
    embedBatch: seq<string> -> Result<seq<Vector>>,
    attach: Vector -> Result<Embedding>
  )

  // ---------- candidates ----------

  /** `_build_document_chunk_memory` */
  function BuildChunkMemory(
    env: Environment, doc: Document, title: Option<string>, summary: Option<string>, chunk: MarkdownChunk, index: nat
  ): Create {
    var key := SourceHash(env.hash, doc.path, chunk.headingPath, chunk.chunkIndex);
    var payload := Payload(title, summary, Strip(chunk.text), chunk.headingPath, chunk.sectionIndex, chunk.chunkIndex, index, NoEmbedding);
    var base := Create(doc.scope, DocumentChunk, Active, Some(key), Some(doc.path), Some(key), None, None, true, true, false, payload);
    var contentHash := env.hash(NormalizeNewlines(env.embeddingText(base)));
    base.(chunkId := Some(ChunkId(env.hash, doc.path, chunk.headingPath, chunk.chunkIndex, contentHash)),
          contentHash := Some(contentHash))
  }

  function Candidates(
    env: Environment, doc: Document, title: Option<string>, summary: Option<string>, chunks: seq<MarkdownChunk>
  ): (cands: seq<Create>)
    ensures |cands| == |chunks|
  {
    if chunks == [] then []
    else
      var n := |chunks| - 1;
      Candidates(env, doc, title, summary, chunks[..n]) + [BuildChunkMemory(env, doc, title, summary, chunks[n], n)]
  }

  lemma {:induction false} CandidateAt(
    env: Environment, doc: Document, title: Option<string>, summary: Option<string>, chunks: seq<MarkdownChunk>, k: nat
  )
    requires k < |chunks|
    ensures Candidates(env, doc, title, summary, chunks)[k] == BuildChunkMemory(env, doc, title, summary, chunks[k], k)
  {
    hide BuildChunkMemory;
    if k < |chunks| - 1 {
      CandidateAt(env, doc, title, summary, chunks[..|chunks| - 1], k);
    }
  }

  function CreateKey(c: Create): string {
    if c.sourceHash.Some? then c.sourceHash.value else ""
  }

  function CreateKeys(cands: seq<Create>): (keys: seq<string>)
    ensures |keys| == |cands|
  {
    if cands == [] then [] else CreateKeys(cands[..|cands| - 1]) + [CreateKey(cands[|cands| - 1])]
  }

  // ---------- the stored chunks by hash ----------

  /** The dictionary of stored chunks; a later record with the same hash wins. */
  function LastByHash(found: seq<Record>): map<string, Record> {
    if found == [] then map[]
    else
      var r := found[|found| - 1];
      var before := LastByHash(found[..|found| - 1]);
      if r.data.sourceHash.Some? then before[r.data.sourceHash.value := r] else before
  }

  /** The dictionary's keys, in the order of their first insertion. */
  function KeyOrder(found: seq<Record>): seq<string> {
    if found == [] then []
    else
      var r := found[|found| - 1];
      var before := KeyOrder(found[..|found| - 1]);
      if r.data.sourceHash.Some? && r.data.sourceHash.value !in before then before + [r.data.sourceHash.value] else before
  }

  lemma {:induction false} KeyOrderIsKeys(found: seq<Record>)
    ensures NoDuplicates(KeyOrder(found))
    ensures forall key :: key in KeyOrder(found) <==> key in LastByHash(found)
    ensures forall key :: key in LastByHash(found) ==>
      LastByHash(found)[key] in found && LastByHash(found)[key].data.sourceHash == Some(key)
    ensures forall r :: r in found && r.data.sourceHash.Some? ==> r.data.sourceHash.value in LastByHash(found)
  {
    if found != [] {
      KeyOrderIsKeys(found[..|found| - 1]);
    }
  }

  /** On a tidy document the dictionary is the document by key. */
  lemma IndexIsAt(db: Database, doc: Document, found: seq<Record>, key: string)
    requires Tidy(db, doc) && Listed(db, doc, found)
    ensures At(db, doc, key) == if key in LastByHash(found) then Some(LastByHash(found)[key]) else None
  {
    KeyOrderIsKeys(found);
    hide LastByHash, KeyOrder;
    if key in LastByHash(found) {
      AtIs(db, doc, LastByHash(found)[key].memoryId, key);
    }
    if At(db, doc, key).Some? {
      AtIsMine(db, doc, key);
      assert At(db, doc, key).value in found;
    }
  }

  // ---------- pending writes and removals ----------

  datatype PendingWrite = PendingWrite(existing: Option<Record>, candidate: Create)

  function Lookup(existing: map<string, Record>, key: string): Option<Record> {
    if key in existing then Some(existing[key]) else None
  }

  predicate IsUnchanged(existing: map<string, Record>, c: Create) {
    CreateKey(c) in existing && Matches(existing[CreateKey(c)], c)
  }

  function PendingWrites(existing: map<string, Record>, cands: seq<Create>): (pending: seq<PendingWrite>)
    ensures |pending| <= |cands|
  {
    if cands == [] then []
    else
      var c := cands[|cands| - 1];
      var before := PendingWrites(existing, cands[..|cands| - 1]);
      if IsUnchanged(existing, c) then before else before + [PendingWrite(Lookup(existing, CreateKey(c)), c)]
  }

  /** Stored chunks whose key is no longer planned, unless they are already gone. */
  function Removals(existing: map<string, Record>, order: seq<string>, planned: seq<string>): seq<Record>
    requires forall key :: key in order ==> key in existing
  {
    if order == [] then []
    else
      var key := order[|order| - 1];
      var before := Removals(existing, order[..|order| - 1], planned);
      if key !in planned && !Gone(existing[key]) then before + [existing[key]] else before
  }

  // ---------- embedding ----------

  /** One batch: embed its texts, then attach the vectors pairwise, as far as both lists reach. */
  function PrepareBatch(env: Environment, batch: seq<PendingWrite>, vectors: seq<Vector>): Result<seq<PendingWrite>> {
    if batch == [] || vectors == [] then Ok([])
    else
      match env.attach(vectors[0])
      case Err(e) => Err(e)
      case Ok(embedding) =>
        match PrepareBatch(env, batch[1..], vectors[1..])
        case Err(e) => Err(e)
        case Ok(rest) =>
          var c := batch[0].candidate;
          Ok([batch[0].(candidate := c.(payload := c.payload.(embedding := embedding)))] + rest)
  }

  function EmbeddingTexts(env: Environment, batch: seq<PendingWrite>): seq<string> {
    seq(|batch|, k requires 0 <= k < |batch| => env.embeddingText(batch[k].candidate))
  }

  /** `_embed_document_candidates` */
  function Prepare(env: Environment, pending: seq<PendingWrite>, size: int): Result<seq<PendingWrite>>
    decreases |pending|
  {
    if pending == [] then Ok([])
    else if size <= 0 then Err(PersistenceError)
    else
      var n := Min(size, |pending|);
      match env.embedBatch(EmbeddingTexts(env, pending[..n]))
      case Err(e) => Err(e)
      case Ok(vectors) =>
        match PrepareBatch(env, pending[..n], vectors)
        case Err(e) => Err(e)
        case Ok(first) =>
          match Prepare(env, pending[n..], size)
          case Err(e) => Err(e)
          case Ok(rest) => Ok(first + rest)
  }

  // ---------- operations ----------

  function Inserts(writes: seq<PendingWrite>): seq<Create> {
    if writes == [] then []
    else
      var w := writes[|writes| - 1];
      var before := Inserts(writes[..|writes| - 1]);
      if w.existing.None? then before + [w.candidate] else before
  }

  function Replacements(writes: seq<PendingWrite>): seq<(Record, Create)> {
    if writes == [] then []
    else
      var w := writes[|writes| - 1];
      var before := Replacements(writes[..|writes| - 1]);
      if w.existing.Some? then before + [(w.existing.value, w.candidate)] else before
  }

  lemma {:induction false} InsertsAndReplacements(writes: seq<PendingWrite>)
    ensures |Inserts(writes)| + |Replacements(writes)| == |writes|
  {
    if writes != [] {
      InsertsAndReplacements(writes[..|writes| - 1]);
    }
  }

  /** Inserts first, then replacements, then removals. */
  function Operations(inserts: seq<Create>, replacements: seq<(Record, Create)>, removals: seq<Record>): seq<Op> {
    seq(|inserts|, k requires 0 <= k < |inserts| => InsertOp(inserts[k]))
    + seq(|replacements|, k requires 0 <= k < |replacements| => ReplaceOp(replacements[k].0, replacements[k].1))
    + seq(|removals|, k requires 0 <= k < |removals| => RemoveOp(removals[k]))
  }

  // ---------- the operations are a plan ----------

  /** The provider answers batch by batch with one vector for each text, and every vector is acceptable. */
  ghost predicate EmbedsEach(env: Environment, embedding: string -> Embedding) {
    forall texts: seq<string> :: EmbedsBatch(env, embedding, texts)
  }

  ghost predicate EmbedsBatch(env: Environment, embedding: string -> Embedding, texts: seq<string>) {
    match env.embedBatch(texts)
    case Err(_) => false
    case Ok(vectors) =>
      |vectors| == |texts| && forall k :: 0 <= k < |texts| ==> env.attach(vectors[k]) == Ok(embedding(texts[k]))
  }

  function Embedded(env: Environment, embedding: string -> Embedding, c: Create): Create {
    c.(payload := c.payload.(embedding := embedding(env.embeddingText(c))))
  }

  function EmbeddedWrites(env: Environment, embedding: string -> Embedding, writes: seq<PendingWrite>): (out: seq<PendingWrite>)
    ensures |out| == |writes|
  {
    seq(|writes|, k requires 0 <= k < |writes| => writes[k].(candidate := Embedded(env, embedding, writes[k].candidate)))
  }

  lemma {:induction false} PrepareBatchEmbeds(
    env: Environment, embedding: string -> Embedding, batch: seq<PendingWrite>, vectors: seq<Vector>
  )
    requires |vectors| == |batch|
    requires forall k :: 0 <= k < |batch| ==>
      env.attach(vectors[k]) == Ok(embedding(env.embeddingText(batch[k].candidate)))
    ensures PrepareBatch(env, batch, vectors) == Ok(EmbeddedWrites(env, embedding, batch))
  {
    if batch != [] {
      assert forall k :: 0 <= k < |batch| - 1 ==> vectors[1..][k] == vectors[k + 1] && batch[1..][k] == batch[k + 1];
      PrepareBatchEmbeds(env, embedding, batch[1..], vectors[1..]);
      assert EmbeddedWrites(env, embedding, batch) ==
        [EmbeddedWrites(env, embedding, batch)[0]] + EmbeddedWrites(env, embedding, batch[1..]);
    }
  }

  /** With such a provider the prepared writes are the pending ones, each with its own vector, whatever the batch size. */
  lemma {:induction false} PrepareEmbeds(env: Environment, embedding: string -> Embedding, pending: seq<PendingWrite>, size: int)
    requires size > 0 && EmbedsEach(env, embedding)
    ensures Prepare(env, pending, size) == Ok(EmbeddedWrites(env, embedding, pending))
    decreases |pending|
  {
    if pending == [] {
      assert EmbeddedWrites(env, embedding, []) == [];
    } else {
      var n := Min(size, |pending|);
      BatchEmbeds(env, embedding, pending[..n]);
      assert pending[..n] != [];
      EmbeddedWritesAppend(env, embedding, pending, n);
      hide Embedded, EmbeddedWrites, EmbeddingTexts, PrepareBatch, EmbedsEach;
      PrepareEmbeds(env, embedding, pending[n..], size);
    }
  }

  /** One batch. */
  lemma BatchEmbeds(env: Environment, embedding: string -> Embedding, batch: seq<PendingWrite>)
    requires EmbedsEach(env, embedding)
    ensures env.embedBatch(EmbeddingTexts(env, batch)).Ok?
    ensures PrepareBatch(env, batch, env.embedBatch(EmbeddingTexts(env, batch)).value) == Ok(EmbeddedWrites(env, embedding, batch))
  {
    var texts := EmbeddingTexts(env, batch);
    assert EmbedsBatch(env, embedding, texts);
    assert forall k :: 0 <= k < |batch| ==> texts[k] == env.embeddingText(batch[k].candidate);
    hide PrepareBatch, EmbeddedWrites, EmbeddingTexts, EmbedsEach;
    PrepareBatchEmbeds(env, embedding, batch, env.embedBatch(texts).value);
  }

  lemma EmbeddedWritesAppend(env: Environment, embedding: string -> Embedding, pending: seq<PendingWrite>, n: nat)
    requires n <= |pending|
    ensures EmbeddedWrites(env, embedding, pending)
         == EmbeddedWrites(env, embedding, pending[..n]) + EmbeddedWrites(env, embedding, pending[n..])
  {
    hide Embedded;
  }

  /** Every batch is answered by at least as many vectors as it has texts. */
  ghost predicate AnswersCover(env: Environment, pending: seq<PendingWrite>, size: int)
    requires size > 0
    decreases |pending|
  {
    pending == [] ||
    var n := Min(size, |pending|);
    && env.embedBatch(EmbeddingTexts(env, pending[..n])).Ok?
    && |env.embedBatch(EmbeddingTexts(env, pending[..n])).value| >= n
    && AnswersCover(env, pending[n..], size)
  }

  lemma {:induction false} PrepareBatchLength(env: Environment, batch: seq<PendingWrite>, vectors: seq<Vector>)
    requires PrepareBatch(env, batch, vectors).Ok?
    ensures |PrepareBatch(env, batch, vectors).value| == Min(|batch|, |vectors|)
  {
    if batch != [] && vectors != [] {
      PrepareBatchLength(env, batch[1..], vectors[1..]);
    }
  }

  /** A provider that answers a batch too briefly makes the ingest drop chunks without an error:
      all pending writes survive exactly when no answer is too short. */
  lemma {:induction false} ShortAnswersDropWrites(env: Environment, pending: seq<PendingWrite>, size: int)
    requires size > 0 && Prepare(env, pending, size).Ok?
    ensures |Prepare(env, pending, size).value| <= |pending|
    ensures |Prepare(env, pending, size).value| == |pending| <==> AnswersCover(env, pending, size)
    decreases |pending|
  {
    if pending != [] {
      var n := Min(size, |pending|);
      var answer := env.embedBatch(EmbeddingTexts(env, pending[..n]));
      PrepareBatchLength(env, pending[..n], answer.value);
      ShortAnswersDropWrites(env, pending[n..], size);
    }
  }

  /** The planned chunks by key, as they will be stored. */
  function PlannedChunks(env: Environment, embedding: string -> Embedding, cands: seq<Create>): map<string, Create> {
    if cands == [] then map[]
    else
      var c := cands[|cands| - 1];
      PlannedChunks(env, embedding, cands[..|cands| - 1])[CreateKey(c) := Embedded(env, embedding, c)]
  }

  lemma {:induction false} PlannedChunksAre(env: Environment, embedding: string -> Embedding, cands: seq<Create>)
    requires NoDuplicates(CreateKeys(cands))
    ensures forall key :: key in PlannedChunks(env, embedding, cands) <==> key in CreateKeys(cands)
    ensures forall c :: c in cands ==>
      && CreateKey(c) in CreateKeys(cands)
      && PlannedChunks(env, embedding, cands)[CreateKey(c)] == Embedded(env, embedding, c)
  {
    if cands != [] {
      var n := |cands| - 1;
      hide Embedded, CreateKey;
      NoDuplicatesAppend(CreateKeys(cands[..n]), [CreateKey(cands[n])]);
      PlannedChunksAre(env, embedding, cands[..n]);
      assert CreateKey(cands[n]) !in CreateKeys(cands[..n]);
    }
  }

  function WriteKeys(writes: seq<PendingWrite>): seq<string> {
    if writes == [] then [] else WriteKeys(writes[..|writes| - 1]) + [CreateKey(writes[|writes| - 1].candidate)]
  }

  /** Pending writes are exactly the candidates that are not unchanged, each with what is stored under its key. */
  ghost predicate ArePending(existing: map<string, Record>, cands: seq<Create>, pending: seq<PendingWrite>) {
    && NoDuplicates(WriteKeys(pending))
    && (forall key :: key in WriteKeys(pending) ==> key in CreateKeys(cands))
    && (forall w :: w in pending ==>
          w.candidate in cands && w.existing == Lookup(existing, CreateKey(w.candidate)) && !IsUnchanged(existing, w.candidate))
    && (forall c :: c in cands && !IsUnchanged(existing, c) ==> CreateKey(c) in WriteKeys(pending))
  }

  lemma CreateKeysSnoc(cands: seq<Create>, c: Create)
    ensures CreateKeys(cands + [c]) == CreateKeys(cands) + [CreateKey(c)]
  {
    hide CreateKey;
    assert (cands + [c])[..|cands|] == cands;
  }

  lemma WriteKeysSnoc(pending: seq<PendingWrite>, w: PendingWrite)
    ensures WriteKeys(pending + [w]) == WriteKeys(pending) + [CreateKey(w.candidate)]
  {
    hide CreateKey;
    assert (pending + [w])[..|pending|] == pending;
  }

  lemma UnchangedIsNotPending(existing: map<string, Record>, cands: seq<Create>, pending: seq<PendingWrite>, c: Create)
    requires ArePending(existing, cands, pending) && IsUnchanged(existing, c)
    ensures ArePending(existing, cands + [c], pending)
  {
    hide IsUnchanged, CreateKey, Lookup, CreateKeys, WriteKeys, NoDuplicates;
    CreateKeysSnoc(cands, c);
    assert forall x :: x in cands + [c] <==> x in cands || x == c;
  }

  lemma ChangedIsPending(existing: map<string, Record>, cands: seq<Create>, pending: seq<PendingWrite>, c: Create)
    requires ArePending(existing, cands, pending) && CreateKey(c) !in CreateKeys(cands) && !IsUnchanged(existing, c)
    ensures ArePending(existing, cands + [c], pending + [PendingWrite(Lookup(existing, CreateKey(c)), c)])
  {
    hide IsUnchanged, CreateKey, Lookup, CreateKeys, WriteKeys, NoDuplicates;
    var w := PendingWrite(Lookup(existing, CreateKey(c)), c);
    CreateKeysSnoc(cands, c);
    WriteKeysSnoc(pending, w);
    NoDuplicatesAppend(WriteKeys(pending), [CreateKey(c)]);
    OneKey(CreateKey(c));
    assert forall x :: x in cands + [c] <==> x in cands || x == c;
    assert forall x :: x in pending + [w] <==> x in pending || x == w;
  }

  lemma OneKey(key: string)
    ensures NoDuplicates([key])
  {
  }

  lemma ArePendingSnoc(existing: map<string, Record>, cands: seq<Create>, pending: seq<PendingWrite>, c: Create)
    requires ArePending(existing, cands, pending) && CreateKey(c) !in CreateKeys(cands)
    ensures IsUnchanged(existing, c) ==> ArePending(existing, cands + [c], pending)
    ensures !IsUnchanged(existing, c) ==>
      ArePending(existing, cands + [c], pending + [PendingWrite(Lookup(existing, CreateKey(c)), c)])
  {
    hide *;
    if IsUnchanged(existing, c) {
      UnchangedIsNotPending(existing, cands, pending, c);
    } else {
      ChangedIsPending(existing, cands, pending, c);
    }
  }

  lemma {:induction false} PendingAre(existing: map<string, Record>, cands: seq<Create>)
    requires NoDuplicates(CreateKeys(cands))
    ensures ArePending(existing, cands, PendingWrites(existing, cands))
  {
    if cands != [] {
      var n := |cands| - 1;
      NoDuplicatesAppend(CreateKeys(cands[..n]), [CreateKey(cands[n])]);
      hide IsUnchanged, CreateKey, Lookup, ArePending, NoDuplicates;
      PendingAre(existing, cands[..n]);
      ArePendingSnoc(existing, cands[..n], PendingWrites(existing, cands[..n]), cands[n]);
      assert cands == cands[..n] + [cands[n]];
    }
  }

  lemma PendingKeys(existing: map<string, Record>, cands: seq<Create>, pending: seq<PendingWrite>)
    requires ArePending(existing, cands, pending)
    ensures NoDuplicates(WriteKeys(pending))
    ensures forall key :: key in WriteKeys(pending) ==> key in CreateKeys(cands)
  {
  }

  function ReplacementKeys(replacements: seq<(Record, Create)>): seq<string> {
    if replacements == [] then []
    else ReplacementKeys(replacements[..|replacements| - 1]) + [CreateKey(replacements[|replacements| - 1].1)]
  }

  /** Splitting writes into inserts and replacements splits their keys. */
  lemma {:induction false} SplitKeys(writes: seq<PendingWrite>)
    requires NoDuplicates(WriteKeys(writes))
    ensures var a, b := CreateKeys(Inserts(writes)), ReplacementKeys(Replacements(writes));
      && NoDuplicates(a + b)
      && (forall key :: key in a || key in b <==> key in WriteKeys(writes))
  {
    if writes != [] {
      var n := |writes| - 1;
      var w, a, b := writes[n], CreateKeys(Inserts(writes[..n])), ReplacementKeys(Replacements(writes[..n]));
      hide CreateKey;
      NoDuplicatesAppend(WriteKeys(writes[..n]), [CreateKey(w.candidate)]);
      SplitKeys(writes[..n]);
      SplitKeysLast(writes, a, b);
    }
  }

  lemma SplitKeysLast(writes: seq<PendingWrite>, a: seq<string>, b: seq<string>)
    requires writes != []
    requires a == CreateKeys(Inserts(writes[..|writes| - 1])) && b == ReplacementKeys(Replacements(writes[..|writes| - 1]))
    requires NoDuplicates(a + b)
    requires var key := CreateKey(writes[|writes| - 1].candidate); key !in a && key !in b
    ensures var key := CreateKey(writes[|writes| - 1].candidate);
      if writes[|writes| - 1].existing.None?
        then CreateKeys(Inserts(writes)) == a + [key] && ReplacementKeys(Replacements(writes)) == b
        else CreateKeys(Inserts(writes)) == a && ReplacementKeys(Replacements(writes)) == b + [key]
    ensures NoDuplicates(CreateKeys(Inserts(writes)) + ReplacementKeys(Replacements(writes)))
  {
    hide CreateKey;
    var w := writes[|writes| - 1];
    var key := CreateKey(w.candidate);
    NoDuplicatesAppend(a, b);
    NoDuplicatesAppend(a, [key]);
    NoDuplicatesAppend(b, [key]);
    NoDuplicatesAppend(CreateKeys(Inserts(writes)), ReplacementKeys(Replacements(writes)));
  }

  function RecordKey(r: Record): string {
    if r.data.sourceHash.Some? then r.data.sourceHash.value else ""
  }

  function RecordKeys(records: seq<Record>): seq<string> {
    if records == [] then [] else RecordKeys(records[..|records| - 1]) + [RecordKey(records[|records| - 1])]
  }

  /** Removals are exactly the stored live chunks whose key is not planned. */
  lemma {:induction false} RemovalsAre(existing: map<string, Record>, order: seq<string>, planned: seq<string>)
    requires NoDuplicates(order)
    requires forall key :: key in order ==> key in existing && existing[key].data.sourceHash == Some(key)
    ensures var removals := Removals(existing, order, planned);
      && NoDuplicates(RecordKeys(removals))
      && (forall key :: key in RecordKeys(removals) <==> key in order && key !in planned && !Gone(existing[key]))
      && (forall r :: r in removals ==>
            RecordKey(r) in order && RecordKey(r) !in planned && r == existing[RecordKey(r)] && !Gone(r))
  {
    if order != [] {
      var n := |order| - 1;
      var key, before := order[n], Removals(existing, order[..n], planned);
      hide Gone;
      NoDuplicatesAppend(order[..n], [key]);
      assert order == order[..n] + [key];
      RemovalsAre(existing, order[..n], planned);
      var removals := Removals(existing, order, planned);
      if key !in planned && !Gone(existing[key]) {
        assert removals[..|removals| - 1] == before;
        NoDuplicatesAppend(RecordKeys(before), [key]);
      }
    }
  }

  lemma {:induction false} CreateKeyAt(cands: seq<Create>, k: nat)
    requires k < |cands|
    ensures CreateKeys(cands)[k] == CreateKey(cands[k])
  {
    hide CreateKey;
    if k < |cands| - 1 {
      CreateKeyAt(cands[..|cands| - 1], k);
    }
  }

  lemma {:induction false} ReplacementKeyAt(replacements: seq<(Record, Create)>, k: nat)
    requires k < |replacements|
    ensures |ReplacementKeys(replacements)| == |replacements|
    ensures ReplacementKeys(replacements)[k] == CreateKey(replacements[k].1)
  {
    hide CreateKey;
    var n := |replacements| - 1;
    if k < n {
      ReplacementKeyAt(replacements[..n], k);
    } else if n > 0 {
      ReplacementKeyAt(replacements[..n], n - 1);
    }
  }

  lemma {:induction false} RecordKeyAt(records: seq<Record>, k: nat)
    requires k < |records|
    ensures |RecordKeys(records)| == |records|
    ensures RecordKeys(records)[k] == RecordKey(records[k])
  {
    hide RecordKey;
    var n := |records| - 1;
    if k < n {
      RecordKeyAt(records[..n], k);
    } else if n > 0 {
      RecordKeyAt(records[..n], n - 1);
    }
  }

  lemma OperationsKeys(inserts: seq<Create>, replacements: seq<(Record, Create)>, removals: seq<Record>)
    ensures OpKeys(Operations(inserts, replacements, removals)) ==
      CreateKeys(inserts) + ReplacementKeys(replacements) + RecordKeys(removals)
  {
    hide CreateKeys, ReplacementKeys, RecordKeys;
    if replacements != [] {
      ReplacementKeyAt(replacements, 0);
    } else {
      NoReplacementKeys();
    }
    if removals != [] {
      RecordKeyAt(removals, 0);
    } else {
      NoReplacementKeys();
    }
    forall k | 0 <= k < |inserts| ensures CreateKeys(inserts)[k] == OpKey(InsertOp(inserts[k])) {
      CreateKeyAt(inserts, k);
    }
    forall k | 0 <= k < |replacements| ensures ReplacementKeys(replacements)[k] == OpKey(ReplaceOp(replacements[k].0, replacements[k].1)) {
      ReplacementKeyAt(replacements, k);
    }
    forall k | 0 <= k < |removals| ensures RecordKeys(removals)[k] == OpKey(RemoveOp(removals[k])) {
      RecordKeyAt(removals, k);
    }
  }

  lemma NoReplacementKeys()
    ensures ReplacementKeys([]) == [] && RecordKeys([]) == []
  {
  }

  /** Which operation is which. */
  lemma {:induction false} SplitMembers(writes: seq<PendingWrite>)
    ensures forall c :: c in Inserts(writes) ==> PendingWrite(None, c) in writes
    ensures forall p :: p in Replacements(writes) ==> PendingWrite(Some(p.0), p.1) in writes
  {
    if writes != [] {
      SplitMembers(writes[..|writes| - 1]);
    }
  }

  lemma {:induction false} EmbeddedWriteKeys(env: Environment, embedding: string -> Embedding, writes: seq<PendingWrite>)
    ensures WriteKeys(EmbeddedWrites(env, embedding, writes)) == WriteKeys(writes)
  {
    if writes != [] {
      var n := |writes| - 1;
      EmbeddedWriteKeys(env, embedding, writes[..n]);
      assert EmbeddedWrites(env, embedding, writes)[..n] == EmbeddedWrites(env, embedding, writes[..n]);
    }
  }

  /** The operations of one ingest. */
  function IngestOps(found: seq<Record>, cands: seq<Create>, prepared: seq<PendingWrite>): seq<Op> {
    KeyOrderIsKeys(found);
    Operations(Inserts(prepared), Replacements(prepared), Removals(LastByHash(found), KeyOrder(found), CreateKeys(cands)))
  }

  /** Their keys: the pending ones and the removed ones, each once. */
  lemma IngestOpKeys(env: Environment, embedding: string -> Embedding, found: seq<Record>, cands: seq<Create>)
    requires NoDuplicates(CreateKeys(cands))
    ensures var existing := LastByHash(found); var pending := PendingWrites(existing, cands);
      var keys := OpKeys(IngestOps(found, cands, EmbeddedWrites(env, embedding, pending)));
      && NoDuplicates(keys)
      && (forall key :: key in keys <==>
            || key in WriteKeys(pending)
            || (key in existing && key !in CreateKeys(cands) && !Gone(existing[key])))
  {
    var existing := LastByHash(found);
    var pending := PendingWrites(existing, cands);
    var writes := EmbeddedWrites(env, embedding, pending);
    hide *;
    KeyOrderIsKeys(found);
    PendingAre(existing, cands);
    PendingKeys(existing, cands, pending);
    EmbeddedWriteKeys(env, embedding, pending);
    SplitKeys(writes);
    var removals := Removals(existing, KeyOrder(found), CreateKeys(cands));
    RemovalsAre(existing, KeyOrder(found), CreateKeys(cands));
    OperationsKeys(Inserts(writes), Replacements(writes), removals);
    NoDuplicatesAppend(CreateKeys(Inserts(writes)) + ReplacementKeys(Replacements(writes)), RecordKeys(removals));
    IngestOpsUnfold(found, cands, writes);
  }

  lemma IngestOpsUnfold(found: seq<Record>, cands: seq<Create>, prepared: seq<PendingWrite>)
    requires forall key :: key in KeyOrder(found) ==> key in LastByHash(found)
    ensures IngestOps(found, cands, prepared) ==
      Operations(Inserts(prepared), Replacements(prepared), Removals(LastByHash(found), KeyOrder(found), CreateKeys(cands)))
  {
  }

  ghost predicate GoodCandidates(doc: Document, cands: seq<Create>) {
    && NoDuplicates(CreateKeys(cands))
    && (forall c :: c in cands ==> IsChunkOf(doc, CreateKey(c), c))
  }

  lemma OpIsMember(inserts: seq<Create>, replacements: seq<(Record, Create)>, removals: seq<Record>, k: nat)
    requires k < |Operations(inserts, replacements, removals)|
    ensures match Operations(inserts, replacements, removals)[k]
      case InsertOp(c) => c in inserts
      case ReplaceOp(e, c) => (e, c) in replacements
      case RemoveOp(r) => r in removals
  {
    var ops := Operations(inserts, replacements, removals);
    if k >= |inserts| && k < |inserts| + |replacements| {
      assert ops[k] == ReplaceOp(replacements[k - |inserts|].0, replacements[k - |inserts|].1);
    }
  }

  lemma WriteFits(
    env: Environment, embedding: string -> Embedding, db: Database, doc: Document, found: seq<Record>, cands: seq<Create>, w: PendingWrite
  )
    requires Tidy(db, doc) && Listed(db, doc, found) && GoodCandidates(doc, cands)
    requires w in EmbeddedWrites(env, embedding, PendingWrites(LastByHash(found), cands))
    ensures var planned := PlannedChunks(env, embedding, cands); var key := CreateKey(w.candidate);
      if w.existing.None? then OpFits(db, doc, planned, key, InsertOp(w.candidate))
      else OpFits(db, doc, planned, key, ReplaceOp(w.existing.value, w.candidate))
  {
    var existing, key := LastByHash(found), CreateKey(w.candidate);
    var pending := PendingWrites(existing, cands);
    var k :| 0 <= k < |pending| && w == EmbeddedWrites(env, embedding, pending)[k];
    var source := pending[k];
    assert source in pending && w == source.(candidate := Embedded(env, embedding, source.candidate));
    hide At, Tidy, Listed, PendingWrites, EmbeddedWrites, LastByHash, PlannedChunks, CreateKeys, IsChunkOf;
    PendingAre(existing, cands);
    PlannedChunksAre(env, embedding, cands);
    IndexIsAt(db, doc, found, key);
  }

  lemma RemovalFits(db: Database, doc: Document, found: seq<Record>, cands: seq<Create>,
    planned: map<string, Create>, r: Record)
    requires Tidy(db, doc) && Listed(db, doc, found)
    requires forall key :: key in planned <==> key in CreateKeys(cands)
    requires forall key :: key in KeyOrder(found) ==> key in LastByHash(found)
    requires r in Removals(LastByHash(found), KeyOrder(found), CreateKeys(cands))
    ensures OpFits(db, doc, planned, RecordKey(r), RemoveOp(r))
  {
    hide At, Tidy, Listed, LastByHash, KeyOrder, CreateKeys, Gone, Removals;
    KeyOrderIsKeys(found);
    RemovalsAre(LastByHash(found), KeyOrder(found), CreateKeys(cands));
    IndexIsAt(db, doc, found, RecordKey(r));
  }

  lemma IngestOpFits(
    env: Environment, embedding: string -> Embedding, db: Database, doc: Document,
    found: seq<Record>, cands: seq<Create>, k: nat
  )
    requires Tidy(db, doc) && Listed(db, doc, found) && GoodCandidates(doc, cands)
    requires k < |IngestOps(found, cands, EmbeddedWrites(env, embedding, PendingWrites(LastByHash(found), cands)))|
    ensures var ops := IngestOps(found, cands, EmbeddedWrites(env, embedding, PendingWrites(LastByHash(found), cands)));
      OpFits(db, doc, PlannedChunks(env, embedding, cands), OpKey(ops[k]), ops[k])
  {
    var writes := EmbeddedWrites(env, embedding, PendingWrites(LastByHash(found), cands));
    var ops, planned := IngestOps(found, cands, writes), PlannedChunks(env, embedding, cands);
    assert NoDuplicates(CreateKeys(cands));
    hide OpFits, Tidy, Listed, GoodCandidates, EmbeddedWrites, PendingWrites, LastByHash, KeyOrder, Operations, Removals, PlannedChunks;
    KeyOrderIsKeys(found);
    OpIsMember(Inserts(writes), Replacements(writes), Removals(LastByHash(found), KeyOrder(found), CreateKeys(cands)), k);
    hide IngestOps, Inserts, Replacements;
    SplitMembers(writes);
    PlannedChunksAre(env, embedding, cands);
    match ops[k]
    case InsertOp(c) =>
      WriteFits(env, embedding, db, doc, found, cands, PendingWrite(None, c));
    case ReplaceOp(e, c) =>
      assert (e, c) in Replacements(writes);
      WriteFits(env, embedding, db, doc, found, cands, PendingWrite(Some(e), c));
    case RemoveOp(r) =>
      RemovalFits(db, doc, found, cands, planned, r);
  }

  /** A key without an operation is on target already. */
  lemma UntouchedKeyIsOnTarget(
    policy: RemovedChunkPolicy, env: Environment, embedding: string -> Embedding, db: Database, doc: Document,
    found: seq<Record>, cands: seq<Create>, key: string
  )
    requires Tidy(db, doc) && Listed(db, doc, found) && GoodCandidates(doc, cands)
    requires var existing := LastByHash(found);
      && key !in WriteKeys(PendingWrites(existing, cands))
      && !(key in existing && key !in CreateKeys(cands) && !Gone(existing[key]))
    ensures Target(policy, Planned(PlannedChunks(env, embedding, cands), key), View(db, doc, key)) == View(db, doc, key)
  {
    var existing := LastByHash(found);
    hide At, Tidy, Listed, LastByHash, PendingWrites, PlannedChunks, IsChunkOf;
    IndexIsAt(db, doc, found, key);
    PlannedChunksAre(env, embedding, cands);
    if key in CreateKeys(cands) {
      var c := CandidateWithKey(cands, key);
      PendingAre(existing, cands);
      assert IsUnchanged(existing, c);
    }
  }

  lemma {:induction false} CandidateWithKey(cands: seq<Create>, key: string) returns (c: Create)
    requires key in CreateKeys(cands)
    ensures c in cands && CreateKey(c) == key
  {
    var n := |cands| - 1;
    if CreateKey(cands[n]) == key {
      c := cands[n];
    } else {
      c := CandidateWithKey(cands[..n], key);
    }
  }

  /** On a tidy document, with distinct planned keys and a well-behaved provider, the operations are a plan. */
  lemma IngestIsPlan(
    policy: RemovedChunkPolicy, env: Environment, embedding: string -> Embedding, db: Database, doc: Document,
    found: seq<Record>, cands: seq<Create>
  )
    requires Tidy(db, doc) && Listed(db, doc, found) && GoodCandidates(doc, cands)
    ensures IsPlan(policy, db, doc, PlannedChunks(env, embedding, cands),
      IngestOps(found, cands, EmbeddedWrites(env, embedding, PendingWrites(LastByHash(found), cands))))
    ensures PlannedFor(doc, PlannedChunks(env, embedding, cands))
  {
    var existing := LastByHash(found);
    var ops := IngestOps(found, cands, EmbeddedWrites(env, embedding, PendingWrites(existing, cands)));
    var planned := PlannedChunks(env, embedding, cands);
    assert NoDuplicates(CreateKeys(cands));
    hide *;
    IngestOpKeys(env, embedding, found, cands);
    forall k | 0 <= k < |ops| ensures OpFits(db, doc, planned, OpKey(ops[k]), ops[k]) {
      IngestOpFits(env, embedding, db, doc, found, cands, k);
    }
    forall key | key !in OpKeys(ops) ensures Target(policy, Planned(planned, key), View(db, doc, key)) == View(db, doc, key) {
      UntouchedKeyIsOnTarget(policy, env, embedding, db, doc, found, cands, key);
    }
    PlanFromParts(policy, db, doc, planned, ops);
    PlannedChunksFor(env, embedding, doc, cands);
  }

  lemma PlanFromParts(policy: RemovedChunkPolicy, db: Database, doc: Document, planned: map<string, Create>, ops: seq<Op>)
    requires NoDuplicates(OpKeys(ops))
    requires forall k :: 0 <= k < |ops| ==> OpFits(db, doc, planned, OpKey(ops[k]), ops[k])
    requires forall key :: key !in OpKeys(ops) ==>
      Target(policy, Planned(planned, key), View(db, doc, key)) == View(db, doc, key)
    ensures IsPlan(policy, db, doc, planned, ops)
  {
  }

  lemma PlannedChunksFor(env: Environment, embedding: string -> Embedding, doc: Document, cands: seq<Create>)
    requires GoodCandidates(doc, cands)
    ensures PlannedFor(doc, PlannedChunks(env, embedding, cands))
  {
    PlannedChunksAre(env, embedding, cands);
    hide PlannedChunks;
    var planned := PlannedChunks(env, embedding, cands);
    forall key | key in planned ensures IsChunkOf(doc, key, planned[key]) {
      var c := CandidateWithKey(cands, key);
    }
  }

  // ---------- where distinct keys come from ----------

  /** The hash tells the key texts of one path apart and never returns the empty string. */
  ghost predicate Separates(hash: string -> string, path: string) {
    && (forall p, i, q, j :: hash(SourceHashInput(path, p, i)) == hash(SourceHashInput(path, q, j)) ==>
          SourceHashInput(path, p, i) == SourceHashInput(path, q, j))
    && (forall s :: hash(s) != "")
  }

  lemma {:induction false} CandidateKeys(
    env: Environment, doc: Document, title: Option<string>, summary: Option<string>, chunks: seq<MarkdownChunk>
  )
    ensures var keys := CreateKeys(Candidates(env, doc, title, summary, chunks));
      forall k :: 0 <= k < |chunks| ==> keys[k] == SourceHash(env.hash, doc.path, chunks[k].headingPath, chunks[k].chunkIndex)
  {
    if chunks != [] {
      hide SourceHash, ChunkId, Strip, NormalizeNewlines;
      CandidateKeys(env, doc, title, summary, chunks[..|chunks| - 1]);
    }
  }

  lemma {:induction false} ChunkKeyAt(chunks: seq<MarkdownChunk>, k: nat)
    requires k < |chunks|
    ensures |ChunkKeys(chunks)| == |chunks| && ChunkKeys(chunks)[k] == ChunkKey(chunks[k])
  {
    hide ChunkKey;
    var n := |chunks| - 1;
    if k < n {
      ChunkKeyAt(chunks[..n], k);
    } else if n > 0 {
      ChunkKeyAt(chunks[..n], n - 1);
    }
  }

  /** The planned hashes are distinct exactly when the (heading key, index) pairs of the chunks are. */
  lemma HashesDistinct(
    env: Environment, doc: Document, title: Option<string>, summary: Option<string>, chunks: seq<MarkdownChunk>
  )
    requires Separates(env.hash, doc.path)
    ensures NoDuplicates(CreateKeys(Candidates(env, doc, title, summary, chunks))) <==> NoDuplicates(ChunkKeys(chunks))
  {
    var keys, pairs := CreateKeys(Candidates(env, doc, title, summary, chunks)), ChunkKeys(chunks);
    CandidateKeys(env, doc, title, summary, chunks);
    if chunks != [] {
      ChunkKeyAt(chunks, 0);
    }
    hide Candidates, CreateKeys, ChunkKeys, SourceHashInput, HeadingPathKey, NoDuplicates;
    forall i, j | 0 <= i < j < |chunks| ensures keys[i] == keys[j] <==> pairs[i] == pairs[j] {
      ChunkKeyAt(chunks, i);
      ChunkKeyAt(chunks, j);
      SourceHashInputInjective(doc.path, chunks[i].headingPath, chunks[i].chunkIndex, chunks[j].headingPath, chunks[j].chunkIndex);
    }
    hide Separates;
    SameRepetitions(keys, pairs);
  }

  lemma SameRepetitions<A(!new), B(!new)>(a: seq<A>, b: seq<B>)
    requires |a| == |b| && forall i, j :: 0 <= i < j < |a| ==> (a[i] == a[j] <==> b[i] == b[j])
    ensures NoDuplicates(a) <==> NoDuplicates(b)
  {
  }

  lemma {:induction false} CandidatesBelong(
    env: Environment, doc: Document, title: Option<string>, summary: Option<string>, chunks: seq<MarkdownChunk>
  )
    requires Separates(env.hash, doc.path)
    ensures forall c :: c in Candidates(env, doc, title, summary, chunks) ==> IsChunkOf(doc, CreateKey(c), c)
  {
    if chunks != [] {
      CandidatesBelong(env, doc, title, summary, chunks[..|chunks| - 1]);
    }
  }

  /** A document whose sections have pairwise distinct heading keys yields good candidates, and no other does. */
  lemma GoodExactlyWhenHeadingsDiffer(
    env: Environment, doc: Document, title: Option<string>, summary: Option<string>,
    cfg: Packing.Budget, sections: seq<Markdown.Section>, plans: seq<SectionChunks>, chunks: seq<MarkdownChunk>, includeHeadingPath: bool
  )
    requires Separates(env.hash, doc.path)
    requires ChunksOfDocument(cfg, sections, plans, chunks, includeHeadingPath)
    ensures GoodCandidates(doc, Candidates(env, doc, title, summary, chunks)) <==>
      NoDuplicates(SectionKeys(sections, includeHeadingPath))
  {
    hide NoDuplicates, Separates, ChunksOfDocument, CreateKeys, Candidates, ChunkKeys, SectionKeys, IsChunkOf;
    HashesDistinct(env, doc, title, summary, chunks);
    CandidatesBelong(env, doc, title, summary, chunks);
    PlannedKeysDistinct(cfg, sections, plans, chunks, includeHeadingPath);
  }

  // ---------- duplicate keys ----------

  /** Candidates under the same key agree on chunk id and content. */
  predicate Agree(cands: seq<Create>) {
    forall i, j :: 0 <= i < j < |cands| && CreateKey(cands[i]) == CreateKey(cands[j]) ==>
      cands[i].chunkId == cands[j].chunkId && cands[i].contentHash == cands[j].contentHash
  }

  /** A store from which the ingest has nothing to write. */
  predicate Settled(existing: map<string, Record>, cands: seq<Create>) {
    forall c :: c in cands ==> IsUnchanged(existing, c)
  }

  lemma {:induction false} SettledIsEmpty(existing: map<string, Record>, cands: seq<Create>)
    ensures PendingWrites(existing, cands) == [] <==> Settled(existing, cands)
  {
    hide IsUnchanged;
    if cands != [] {
      SettledIsEmpty(existing, cands[..|cands| - 1]);
      assert cands == cands[..|cands| - 1] + [cands[|cands| - 1]];
    }
  }

  /** The store that holds each candidate under its key. */
  function Filled(cands: seq<Create>): map<string, Record> {
    if cands == [] then map[]
    else Filled(cands[..|cands| - 1])[CreateKey(cands[|cands| - 1]) := Record(0, cands[|cands| - 1], "", 1, 0, 0)]
  }

  lemma {:induction false} FilledMatches(cands: seq<Create>)
    requires Agree(cands)
    requires forall c :: c in cands ==> c.status == Active && c.allowRetrieval && c.allowLlmContext
    ensures Settled(Filled(cands), cands)
  {
    if cands != [] {
      var n := |cands| - 1;
      hide CreateKey;
      FilledMatches(cands[..n]);
      forall c | c in cands ensures IsUnchanged(Filled(cands), c) {
        var i :| 0 <= i < |cands| && cands[i] == c;
        if i < n {
          assert cands[..n][i] == c && IsUnchanged(Filled(cands[..n]), c);
        }
      }
    }
  }

  /** An ingest can ever find nothing to write exactly when same-keyed chunks agree; with two different texts under
      one heading path, every ingest of the document writes again. */
  lemma SettlesExactlyWhenAgreeing(cands: seq<Create>)
    requires forall c :: c in cands ==> c.status == Active && c.allowRetrieval && c.allowLlmContext
    ensures (exists existing :: PendingWrites(existing, cands) == []) <==> Agree(cands)
  {
    if Agree(cands) {
      FilledMatches(cands);
      SettledIsEmpty(Filled(cands), cands);
    }
    if exists existing :: PendingWrites(existing, cands) == [] {
      var existing :| PendingWrites(existing, cands) == [];
      SettledIsEmpty(existing, cands);
      hide PendingWrites, CreateKey;
      assert forall i :: 0 <= i < |cands| ==> cands[i] in cands;
    }
  }
}

/** `_persist_document_ingestion` and `ingest_document`. */
module DocumentIngest {
  import opened Common
  import Text
  import Markdown
  import Packing
  import SectionExtraction
  import opened Hashing
  import opened Chunking
  import opened Store
  import opened IngestPlan
  import opened DocumentPlan

  /** The store and the error left by committing `ops` in batches of `size`, when the database commits only the
      first `commits` transactions and fails on the next. A failed batch leaves no trace. */
  function CommitBatches(policy: RemovedChunkPolicy, now: int, db: Database, ops: seq<Op>, size: nat, commits: nat)
    : (Database, Option<Error>)
    requires size > 0
    decreases |ops|
  {
    if ops == [] then (db, None)
    else
      var n := Min(size, |ops|);
      match ApplyOps(policy, now, db, ops[..n])
      case Err(e) => (db, Some(e))
      case Ok(after) =>
        if commits == 0 then (db, Some(PersistenceError))
        else CommitBatches(policy, now, after, ops[n..], size, commits - 1)
  }

  /** Number of operations that are committed. */
  function CommittedCount(total: nat, size: nat, commits: nat): (n: nat)
    requires size > 0
    ensures n <= total
    decreases total
  {
    if total == 0 || commits == 0 then 0
    else Min(size, total) + CommittedCount(total - Min(size, total), size, commits - 1)
  }

  lemma {:induction false} PrefixApplies(policy: RemovedChunkPolicy, now: int, db: Database, ops: seq<Op>, k: nat)
    requires ApplyOps(policy, now, db, ops).Ok? && k <= |ops|
    ensures ApplyOps(policy, now, db, ops[..k]).Ok?
  {
    ApplyOpsAppend(policy, now, db, ops[..k], ops[k..]);
    assert ops[..k] + ops[k..] == ops;
  }

  lemma CommitBatchesStep(policy: RemovedChunkPolicy, now: int, db: Database, ops: seq<Op>, size: nat, commits: nat)
    requires size > 0 && ops != [] && commits > 0 && ApplyOps(policy, now, db, ops).Ok?
    ensures var n := Min(size, |ops|);
      && ApplyOps(policy, now, db, ops[..n]).Ok?
      && var after := ApplyOps(policy, now, db, ops[..n]).value;
      && CommitBatches(policy, now, db, ops, size, commits) == CommitBatches(policy, now, after, ops[n..], size, commits - 1)
      && ApplyOps(policy, now, after, ops[n..]).Ok?
  {
    var n := Min(size, |ops|);
    hide ApplyOps;
    PrefixApplies(policy, now, db, ops, n);
    ApplyOpsAppend(policy, now, db, ops[..n], ops[n..]);
    assert ops == ops[..n] + ops[n..];
  }

  /** A crash or a failed commit leaves a prefix of the operations applied, and success means all of them. */
  lemma {:induction false} CommittedIsPrefix(
    policy: RemovedChunkPolicy, now: int, db: Database, ops: seq<Op>, size: nat, commits: nat
  )
    requires size > 0 && ApplyOps(policy, now, db, ops).Ok?
    ensures var k := CommittedCount(|ops|, size, commits);
      && ApplyOps(policy, now, db, ops[..k]) == Ok(CommitBatches(policy, now, db, ops, size, commits).0)
      && CommitBatches(policy, now, db, ops, size, commits).1 == if k == |ops| then None else Some(PersistenceError)
    decreases |ops|
  {
    if ops == [] || commits == 0 {
      NothingCommitted(policy, now, db, ops, size, commits);
    } else {
      var n := Min(size, |ops|);
      hide *;
      MinSplits(size, |ops|);
      CommitBatchesStep(policy, now, db, ops, size, commits);
      var after := ApplyOps(policy, now, db, ops[..n]).value;
      CommittedIsPrefix(policy, now, after, ops[n..], size, commits - 1);
      CommittedStep(|ops|, size, commits);
      var k := CommittedCount(|ops| - n, size, commits - 1);
      PrefixOfRest(policy, now, db, ops, n, k);
    }
  }

  lemma MinSplits(size: nat, total: nat)
    requires size > 0 && total > 0
    ensures 0 < Min(size, total) <= total
  {
  }

  lemma CommittedStep(total: nat, size: nat, commits: nat)
    requires size > 0 && total > 0 && commits > 0
    ensures CommittedCount(total, size, commits) == Min(size, total) + CommittedCount(total - Min(size, total), size, commits - 1)
  {
  }

  lemma PrefixOfRest(policy: RemovedChunkPolicy, now: int, db: Database, ops: seq<Op>, n: nat, k: nat)
    requires n + k <= |ops| && ApplyOps(policy, now, db, ops[..n]).Ok?
    ensures ApplyOps(policy, now, db, ops[..n + k]) == ApplyOps(policy, now, ApplyOps(policy, now, db, ops[..n]).value, ops[n..][..k])
  {
    hide ApplyOps;
    ApplyOpsAppend(policy, now, db, ops[..n], ops[n..][..k]);
    assert ops[..n + k] == ops[..n] + ops[n..][..k];
  }

  lemma NothingCommitted(policy: RemovedChunkPolicy, now: int, db: Database, ops: seq<Op>, size: nat, commits: nat)
    requires size > 0 && ApplyOps(policy, now, db, ops).Ok? && (ops == [] || commits == 0)
    ensures CommittedCount(|ops|, size, commits) == 0 && ApplyOps(policy, now, db, ops[..0]) == Ok(db)
    ensures CommitBatches(policy, now, db, ops, size, commits) == (db, if ops == [] then None else Some(PersistenceError))
  {
    PrefixApplies(policy, now, db, ops, Min(size, |ops|));
    assert ops[..0] == [];
  }

  /** One transaction: all operations of the batch or none. */
  method RunBatch(repo: Repository, policy: RemovedChunkPolicy, now: int, batch: seq<Op>, commits: bool) returns (error: Option<Error>)
    requires Consistent(repo.db)
    modifies repo
    ensures Consistent(repo.db)
    ensures match ApplyOps(policy, now, old(repo.db), batch)
      case Err(e) => error == Some(e) && repo.db == old(repo.db)
      case Ok(after) =>
        if commits then error == None && repo.db == after
        else error == Some(PersistenceError) && repo.db == old(repo.db)
  {
    var snapshot := repo.db;
    var i := 0;
    while i < |batch|
      invariant 0 <= i <= |batch|
      invariant Consistent(repo.db) && ApplyOps(policy, now, snapshot, batch[..i]) == Ok(repo.db)
    {
      var op := batch[i];
      ghost var before := repo.db;
      assert batch[..i + 1][..i] == batch[..i];
      var failed: Option<Error> := None;
      match op {
        case InsertOp(memory) =>
          var r := repo.InsertMemory(memory, now);
        case ReplaceOp(existing, memory) =>
          match Or(memory.stableKey, Or(existing.data.stableKey, existing.data.sourceHash)) {
            case None => failed := Some(PersistenceError);
            case Some(key) =>
              var r := repo.PersistExistingRecord(ReplaceRecord(existing, memory, key, now));
              if r.Err? { failed := Some(r.error); }
          }
        case RemoveOp(existing) =>
          if policy.HardDelete? {
            var r := repo.DeleteMemory(existing.memoryId);
            if r.Err? { failed := Some(r.error); }
          } else {
            var r := repo.MarkChunkRemoved(existing, now);
            if r.Err? { failed := Some(r.error); }
          }
      }
      if failed.Some? {
        assert ApplyOps(policy, now, snapshot, batch[..i + 1]) == Err(failed.value);
        ErrorStays(policy, now, snapshot, batch, i + 1);
        repo.db := snapshot;
        return failed;
      }
      i := i + 1;
    }
    assert batch[..|batch|] == batch;
    if !commits {
      repo.db := snapshot;
      return Some(PersistenceError);
    }
    return None;
  }

  lemma ErrorStays(policy: RemovedChunkPolicy, now: int, db: Database, ops: seq<Op>, k: nat)
    requires k <= |ops| && ApplyOps(policy, now, db, ops[..k]).Err?
    ensures ApplyOps(policy, now, db, ops) == ApplyOps(policy, now, db, ops[..k])
  {
    ApplyOpsAppend(policy, now, db, ops[..k], ops[k..]);
    assert ops[..k] + ops[k..] == ops;
  }

  method PersistDocumentIngestion(
    repo: Repository, policy: RemovedChunkPolicy, now: int, size: int, commits: nat,
    inserts: seq<Create>, replacements: seq<(Record, Create)>, removals: seq<Record>
  )
    returns (r: Result<nat>)
    requires Consistent(repo.db)
    modifies repo
    ensures Consistent(repo.db)
    ensures size <= 0 ==> r == Err(PersistenceError) && repo.db == old(repo.db)
    ensures size > 0 ==>
      var outcome := CommitBatches(policy, now, old(repo.db), Operations(inserts, replacements, removals), size, commits);
      && repo.db == outcome.0
      && r == match outcome.1 { case None => Ok(|removals|) case Some(e) => Err(e) }
  {
    var ops := Operations(inserts, replacements, removals);
    if size <= 0 {
      return Err(PersistenceError);
    }
    hide *;
    var i, left := 0, commits;
    BatchesStart(policy, now, repo.db, ops, size, commits);
    while i < |ops|
      invariant 0 <= i <= |ops| && Consistent(repo.db)
      invariant CommitBatches(policy, now, repo.db, ops[i..], size, left)
             == CommitBatches(policy, now, old(repo.db), ops, size, commits)
    {
      var n := if size <= |ops| - i then size else |ops| - i;
      BatchesStep(policy, now, repo.db, ops, i, size, left);
      var error := RunBatch(repo, policy, now, ops[i..i + n], left > 0);
      if error.Some? {
        return Err(error.value);
      }
      i, left := i + n, left - 1;
    }
    BatchesEnd(policy, now, repo.db, ops, size, left);
    r := Ok(|removals|);
  }

  lemma BatchesStart(policy: RemovedChunkPolicy, now: int, db: Database, ops: seq<Op>, size: nat, commits: nat)
    requires size > 0
    ensures CommitBatches(policy, now, db, ops[0..], size, commits) == CommitBatches(policy, now, db, ops, size, commits)
  {
    assert ops[0..] == ops;
  }

  lemma BatchesStep(policy: RemovedChunkPolicy, now: int, db: Database, ops: seq<Op>, i: nat, size: nat, commits: nat)
    requires size > 0 && i < |ops|
    ensures var n := if size <= |ops| - i then size else |ops| - i;
      CommitBatches(policy, now, db, ops[i..], size, commits) ==
        match ApplyOps(policy, now, db, ops[i..i + n])
        case Err(e) => (db, Some(e))
        case Ok(after) =>
          if commits == 0 then (db, Some(PersistenceError))
          else CommitBatches(policy, now, after, ops[i + n..], size, commits - 1)
  {
    hide ApplyOps;
    var n := if size <= |ops| - i then size else |ops| - i;
    assert ops[i..][..n] == ops[i..i + n] && ops[i..][n..] == ops[i + n..];
  }

  lemma BatchesEnd(policy: RemovedChunkPolicy, now: int, db: Database, ops: seq<Op>, size: nat, commits: nat)
    requires size > 0
    ensures CommitBatches(policy, now, db, ops[|ops|..], size, commits) == (db, None)
  {
  }

  // ---------- one ingest ----------

  datatype Limits = Limits(
    maxFileSize: Option<int>, maxFrontmatter: Option<int>, maxSections: Option<int>, maxChunks: Option<int>
  )

  predicate Exceeds(value: int, limit: Option<int>) {
    limit.Some? && value > limit.value
  }

  datatype Settings = Settings(
    strategy: string, budget: Packing.Budget, includeHeadingPath: bool, policy: RemovedChunkPolicy,
    transactionSize: int, embeddingBatchSize: int, limits: Limits
  )

  datatype IngestResult = IngestResult(added: nat, updated: nat, removed: nat, same: nat)

  /** A parsed file: the validated frontmatter's fields and the body below it. */
  datatype Source = Source(fileSize: nat, frontmatterBytes: nat, name: Option<string>, description: Option<string>, body: string)

  /** The store and the answer that an ingest of `cands` leaves, given the stored chunks it `found`. */
  function Outcome(
    env: Environment, settings: Settings, db: Database, found: seq<Record>, cands: seq<Create>, dryRun: bool, now: int, commits: nat
  ): (Database, Result<IngestResult>) {
    KeyOrderIsKeys(found);
    var existing := LastByHash(found);
    var pending := PendingWrites(existing, cands);
    var removals := Removals(existing, KeyOrder(found), CreateKeys(cands));
    var same := |cands| - |pending|;
    if dryRun then
      (db, Ok(IngestResult(|Inserts(pending)|, |Replacements(pending)|, |removals|, same)))
    else
      match Prepare(env, pending, settings.embeddingBatchSize)
      case Err(e) => (db, Err(e))
      case Ok(prepared) =>
        if settings.transactionSize <= 0 then (db, Err(PersistenceError))
        else
          var ops := Operations(Inserts(prepared), Replacements(prepared), removals);
          var committed := CommitBatches(settings.policy, now, db, ops, settings.transactionSize, commits);
          match committed.1
          case Some(e) => (committed.0, Err(e))
          case None => (committed.0, Ok(IngestResult(|Inserts(prepared)|, |Replacements(prepared)|, |removals|, same)))
  }

  /** What an ingest sees of its source: sections, chunks, and how they were cut. */
  datatype Reading = Reading(
    sections: seq<Markdown.Section>, spans: seq<Markdown.Span>, chunks: seq<MarkdownChunk>, plans: seq<SectionChunks>,
    title: Option<string>
  )

  ghost predicate Reads(settings: Settings, source: Source, reading: Reading) {
    var lines := Markdown.DocumentLines(source.body);
    && Markdown.SectionsOf(lines, reading.spans, reading.sections, |lines| + 1)
    && Text.AllTokens(Markdown.Texts(reading.sections)) == Text.AllTokens(Markdown.BodyLines(lines, |lines|))
    && ChunksOfDocument(settings.budget, reading.sections, reading.plans, reading.chunks, settings.includeHeadingPath)
    && reading.title == if source.name.Some? then source.name else Markdown.FirstTitle(Markdown.HeadingsBefore(lines, |lines|))
  }

  predicate WithinLimits(settings: Settings, source: Source, sections: nat, chunks: nat) {
    && !Exceeds(source.fileSize, settings.limits.maxFileSize)
    && !Exceeds(source.frontmatterBytes, settings.limits.maxFrontmatter)
    && !Exceeds(sections, settings.limits.maxSections)
    && !Exceeds(chunks, settings.limits.maxChunks)
  }

  method IndexByHash(found: seq<Record>) returns (existing: map<string, Record>, order: seq<string>)
    ensures existing == LastByHash(found) && order == KeyOrder(found)
  {
    existing, order := map[], [];
    var i := 0;
    while i < |found|
      invariant 0 <= i <= |found|
      invariant existing == LastByHash(found[..i]) && order == KeyOrder(found[..i])
    {
      assert found[..i + 1][..i] == found[..i];
      var hash := found[i].data.sourceHash;
      if hash.Some? {
        if hash.value !in order {
          order := order + [hash.value];
        }
        existing := existing[hash.value := found[i]];
      }
      i := i + 1;
    }
    assert found[..|found|] == found;
  }

  /** The planning loop of `ingest_document`. */
  method PlanWrites(
    env: Environment, doc: Document, title: Option<string>, summary: Option<string>, chunks: seq<MarkdownChunk>, existing: map<string, Record>
  )
    returns (pending: seq<PendingWrite>, planned: seq<string>, same: nat)
    ensures var cands := Candidates(env, doc, title, summary, chunks);
      && pending == PendingWrites(existing, cands)
      && planned == CreateKeys(cands)
      && same == |cands| - |pending|
  {
    pending, planned, same := [], [], 0;
    PlanningStarts(env, doc, title, summary, chunks, existing);
    hide *;
    for i := 0 to |chunks|
      invariant Planning(env, doc, title, summary, chunks, existing, i, pending, planned, same)
    {
      var candidate := BuildChunkMemory(env, doc, title, summary, chunks[i], i);
      var key := CreateKey(candidate);
      PlanNext(env, doc, title, summary, chunks, existing, i, pending, planned, same);
      planned := planned + [key];
      if IsUnchanged(existing, candidate) {
        same := same + 1;
      } else {
        pending := pending + [PendingWrite(Lookup(existing, key), candidate)];
      }
    }
    PlanningDone(env, doc, title, summary, chunks, existing, pending, planned, same);
  }

  /** The loop's variables after `i` chunks. */
  ghost predicate Planning(
    env: Environment, doc: Document, title: Option<string>, summary: Option<string>, chunks: seq<MarkdownChunk>,
    existing: map<string, Record>, i: nat, pending: seq<PendingWrite>, planned: seq<string>, same: nat
  ) {
    i <= |chunks| &&
    var cands := Candidates(env, doc, title, summary, chunks[..i]);
    pending == PendingWrites(existing, cands) && planned == CreateKeys(cands) && same == i - |pending|
  }

  lemma PlanningStarts(
    env: Environment, doc: Document, title: Option<string>, summary: Option<string>, chunks: seq<MarkdownChunk>,
    existing: map<string, Record>
  )
    ensures Planning(env, doc, title, summary, chunks, existing, 0, [], [], 0)
  {
  }

  lemma PlanningDone(
    env: Environment, doc: Document, title: Option<string>, summary: Option<string>, chunks: seq<MarkdownChunk>,
    existing: map<string, Record>, pending: seq<PendingWrite>, planned: seq<string>, same: nat
  )
    requires Planning(env, doc, title, summary, chunks, existing, |chunks|, pending, planned, same)
    ensures var cands := Candidates(env, doc, title, summary, chunks);
      pending == PendingWrites(existing, cands) && planned == CreateKeys(cands) && same == |cands| - |pending|
  {
    hide Candidates, PendingWrites, CreateKeys;
    assert chunks[..|chunks|] == chunks;
  }

  lemma PlanNext(
    env: Environment, doc: Document, title: Option<string>, summary: Option<string>, chunks: seq<MarkdownChunk>,
    existing: map<string, Record>, i: nat, pending: seq<PendingWrite>, planned: seq<string>, same: nat
  )
    requires i < |chunks| && Planning(env, doc, title, summary, chunks, existing, i, pending, planned, same)
    ensures var c := BuildChunkMemory(env, doc, title, summary, chunks[i], i);
      var key := CreateKey(c);
      if IsUnchanged(existing, c) then
        Planning(env, doc, title, summary, chunks, existing, i + 1, pending, planned + [key], same + 1)
      else
        var write := PendingWrite(Lookup(existing, key), c);
        Planning(env, doc, title, summary, chunks, existing, i + 1, pending + [write], planned + [key], same)
  {
    hide BuildChunkMemory, CreateKey, Matches;
    var before, c := Candidates(env, doc, title, summary, chunks[..i]), BuildChunkMemory(env, doc, title, summary, chunks[i], i);
    assert Candidates(env, doc, title, summary, chunks[..i + 1]) == before + [c] by {
      assert chunks[..i + 1][..i] == chunks[..i];
    }
    hide Candidates;
    assert (before + [c])[..|before|] == before;
  }

  method PlanRemovals(existing: map<string, Record>, order: seq<string>, planned: seq<string>) returns (removals: seq<Record>)
    requires forall key :: key in order ==> key in existing
    ensures removals == Removals(existing, order, planned)
  {
    removals := [];
    var i := 0;
    while i < |order|
      invariant 0 <= i <= |order|
      invariant removals == Removals(existing, order[..i], planned)
    {
      assert order[..i + 1][..i] == order[..i];
      if order[i] !in planned && !Gone(existing[order[i]]) {
        removals := removals + [existing[order[i]]];
      }
      i := i + 1;
    }
    assert order[..|order|] == order;
  }

  method EmbedDocumentCandidates(env: Environment, pending: seq<PendingWrite>, size: int) returns (r: Result<seq<PendingWrite>>)
    ensures r == Prepare(env, pending, size)
  {
    if pending == [] {
      return Ok([]);
    }
    if size <= 0 {
      return Err(PersistenceError);
    }
    var prepared: seq<PendingWrite> := [];
    var i := 0;
    ThenNothing(Prepare(env, pending, size));
    assert pending[0..] == pending;
    while i < |pending|
      invariant 0 <= i <= |pending|
      invariant Prepare(env, pending, size) == Then(prepared, Prepare(env, pending[i..], size))
    {
      hide EmbeddingTexts, PrepareBatch;
      var n := Min(size, |pending| - i);
      var batch := pending[i..i + n];
      assert pending[i..][..n] == batch && pending[i..][n..] == pending[i + n..];
      var texts := EmbeddingTexts(env, batch);
      var answer := env.embedBatch(texts);
      if answer.Err? {
        return Err(answer.error);
      }
      var first := PrepareBatch(env, batch, answer.value);
      if first.Err? {
        return Err(first.error);
      }
      ThenAppend(prepared, first.value, Prepare(env, pending[i + n..], size));
      prepared := prepared + first.value;
      i := i + n;
    }
    assert prepared + [] == prepared;
    r := Ok(prepared);
  }

  lemma ThenNothing(rest: Result<seq<PendingWrite>>)
    ensures Then([], rest) == rest
  {
    if rest.Ok? {
      assert [] + rest.value == rest.value;
    }
  }

  function Then(done: seq<PendingWrite>, rest: Result<seq<PendingWrite>>): Result<seq<PendingWrite>> {
    match rest
    case Err(e) => Err(e)
    case Ok(more) => Ok(done + more)
  }

  lemma ThenAppend(a: seq<PendingWrite>, b: seq<PendingWrite>, rest: Result<seq<PendingWrite>>)
    ensures Then(a, Then(b, rest)) == Then(a + b, rest)
  {
    if rest.Ok? {
      assert a + (b + rest.value) == a + b + rest.value;
    }
  }

  method IngestDocument(
    repo: Repository, env: Environment, settings: Settings, doc: Document, source: Source, dryRun: bool, now: int, commits: nat
  )
    returns (r: Result<IngestResult>, ghost reading: Reading, ghost found: seq<Record>)
    requires Consistent(repo.db)
    modifies repo
    ensures if Exceeds(source.fileSize, settings.limits.maxFileSize) || settings.strategy != "markdown_section"
      then r == Err(IngestionError) && repo.db == old(repo.db)
      else
        && Reads(settings, source, reading)
        && if !WithinLimits(settings, source, |reading.sections|, |reading.chunks|)
           then r == Err(IngestionError) && repo.db == old(repo.db)
           else
             var cands := Candidates(env, doc, reading.title, source.description, reading.chunks);
             && Listed(old(repo.db), doc, found)
             && (repo.db, r) == Outcome(env, settings, old(repo.db), found, cands, dryRun, now, commits)
  {
    hide Markdown.SectionsOf, ChunksOfDocument, Listed, LastByHash, KeyOrder, PendingWrites, Removals, CreateKeys, Candidates;
    hide Prepare, Operations, Inserts, Replacements, CommitBatches, Consistent, BuildChunkMemory;
    hide Text.AllTokens, Markdown.BodyLines, Markdown.HeadingsBefore, Markdown.DocumentLines, Markdown.Texts;
    reading, found := Reading([], [], [], [], None), [];
    if Exceeds(source.fileSize, settings.limits.maxFileSize) {
      return Err(IngestionError), reading, found;
    }
    var sections, firstHeading;
    ghost var spans, plans;
    sections, firstHeading, spans := SectionExtraction.ExtractSections(source.body);
    var title := if source.name.Some? then source.name else firstHeading;
    var chunked;
    chunked, plans := ChunkMarkdownSections(sections, settings.strategy, settings.budget, settings.includeHeadingPath);
    if chunked.Err? {
      return Err(chunked.error), reading, found;
    }
    var chunks := chunked.value;
    reading := Reading(sections, spans, chunks, plans, title);
    if !WithinLimits(settings, source, |sections|, |chunks|) {
      return Err(IngestionError), reading, found;
    }
    var listed := repo.ListBySourcePath(doc);
    found := listed;
    KeyOrderIsKeys(listed);
    var existing, order := IndexByHash(listed);
    var pending, planned, same := PlanWrites(env, doc, title, source.description, chunks, existing);
    var removals := PlanRemovals(existing, order, planned);
    if dryRun {
      return Ok(IngestResult(|Inserts(pending)|, |Replacements(pending)|, |removals|, same)), reading, found;
    }
    var prepared := EmbedDocumentCandidates(env, pending, settings.embeddingBatchSize);
    if prepared.Err? {
      return Err(prepared.error), reading, found;
    }
    var inserts, replacements := Inserts(prepared.value), Replacements(prepared.value);
    var persisted := PersistDocumentIngestion(
      repo, settings.policy, now, settings.transactionSize, commits, inserts, replacements, removals);
    if persisted.Err? {
      return Err(persisted.error), reading, found;
    }
    r := Ok(IngestResult(|inserts|, |replacements|, persisted.value, same));
  }
}
