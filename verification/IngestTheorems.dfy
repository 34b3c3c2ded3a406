/** What a caller of `ingest_document` can rely on. */
module IngestTheorems {
  import opened Common
  import opened Chunking
  import opened Hashing
  import opened Store
  import opened IngestPlan
  import opened DocumentPlan
  import opened DocumentIngest
  import Text
  import Markdown

  /** The circumstances of an ingest in which nothing outside it goes wrong. */
  ghost predicate Sound(env: Environment, embedding: string -> Embedding, settings: Settings) {
    EmbedsEach(env, embedding) && settings.embeddingBatchSize > 0 && settings.transactionSize > 0
  }

  lemma SizesAreSound(env: Environment, embedding: string -> Embedding, settings: Settings)
    requires Sound(env, embedding, settings)
    ensures settings.transactionSize > 0
  {
  }

  lemma {:induction false} EmbeddingKeepsKinds(env: Environment, embedding: string -> Embedding, writes: seq<PendingWrite>)
    ensures |Inserts(EmbeddedWrites(env, embedding, writes))| == |Inserts(writes)|
    ensures |Replacements(EmbeddedWrites(env, embedding, writes))| == |Replacements(writes)|
  {
    if writes != [] {
      var n := |writes| - 1;
      EmbeddingKeepsKinds(env, embedding, writes[..n]);
      assert EmbeddedWrites(env, embedding, writes)[..n] == EmbeddedWrites(env, embedding, writes[..n]);
    }
  }

  /** A dry run reports what the real run would report, the counts add up, and it writes nothing. */
  lemma DryRunForetells(
    env: Environment, embedding: string -> Embedding, settings: Settings, db: Database, found: seq<Record>, cands: seq<Create>,
    now: int, commits: nat
  )
    requires Sound(env, embedding, settings)
    ensures var dry := Outcome(env, settings, db, found, cands, true, now, commits);
      var actual := Outcome(env, settings, db, found, cands, false, now, commits);
      && dry.0 == db && dry.1.Ok?
      && (actual.1.Ok? ==> actual.1 == dry.1)
      && dry.1.value.added + dry.1.value.updated + dry.1.value.same == |cands|
  {
    var pending := PendingWrites(LastByHash(found), cands);
    PrepareEmbeds(env, embedding, pending, settings.embeddingBatchSize);
    EmbeddingKeepsKinds(env, embedding, pending);
    InsertsAndReplacements(pending);
    hide Prepare, EmbeddedWrites, PendingWrites, CommitBatches, EmbedsEach, Operations, LastByHash, KeyOrder, Removals, Inserts, Replacements, CreateKeys;
  }

  /** The operations that the real run carries out. */
  function RealOps(env: Environment, embedding: string -> Embedding, found: seq<Record>, cands: seq<Create>): seq<Op> {
    IngestOps(found, cands, EmbeddedWrites(env, embedding, PendingWrites(LastByHash(found), cands)))
  }

  lemma RealOutcome(
    env: Environment, embedding: string -> Embedding, settings: Settings, db: Database, found: seq<Record>, cands: seq<Create>,
    now: int, commits: nat
  )
    requires Sound(env, embedding, settings)
    ensures var actual := Outcome(env, settings, db, found, cands, false, now, commits);
      var committed := CommitBatches(settings.policy, now, db, RealOps(env, embedding, found, cands), settings.transactionSize, commits);
      actual.0 == committed.0 && (actual.1.Ok? <==> committed.1.None?)
  {
    var pending := PendingWrites(LastByHash(found), cands);
    PrepareEmbeds(env, embedding, pending, settings.embeddingBatchSize);
    hide Prepare, EmbeddedWrites, PendingWrites, CommitBatches, EmbedsEach, Operations, LastByHash, KeyOrder, Removals, Inserts, Replacements, CreateKeys;
  }

  /** The document, its stored chunks and its candidates fit the theorems' assumptions. */
  ghost predicate Ready(db: Database, doc: Document, found: seq<Record>, cands: seq<Create>) {
    Tidy(db, doc) && Listed(db, doc, found) && GoodCandidates(doc, cands)
  }

  /** An ingest that fails after any number of committed batches has moved some keys to their target and left
      everything else alone; one that succeeds has moved them all. */
  lemma IngestMovesTowardsTarget(
    env: Environment, embedding: string -> Embedding, settings: Settings, db: Database, doc: Document, found: seq<Record>,
    cands: seq<Create>, now: int, commits: nat
  )
    requires Sound(env, embedding, settings) && Ready(db, doc, found, cands)
    ensures var actual := Outcome(env, settings, db, found, cands, false, now, commits);
      var planned := PlannedChunks(env, embedding, cands);
      && PlannedFor(doc, planned)
      && Progress(settings.policy, db, doc, planned, actual.0)
      && (actual.1.Ok? ==> Reached(settings.policy, db, doc, planned, actual.0))
  {
    var ops, planned := RealOps(env, embedding, found, cands), PlannedChunks(env, embedding, cands);
    var k := CommittedCount(|ops|, settings.transactionSize, commits);
    RealOutcome(env, embedding, settings, db, found, cands, now, commits);
    IngestIsPlan(settings.policy, env, embedding, db, doc, found, cands);
    hide *;
    PlanReachesTarget(settings.policy, now, db, doc, planned, ops);
    CommittedIsPrefix(settings.policy, now, db, ops, settings.transactionSize, commits);
    PrefixIsProgress(settings.policy, now, db, doc, planned, ops, k);
    if k == |ops| {
      assert ops[..k] == ops;
    }
  }

  lemma {:induction false} CommittedCountIs(total: nat, size: nat, commits: nat)
    requires size > 0
    ensures CommittedCount(total, size, commits) == total <==> total <= commits * size
    decreases total
  {
    if total > 0 && commits > 0 {
      CommittedCountIs(total - Min(size, total), size, commits - 1);
      assert commits * size == (commits - 1) * size + size;
      assert total <= size ==> total <= commits * size by {
        assert (commits - 1) * size >= 0;
      }
    }
  }

  /** When nothing outside it goes wrong, an ingest succeeds exactly when the database commits enough transactions
      for its operations. */
  lemma IngestSucceeds(
    env: Environment, embedding: string -> Embedding, settings: Settings, db: Database, doc: Document, found: seq<Record>,
    cands: seq<Create>, now: int, commits: nat
  )
    requires Sound(env, embedding, settings) && Ready(db, doc, found, cands)
    ensures Outcome(env, settings, db, found, cands, false, now, commits).1.Ok?
       <==> |RealOps(env, embedding, found, cands)| <= commits * settings.transactionSize
  {
    var ops, planned := RealOps(env, embedding, found, cands), PlannedChunks(env, embedding, cands);
    var size := settings.transactionSize;
    RealOutcome(env, embedding, settings, db, found, cands, now, commits);
    IngestIsPlan(settings.policy, env, embedding, db, doc, found, cands);
    hide *;
    PlanReachesTarget(settings.policy, now, db, doc, planned, ops);
    CommittedIsPrefix(settings.policy, now, db, ops, size, commits);
    CommittedCountIs(|ops|, size, commits);
  }

  /** One attempt: what it found stored, when it ran, and how many transactions it could commit. */
  datatype Attempt = Attempt(found: seq<Record>, now: int, commits: nat)

  /** The store after a series of attempts, each of which may break off after any committed batch. */
  function AfterAttempts(env: Environment, settings: Settings, db: Database, cands: seq<Create>, attempts: seq<Attempt>): Database {
    if attempts == [] then db
    else
      var last := attempts[|attempts| - 1];
      var before := AfterAttempts(env, settings, db, cands, attempts[..|attempts| - 1]);
      Outcome(env, settings, before, last.found, cands, false, last.now, last.commits).0
  }

  /** Every attempt lists the document as the attempts before left it. */
  ghost predicate ListedEach(
    env: Environment, settings: Settings, db: Database, doc: Document, cands: seq<Create>, attempts: seq<Attempt>
  ) {
    attempts == [] ||
    var n := |attempts| - 1;
    && ListedEach(env, settings, db, doc, cands, attempts[..n])
    && Listed(AfterAttempts(env, settings, db, cands, attempts[..n]), doc, attempts[n].found)
  }

  lemma {:induction false} AttemptsMakeProgress(
    env: Environment, embedding: string -> Embedding, settings: Settings, db: Database, doc: Document, cands: seq<Create>,
    attempts: seq<Attempt>
  )
    requires Sound(env, embedding, settings) && Tidy(db, doc) && GoodCandidates(doc, cands)
    requires ListedEach(env, settings, db, doc, cands, attempts)
    ensures PlannedFor(doc, PlannedChunks(env, embedding, cands))
    ensures Progress(settings.policy, db, doc, PlannedChunks(env, embedding, cands), AfterAttempts(env, settings, db, cands, attempts))
  {
    var planned := PlannedChunks(env, embedding, cands);
    PlannedChunksFor(env, embedding, doc, cands);
    if attempts == [] {
      hide Target, PlannedChunks;
    } else {
      hide Tidy, Outcome, Progress, Listed, GoodCandidates, PlannedFor, Sound, PlannedChunks;
      var n := |attempts| - 1;
      var mid := AfterAttempts(env, settings, db, cands, attempts[..n]);
      AttemptsMakeProgress(env, embedding, settings, db, doc, cands, attempts[..n]);
      ProgressIsReady(settings.policy, db, mid, doc, planned, attempts[n].found, cands);
      IngestMovesTowardsTarget(env, embedding, settings, mid, doc, attempts[n].found, cands, attempts[n].now, attempts[n].commits);
      ProgressContinues(settings.policy, db, mid, AfterAttempts(env, settings, db, cands, attempts), doc, planned);
    }
  }

  /** Crash recovery: after any number of interrupted attempts, an ingest of the same text that succeeds leaves the
      store that one uninterrupted ingest leaves, up to fresh ids and timestamps. */
  lemma IngestRecovers(
    env: Environment, embedding: string -> Embedding, settings: Settings, db: Database, doc: Document, cands: seq<Create>,
    attempts: seq<Attempt>, last: Attempt, straight: Attempt
  )
    requires Sound(env, embedding, settings) && Tidy(db, doc) && GoodCandidates(doc, cands)
    requires ListedEach(env, settings, db, doc, cands, attempts + [last]) && Listed(db, doc, straight.found)
    ensures var crashed := AfterAttempts(env, settings, db, cands, attempts);
      var again := Outcome(env, settings, crashed, last.found, cands, false, last.now, last.commits);
      var once := Outcome(env, settings, db, straight.found, cands, false, straight.now, straight.commits);
      again.1.Ok? && once.1.Ok? ==> SameUpToIdsAndTimes(again.0, once.0, doc)
  {
    assert (attempts + [last])[..|attempts|] == attempts;
    hide Tidy, Outcome, Progress, Listed, GoodCandidates, Sound, PlannedChunks, Reached, SameUpToIdsAndTimes, AfterAttempts;
    var planned := PlannedChunks(env, embedding, cands);
    var crashed := AfterAttempts(env, settings, db, cands, attempts);
    AttemptsMakeProgress(env, embedding, settings, db, doc, cands, attempts);
    ProgressIsReady(settings.policy, db, crashed, doc, planned, last.found, cands);
    IngestMovesTowardsTarget(env, embedding, settings, crashed, doc, last.found, cands, last.now, last.commits);
    IngestMovesTowardsTarget(env, embedding, settings, db, doc, straight.found, cands, straight.now, straight.commits);
    var again := Outcome(env, settings, crashed, last.found, cands, false, last.now, last.commits);
    var once := Outcome(env, settings, db, straight.found, cands, false, straight.now, straight.commits);
    if again.1.Ok? && once.1.Ok? {
      ProgressCompletes(settings.policy, db, crashed, again.0, doc, planned);
      ReachedTwice(settings.policy, db, doc, planned, again.0, once.0);
    }
  }

  lemma ProgressIsReady(
    policy: RemovedChunkPolicy, db: Database, mid: Database, doc: Document, planned: map<string, Create>,
    found: seq<Record>, cands: seq<Create>
  )
    requires Progress(policy, db, doc, planned, mid) && GoodCandidates(doc, cands) && Listed(mid, doc, found)
    ensures Ready(mid, doc, found, cands)
  {
  }

  lemma ReachedTwice(
    policy: RemovedChunkPolicy, db: Database, doc: Document, planned: map<string, Create>, a: Database, b: Database
  )
    requires Reached(policy, db, doc, planned, a) && Reached(policy, db, doc, planned, b)
    ensures SameUpToIdsAndTimes(a, b, doc)
  {
    hide Target, View, Others, Tidy;
  }

  /** Ingesting the same text again right after a success writes nothing and reports every chunk unchanged. */
  lemma SecondIngestIsIdle(
    env: Environment, embedding: string -> Embedding, settings: Settings, db: Database, doc: Document, found: seq<Record>,
    cands: seq<Create>, t1: int, commits1: nat, foundAgain: seq<Record>, t2: int, commits2: nat
  )
    requires Sound(env, embedding, settings) && Ready(db, doc, found, cands)
    requires var first := Outcome(env, settings, db, found, cands, false, t1, commits1);
      first.1.Ok? && Listed(first.0, doc, foundAgain)
    ensures var after := Outcome(env, settings, db, found, cands, false, t1, commits1).0;
      Outcome(env, settings, after, foundAgain, cands, false, t2, commits2) == (after, Ok(IngestResult(0, 0, 0, |cands|)))
  {
    var planned := PlannedChunks(env, embedding, cands);
    var after := Outcome(env, settings, db, found, cands, false, t1, commits1).0;
    IngestMovesTowardsTarget(env, embedding, settings, db, doc, found, cands, t1, commits1);
    assert GoodCandidates(doc, cands);
    hide *;
    ProgressIsReady(settings.policy, db, after, doc, planned, foundAgain, cands);
    ReadyIsPlan(settings.policy, env, embedding, after, doc, foundAgain, cands);
    NothingLeftToPlan(settings.policy, db, after, doc, planned, RealOps(env, embedding, foundAgain, cands));
    NoOpsNoWork(env, embedding, settings, after, foundAgain, cands, t2, commits2);
  }

  lemma ReadyIsPlan(
    policy: RemovedChunkPolicy, env: Environment, embedding: string -> Embedding, db: Database, doc: Document,
    found: seq<Record>, cands: seq<Create>
  )
    requires Ready(db, doc, found, cands)
    ensures IsPlan(policy, db, doc, PlannedChunks(env, embedding, cands), RealOps(env, embedding, found, cands))
  {
    IngestIsPlan(policy, env, embedding, db, doc, found, cands);
  }

  lemma NoOpsNoWork(
    env: Environment, embedding: string -> Embedding, settings: Settings, db: Database, found: seq<Record>,
    cands: seq<Create>, now: int, commits: nat
  )
    requires Sound(env, embedding, settings) && RealOps(env, embedding, found, cands) == []
    ensures Outcome(env, settings, db, found, cands, false, now, commits) == (db, Ok(IngestResult(0, 0, 0, |cands|)))
  {
    var pending := PendingWrites(LastByHash(found), cands);
    PrepareEmbeds(env, embedding, pending, settings.embeddingBatchSize);
    InsertsAndReplacements(EmbeddedWrites(env, embedding, pending));
    KeyOrderIsKeys(found);
    hide Prepare, EmbedsEach, PendingWrites, LastByHash, KeyOrder, Removals, Inserts, Replacements, CreateKeys;
    var prepared := EmbeddedWrites(env, embedding, pending);
    var removals := Removals(LastByHash(found), KeyOrder(found), CreateKeys(cands));
    assert |Operations(Inserts(prepared), Replacements(prepared), removals)| == |prepared| + |removals|;
  }

  /** From text to chunks: the tokens of all chunks, without the repeated ones, are those of the document's
      lines that are not headings, each once and in order. */
  lemma ReadingConservesTokens(settings: Settings, source: Source, reading: Reading)
    requires Reads(settings, source, reading)
    ensures forall s :: 0 <= s < |reading.plans| ==> |reading.plans[s].Repeated()| == |reading.plans[s].texts|
    ensures var lines := Markdown.DocumentLines(source.body);
      FreshDocument(reading.plans) == Text.AllTokens(Markdown.BodyLines(lines, |lines|))
  {
    hide Markdown.SectionsOf, ChunksOfDocument, Markdown.BodyLines, Text.AllTokens;
    DocumentConservation(settings.budget, reading.sections, reading.plans, reading.chunks, settings.includeHeadingPath);
  }
}
