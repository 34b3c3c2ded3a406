/** Folder runs and the store together: what a SUCCEEDED in the manifest says about the stored chunks. */
module FolderStore {
  import opened Common
  import opened Store
  import opened IngestPlan
  import opened DocumentPlan
  import opened IngestTheorems
  import DocumentIngest
  import Manifest
  import FolderProtocol

  /** What stays fixed while a folder is ingested over several runs: the files' texts and the settings. */
  datatype Folder = Folder(
    scope: Scope, env: Environment, embedding: string -> Embedding, settings: DocumentIngest.Settings,
    candidates: string -> seq<Create>
  )
  {
    function Doc(path: string): Document { Document(scope, path) }
    function Planned(path: string): map<string, Create> { PlannedChunks(env, embedding, candidates(path)) }
  }

  ghost predicate SoundFolder(f: Folder) {
    && IngestTheorems.Sound(f.env, f.embedding, f.settings)
    && forall path :: GoodCandidates(f.Doc(path), f.candidates(path))
  }

  /** The run and the store. */
  datatype World = World(run: FolderProtocol.State, db: Database)

  /** One document ingest, which may break off after any number of committed transactions. */
  ghost predicate Ingests(f: Folder, before: Database, path: string, after: Database, done: bool) {
    exists found, now: int, commits: nat ::
      && Listed(before, f.Doc(path), found)
      && var outcome := DocumentIngest.Outcome(f.env, f.settings, before, found, f.candidates(path), false, now, commits);
        after == outcome.0 && (done ==> outcome.1.Ok?)
  }

  ghost predicate InWork(s: FolderProtocol.State) {
    s.phase == FolderProtocol.Ingesting && s.queue != []
  }

  /** The document ingest of the file in work returns, or the process dies during it. */
  ghost predicate IngestStep(f: Folder, w: World, v: World) {
    InWork(w.run) && exists done: bool, ok: bool ::
      && (ok ==> done) && Ingests(f, w.db, w.run.queue[0], v.db, done)
      && (v.run == FolderProtocol.Ingest(w.run, done, ok) || v.run == FolderProtocol.Crash(w.run))
  }

  /** Any other step of the folder run leaves the store alone. */
  ghost predicate WorldStep(f: Folder, w: World, v: World) {
    IngestStep(f, w, v) || (v.db == w.db && !InWork(w.run) && FolderProtocol.Step(w.run, v.run))
  }

  ghost predicate WorldHistory(f: Folder, ws: seq<World>) {
    && ws != [] && ws[0].run == FolderProtocol.Fresh && (forall path :: Tidy(ws[0].db, f.Doc(path)))
    && forall i :: 0 <= i < |ws| - 1 ==> WorldStep(f, ws[i], ws[i + 1])
  }

  function Runs(ws: seq<World>): seq<FolderProtocol.State> {
    seq(|ws|, i requires 0 <= i < |ws| => ws[i].run)
  }

  // ---------- the folder protocol is respected ----------

  lemma WorldStepIsStep(f: Folder, w: World, v: World)
    requires WorldStep(f, w, v)
    ensures FolderProtocol.Step(w.run, v.run)
  {
    hide Ingests, FolderProtocol.Crash, FolderProtocol.Ingest;
  }

  lemma RunsAreHistory(f: Folder, ws: seq<World>)
    requires WorldHistory(f, ws)
    ensures FolderProtocol.History(Runs(ws))
  {
    hide WorldStep, FolderProtocol.Step;
    forall i | 0 <= i < |ws| - 1 ensures FolderProtocol.Step(ws[i].run, ws[i + 1].run) {
      WorldStepIsStep(f, ws[i], ws[i + 1]);
    }
  }

  // ---------- the store ----------

  /** The store holds what is planned for `path` and nothing else of it is active: ingesting it again changes nothing. */
  ghost predicate OnTarget(f: Folder, db: Database, path: string) {
    Reached(f.settings.policy, db, f.Doc(path), f.Planned(path), db)
  }

  ghost predicate AllTidy(f: Folder, db: Database) {
    forall path :: Tidy(db, f.Doc(path))
  }

  /** An ingest of one document does not touch the chunks of another. */
  lemma OtherDocument(before: Database, after: Database, doc: Document, other: Document)
    requires doc != other && Others(after, doc) == Others(before, doc) && Consistent(after) && Tidy(before, other)
    ensures Tidy(after, other)
    ensures forall key :: At(after, other, key) == At(before, other, key)
  {
    forall id ensures Mine(after, other, id) <==> Mine(before, other, id)
      ensures Mine(before, other, id) ==> id in after.records && after.records[id] == before.records[id]
    {
      assert id in Others(after, doc) <==> id in Others(before, doc);
    }
    SameDocument(before, after, other);
  }

  lemma SameDocument(before: Database, after: Database, doc: Document)
    requires Tidy(before, doc) && Consistent(after)
    requires forall id :: Mine(after, doc, id) <==> Mine(before, doc, id)
    requires forall id :: Mine(before, doc, id) ==> id in after.records && after.records[id] == before.records[id]
    ensures Tidy(after, doc)
    ensures forall key :: At(after, doc, key) == At(before, doc, key)
  {
    hide Consistent;
    assert Consistent(before) by {
      assert Tidy(before, doc);
    }
    forall key ensures At(after, doc, key) == At(before, doc, key) {
      SameAt(before, after, doc, key);
    }
  }

  lemma SameAt(before: Database, after: Database, doc: Document, key: string)
    requires Tidy(before, doc) && Tidy(after, doc)
    requires forall id :: Mine(after, doc, id) <==> Mine(before, doc, id)
    requires forall id :: Mine(before, doc, id) ==> id in after.records && after.records[id] == before.records[id]
    ensures At(after, doc, key) == At(before, doc, key)
  {
    hide At;
    if At(before, doc, key).Some? {
      AtIsMine(before, doc, key);
      AtIs(after, doc, At(before, doc, key).value.memoryId, key);
    } else if At(after, doc, key).Some? {
      AtIsMine(after, doc, key);
      AtIs(before, doc, At(after, doc, key).value.memoryId, key);
    }
  }

  lemma OnTargetElsewhere(f: Folder, before: Database, after: Database, path: string, other: string)
    requires path != other && Others(after, f.Doc(path)) == Others(before, f.Doc(path))
    requires Tidy(after, f.Doc(path)) && Tidy(before, f.Doc(other))
    ensures Tidy(after, f.Doc(other))
    ensures OnTarget(f, before, other) ==> OnTarget(f, after, other)
  {
    assert Consistent(after);
    hide Tidy, At, Others, Target, PlannedChunks;
    OtherDocument(before, after, f.Doc(path), f.Doc(other));
  }

  /** Once on target, a document is there to stay; progress on it is no change. */
  lemma OnTargetStays(f: Folder, before: Database, after: Database, path: string)
    requires Progress(f.settings.policy, before, f.Doc(path), f.Planned(path), after) && OnTarget(f, before, path)
    ensures OnTarget(f, after, path)
  {
    hide Tidy, At, Others, Target, PlannedChunks, View;
  }

  lemma ReachedIsOnTarget(f: Folder, before: Database, after: Database, path: string)
    requires PlannedFor(f.Doc(path), f.Planned(path))
    requires Reached(f.settings.policy, before, f.Doc(path), f.Planned(path), after)
    ensures OnTarget(f, after, path)
  {
    var doc, planned := f.Doc(path), f.Planned(path);
    hide Tidy, At, Others, Target, PlannedChunks, View;
    forall key
      ensures View(after, doc, key) == Target(f.settings.policy, IngestPlan.Planned(planned, key), View(after, doc, key))
    {
      TargetIsStable(f.settings.policy, doc, key, IngestPlan.Planned(planned, key), View(before, doc, key));
    }
  }

  /** One document ingest, finished or not. */
  lemma IngestsOne(f: Folder, before: Database, path: string, after: Database, done: bool)
    requires SoundFolder(f) && AllTidy(f, before) && Ingests(f, before, path, after, done)
    ensures PlannedFor(f.Doc(path), f.Planned(path))
    ensures Progress(f.settings.policy, before, f.Doc(path), f.Planned(path), after)
    ensures done ==> Reached(f.settings.policy, before, f.Doc(path), f.Planned(path), after)
  {
    assert Tidy(before, f.Doc(path)) && GoodCandidates(f.Doc(path), f.candidates(path));
    hide IngestTheorems.Sound, DocumentIngest.Outcome, Listed, Tidy, GoodCandidates, Progress, Reached, PlannedFor, PlannedChunks, AllTidy;
    var found, now: int, commits: nat :|
      && Listed(before, f.Doc(path), found)
      && var outcome := DocumentIngest.Outcome(f.env, f.settings, before, found, f.candidates(path), false, now, commits);
        after == outcome.0 && (done ==> outcome.1.Ok?);
    IngestMovesTowardsTarget(f.env, f.embedding, f.settings, before, f.Doc(path), found, f.candidates(path), now, commits);
  }

  lemma IngestsKeep(f: Folder, before: Database, path: string, after: Database, done: bool)
    requires SoundFolder(f) && AllTidy(f, before) && Ingests(f, before, path, after, done)
    ensures AllTidy(f, after)
    ensures done ==> OnTarget(f, after, path)
    ensures forall other :: OnTarget(f, before, other) ==> OnTarget(f, after, other)
  {
    IngestsOne(f, before, path, after, done);
    hide SoundFolder, Ingests, Tidy, Others, Target, View, PlannedChunks, PlannedFor, Reached, OnTarget;
    if done {
      ReachedIsOnTarget(f, before, after, path);
    }
    forall other
      ensures Tidy(after, f.Doc(other))
      ensures OnTarget(f, before, other) ==> OnTarget(f, after, other)
    {
      if other != path {
        OnTargetElsewhere(f, before, after, path, other);
      } else if OnTarget(f, before, other) {
        OnTargetStays(f, before, after, path);
      }
    }
  }

  // ---------- whole histories ----------

  ghost predicate AllStored(f: Folder, db: Database, paths: set<string>) {
    forall path :: path in paths ==> OnTarget(f, db, path)
  }

  lemma OtherStepCompletesNothing(s: FolderProtocol.State, t: FolderProtocol.State)
    requires FolderProtocol.Step(s, t) && !InWork(s)
    ensures t.completed == s.completed
  {
    hide Manifest.Synchronize, Manifest.Select, Manifest.SetStatus;
  }

  lemma CompletedBy(s: FolderProtocol.State, t: FolderProtocol.State, done: bool, ok: bool)
    requires s.queue != [] && (t == FolderProtocol.Ingest(s, done, ok) || t == FolderProtocol.Crash(s))
    ensures t.completed == s.completed || (done && t.completed == s.completed + {s.queue[0]})
  {
  }

  lemma WorldStepKeeps(f: Folder, w: World, v: World)
    requires SoundFolder(f) && AllTidy(f, w.db) && AllStored(f, w.db, w.run.completed) && WorldStep(f, w, v)
    ensures AllTidy(f, v.db) && AllStored(f, v.db, v.run.completed)
    ensures w.run.completed <= v.run.completed
  {
    hide SoundFolder, AllTidy, OnTarget, Ingests, FolderProtocol.Step;
    if IngestStep(f, w, v) {
      var done: bool, ok: bool :|
        && (ok ==> done) && Ingests(f, w.db, w.run.queue[0], v.db, done)
        && (v.run == FolderProtocol.Ingest(w.run, done, ok) || v.run == FolderProtocol.Crash(w.run));
      IngestsKeep(f, w.db, w.run.queue[0], v.db, done);
      CompletedBy(w.run, v.run, done, ok);
    } else {
      OtherStepCompletesNothing(w.run, v.run);
    }
  }

  lemma {:induction false} WorldsKeep(f: Folder, ws: seq<World>, i: nat)
    requires SoundFolder(f) && WorldHistory(f, ws) && i < |ws|
    ensures AllTidy(f, ws[i].db) && AllStored(f, ws[i].db, ws[i].run.completed)
  {
    hide SoundFolder, WorldStep, Tidy, OnTarget;
    if i > 0 {
      WorldsKeep(f, ws, i - 1);
      WorldStepKeeps(f, ws[i - 1], ws[i]);
    }
  }

  lemma {:induction false} CompletedGrows(f: Folder, ws: seq<World>, i: nat, j: nat)
    requires SoundFolder(f) && WorldHistory(f, ws) && i <= j < |ws|
    ensures ws[i].run.completed <= ws[j].run.completed
  {
    hide SoundFolder, WorldStep, Tidy, OnTarget, AllTidy, AllStored;
    if i < j {
      CompletedGrows(f, ws, i, j - 1);
      WorldsKeep(f, ws, j - 1);
      WorldStepKeeps(f, ws[j - 1], ws[j]);
    }
  }

  /** From the folder down to the store: in every history of folder runs, with crashes between any two steps and
      between any two transactions, a file that the stored manifest calls SUCCEEDED has exactly its planned chunks
      active in the store, then and in every later state. */
  lemma SucceededIsStored(f: Folder, ws: seq<World>, i: nat, j: nat, path: string, key: string)
    requires SoundFolder(f) && WorldHistory(f, ws) && i <= j < |ws|
    requires FolderProtocol.IsSucceeded(ws[i].run.disk, path)
    ensures OnTarget(f, ws[j].db, path)
    ensures key in f.Planned(path) <==> exists id :: IsActive(ws[j].db, f.Doc(path), id, key)
    ensures forall id :: IsActive(ws[j].db, f.Doc(path), id, key) ==>
      && ws[j].db.records[id].data.chunkId == f.Planned(path)[key].chunkId
      && ws[j].db.records[id].data.contentHash == f.Planned(path)[key].contentHash
  {
    hide WorldStep, Tidy, OnTarget, FolderProtocol.IsSucceeded, IsActive, PlannedChunks, FolderProtocol.History, IngestTheorems.Sound, GoodCandidates;
    RunsAreHistory(f, ws);
    FolderProtocol.ManifestSafety(Runs(ws), i);
    CompletedGrows(f, ws, i, j);
    WorldsKeep(f, ws, j);
    assert OnTarget(f, ws[j].db, path);
    StoredIsActive(f, ws[j].db, path, key);
  }

  lemma StoredIsActive(f: Folder, db: Database, path: string, key: string)
    requires SoundFolder(f) && OnTarget(f, db, path)
    ensures key in f.Planned(path) <==> exists id :: IsActive(db, f.Doc(path), id, key)
    ensures forall id :: IsActive(db, f.Doc(path), id, key) ==>
      && key in f.Planned(path)
      && db.records[id].data.chunkId == f.Planned(path)[key].chunkId
      && db.records[id].data.contentHash == f.Planned(path)[key].contentHash
  {
    hide IngestTheorems.Sound, GoodCandidates, PlannedFor, PlannedChunks, Reached;
    PlannedChunksFor(f.env, f.embedding, f.Doc(path), f.candidates(path));
    Convergence(f.settings.policy, db, db, f.Doc(path), f.Planned(path), key);
  }
}
