# ByteBox in Dafny

ByteBox keeps memories for language-model agents: it ingests folders of Markdown, stores the chunks beside
memories that agents write, ranks both for a query, and lets memories age, be superseded and be forgotten.
This project models its core and proves what its parts promise one another. `dafny verify dfyconfig.toml`
checks everything.

**Ingestion.** `Text`, `Markdown` and `Outline` model the parser: lines, fences, the heading stack; `Headings`
says what its heading and fence lines look like and reads a section's path off the hashes. `Blocks` and
`Chunking` model the second fence machine and the greedy packer with its overlap, and `ChunkText` shows that the
packed text can be cut into its blocks again. `Hashing` has the keys, `Store` the repository with its atomic
transactions. `IngestPlan` says what a plan of inserts, replacements and removals is and that it leads to the
same store from wherever it is begun; `DocumentIngest` has the worker that computes and commits such plans in
bounded batches, and `IngestTheorems` what a caller may rely on when any of these batches may be the last;
`StoredChunks` says what the store then holds, field by field. `Ordering` and `Manifest` carry the folder
manifest, `FolderIngest` the folder worker and its protocol under crashes, `Discovery` the walk over a directory
graph. `FolderStore` joins the folder protocol to the store; `RepeatedHeadings` and `ShortAnswers` hold
documents and providers on which an ingest falls short.

**Ranking.** `Candidates` is the object that all stages share and update in place; `CandidateIndex` and `Ranking`
are the dictionaries and sort keys. `RankFusion`, `Ownership` with `Fusion` (deduplication), `Filters`, `Graph`,
`Scoring`, `Weighting` and `Search` are the stages, each a method over the shared objects that is proved against a
function on their values, and theorems about that function.

**The rest.** `Ndcg` is the evaluation metric, `Backfill` the migration that numbers stored chunks, `Lifecycle`,
`Metadata`, `LifecycleService`, `LifecycleHistory`, `LifecycleLaws` and `Supersession` the transitions of agent
memories, and `Container` the start, operate and drain protocol of the application container as a state machine
over its shared accesses.

Numbers that are floats in the source are `real` here. SHA-256, embedding and reranking providers, vector and
full-text scores, regular expressions for redaction, the clock, fresh ids and the two transcendental functions of
the metric are parameters; where a theorem needs something of them, it says so in a `requires`.

## Where the code falls short of a plausible promise

Each of these has an input that shows it and the exact condition under which it does not happen.

- Two sections with one heading path get the same source hash. `GoodExactlyWhenHeadingsDiffer` says exactly when a
  document has distinct ones, `DocumentSettles` exactly when its ingest can ever come to rest, `TwiceNeverSettles` and
  `TwiceExample` give a text whose ingest cannot, and `SecondIngestLosesSection` shows that ingesting such a text again
  loses a section.
- A provider that answers a batch too briefly drops chunks silently: `ShortAnswersDropWrites`, shown by
  `ShortAnswerLosesChunk`.
- An unchanged chunk keeps a document position that is no longer its own: `PlacesGoStale`, shown by
  `MovedChunkIsMisplaced`.
- A heading path is the chain of enclosing headings exactly when every heading fits: `StackIsChain`, shown by
  `SkippedLevelGoesWrong`.
- A candidate that bridges two owners merges into one of them only: `OneOwnerPerComponent`, shown by
  `Deduplication.BridgeExample`.
- Expansion does not look at the scope of a query: `CandidatesStayWithin`, shown by `ScopeExample`.
- A file that is selected twice undoes its own success in the manifest: `RepeatedFileUndoesSuccess`, shown by
  `RepeatedFileExample`.
- nDCG against an explicit ideal list can exceed 1: `IdealBoundsEveryOrder` and `IdealBoundsEveryLogarithm`, shown by
  `ExplicitIdealExceedsOne`.
- Supersession may be cyclic: `SupersedeMakesCycle` and `RunStaysAcyclic`, shown by `SupersessionMayBeCyclic`.
- Only `close` waits for running operations; a failing `start` does not: `FailedStartDoesNotWait` and
  `ReleaseAfterWaiting`, shown by `AbandonedOperationMeetsFailedStart`.

The closing rule for fences is the code's own: same character and at least as long, at any indentation and with any
text behind it, which is laxer than section 4.5 of CommonMark 0.31.2.

## Model

| member | source | states |
|---|---|---|
| `SectionExtraction.ExtractSections` | src/bytebox/ingestion/markdown.py:77-128 | Splitting yields one section per non-blank stretch of lines between unfenced headings, numbered by position, with the heading path that was on the stack; together the sections hold exactly the whitespace tokens of all lines that are not unfenced headings; the title is the first unfenced heading. |
| `Markdown.SectionsCloseTheirFences` | src/bytebox/ingestion/markdown.py:101-126 | In every section but possibly the last, each fence that is opened is closed again. |
| `Markdown.SectionFence` | src/bytebox/ingestion/markdown.py:101-126 | Scanning a section's text on its own, from no open fence, ends in the same fence state as scanning the document up to the section's end. |
| `Markdown.SectionPathDepth` | src/bytebox/ingestion/markdown.py:108-112 | A section's heading path has at most six entries. |
| `Markdown.SectionAt` | src/bytebox/ingestion/markdown.py:91-99 | Section `k` of the result has index `k` and is the text of its own stretch. |
| `LineForms.HeadingExactly` | src/bytebox/ingestion/markdown.py:13-13 | A line is a heading of a level and title if and only if it is that many hashes, one to six, then whitespace, then the title without outer whitespace, then whitespace. |
| `LineForms.NoHeadingExactly` | src/bytebox/ingestion/markdown.py:13-13 | A line that starts with no hash, with more than six, or with hashes that no whitespace follows is no heading, and every other line is one. |
| `LineForms.FenceExactly` | src/bytebox/ingestion/markdown.py:131-136 | A line is a fence line with a marker if and only if it is whitespace, a maximal run of at least three backticks and tildes, and anything else. |
| `LineForms.FenceIsOpenSince` | src/bytebox/ingestion/markdown.py:101-126 | A fence is open before a line if and only if an earlier line outside of any fence opened it and no line since has a marker of the same character and at least that length. |
| `LineForms.NormalizingKeepsLines` | src/bytebox/ingestion/markdown.py:17-18 | Normalizing newlines changes no line of a text, only what ends the lines. |
| `LineForms.StripNewlinesSplits` | src/bytebox/ingestion/markdown.py:88-92 | Stripping newlines takes away newlines at both ends, and all of them. |
| `SectionPaths.SectionPathByHashes` | src/bytebox/ingestion/markdown.py:101-126 | From the hashes of the lines: with the depth of a heading being its level, but at most one more than that of the heading before, a section's path has one title for each depth down to that of the last unfenced heading line before it, namely the title of the last heading line at that depth. |
| `SectionPaths.SectionPathIsChain` | src/bytebox/ingestion/markdown.py:108-112 | When no heading line before a section has two hashes more than the one before it, the path lists the titles of the enclosing heading lines, whose hashes count 1, 2, 3, ... |
| `SectionPaths.DocumentTitle` | src/bytebox/ingestion/markdown.py:113-114 | The title is that of the first unfenced heading line, and there is one if and only if there is such a line. |
| `Outline.StackIsChain` | src/bytebox/ingestion/markdown.py:108-112 | The heading stack is the true chain of enclosing headings after every heading, if and only if every heading fits: it is deeper than all open ones, or the open chain starts with levels 1, 2, ... just below it. |
| `Outline.NoSkipsHeadingPath` | src/bytebox/ingestion/markdown.py:108-112 | When no heading goes more than one level deeper than the one before, every heading path is the chain of enclosing headings. |
| `Outline.HeadingPathIsStack` | src/bytebox/ingestion/markdown.py:108-112 | The titles that the parser keeps are those of the stacked positions. |
| `Outline.SkippedLevelGoesWrong` | src/bytebox/ingestion/markdown.py:108-112 | A concrete outline with a skipped level whose path is not the chain of enclosing headings. |
| `BlockSplitting.SplitFencedBlocks` | src/bytebox/ingestion/chunking.py:123-174 | The block splitter cuts a section into paragraphs that are as long as they can be, closed fences and at most one unclosed fence at the end, each from its own successive stretch of lines, and loses no token. |
| `Blocks.FencedExactlyWhenClosed` | src/bytebox/ingestion/chunking.py:194-202 | A block passes the fenced-code test if and only if it was cut at a fence that was closed. |
| `Blocks.UnclosedBlockLeavesFenceOpen` | src/bytebox/ingestion/chunking.py:123-174 | An unclosed block is cut only from a text that ends inside a fence, so together with `SectionsCloseTheirFences` only the last section can have one: the two fence machines agree. |
| `BlankLineSplitting.BlankLineBlocksTokens` | src/bytebox/ingestion/chunking.py:123-131 | Splitting at blank lines, the mode without code preservation, loses no token. |
| `Chunking.SplitBlocks` | src/bytebox/ingestion/chunking.py:123-174 | Both modes of the splitter conserve the section's tokens; in preserving mode the blocks come from successive stretches. |
| `Chunking.ClosedFencesStand` | src/bytebox/ingestion/chunking.py:88-97 | With code preservation on, exactly the blocks of closed fences become chunks of their own. |
| `Chunking.ChunkSectionText` | src/bytebox/ingestion/chunking.py:71-120 | The packing loop follows a plan: each chunk is a closed fence verbatim or a run of blocks behind the carried overlap, and the plan uses every block once and in order; a section within the budget stays whole. |
| `ChunkTexts.PackedChunkLines` | src/bytebox/ingestion/chunking.py:90-118 | With code preservation, the lines of every packed chunk are those of the carried text and of each of its blocks, in order, with exactly one empty line between neighbours. |
| `ChunkTexts.PackedChunkParts` | src/bytebox/ingestion/chunking.py:90-118 | Without it, splitting a packed chunk at its blank lines gives back the carried text and its blocks. |
| `ChunkTexts.BlockIsItsLines` | src/bytebox/ingestion/chunking.py:138-174 | Each block of a preserving split is its own stretch of the section's lines, up to the last one that is not empty. |
| `ChunkTexts.CarryIsSpacedTokens` | src/bytebox/ingestion/chunking.py:177-184 | The carried text is the last tokens of the chunk before, as many as allowed, one space apart. |
| `BlankLineRoundTrip.BlocksAreSolidPieces` | src/bytebox/ingestion/chunking.py:123-125 | No part of a split at blank lines has a blank line in it, is blank, or has a newline at an end. |
| `Chunking.ChunkConservation` | src/bytebox/ingestion/chunking.py:71-120 | For every section, budget and overlap: dropping the repeated tokens from each chunk and concatenating gives exactly the section's whitespace tokens. |
| `Chunking.RepeatedTokensAreATail` | src/bytebox/ingestion/chunking.py:99-105 | The repeated tokens at the head of a chunk are exactly the last min(overlap, length) tokens of the chunk before. |
| `Chunking.OverlapStopsAtFences` | src/bytebox/ingestion/chunking.py:88-105 | Tokens are repeated only between two packed chunks neither of which contains a closed fence. |
| `Packing.OverlapIsTail` | src/bytebox/ingestion/chunking.py:177-184 | Between two packed chunks all of the allowed overlap is carried, next to a fence none. |
| `Packing.TailTokensAreTokens` | src/bytebox/ingestion/chunking.py:177-184 | The tail of a text holds exactly its last tokens, as many as allowed. |
| `Packing.ChunkBudget` | src/bytebox/ingestion/chunking.py:78-120 | Every chunk is a closed fence verbatim, or has at most `max_tokens` tokens, or is one source block behind at most `overlap_tokens` tokens. |
| `Packing.ChunksAreFull` | src/bytebox/ingestion/chunking.py:99-105 | Packing is greedy: the tokens of a packed chunk and of the block that starts the next packed chunk exceed the budget. |
| `Chunking.ChunkMarkdownSections` | src/bytebox/ingestion/chunking.py:37-68 | The chunks of a document are the chunks of its sections in order, numbered within each section; any other strategy is refused. |
| `ChunkTexts.ChunkOrigin` | src/bytebox/ingestion/chunking.py:37-68 | Each chunk of a document is the next text of its section, with the section's heading path (or none), its index, the place within the section and its token count. |
| `Chunking.DocumentConservation` | src/bytebox/ingestion/chunking.py:37-68 | Over a whole document, the chunks without their repeated tokens hold the tokens of all section texts, each once and in order. |
| `Hashing.SourceHashInputInjective` | src/bytebox/ingestion/hashing.py:17-30 | The hashed text determines heading key and chunk index, although titles may contain the separator. |
| `Hashing.HashedTextExample` | src/bytebox/ingestion/hashing.py:17-56 | The text that is hashed for one chunk, character by character. |
| `Hashing.DecimalIsRead` | src/bytebox/ingestion/hashing.py:17-30 | The index is written in decimal digits that read back as the index. |
| `Hashing.PlannedKeysDistinct` | src/bytebox/ingestion/hashing.py:17-30 | The (heading key, index) pairs of a document's chunks are pairwise distinct if and only if its sections have pairwise distinct heading keys. |
| `Store.Repository.InsertMemory` | src/bytebox/arcade/queries.py:478-491 | Inserting adds exactly one record, under an id that no stored record has, at version 1 with the given data and time; every other record stays as it is. |
| `Store.Repository.PersistExistingRecord` | src/bytebox/arcade/queries.py:517-527 | Persisting replaces exactly the record of that id and adds none; an unknown id is refused and changes nothing. |
| `Store.Repository.DeleteMemory` | src/bytebox/arcade/queries.py:529-535 | Deleting takes away exactly the record of that id; an unknown id is refused and changes nothing. |
| `Store.Repository.MarkChunkRemoved` | src/bytebox/arcade/queries.py:493-515 | The removed chunk is hidden and flagged, gets the content hash of the record as it was listed, a new version and time, and keeps every other field of the stored record; all other records stay. |
| `Store.Repository.ListBySourcePath` | src/bytebox/arcade/queries.py:171-192 | Listing a document yields exactly its stored chunks, each once, in some order. |
| `IngestPlan.TargetIsStable` | src/bytebox/services/ingestion_document.py:160-187 | The target of a key is its own target: nothing is left to do once it is reached. |
| `IngestPlan.PlanReachesTarget` | src/bytebox/services/ingestion_document.py:356-417 | Carrying out a whole plan succeeds and brings every key to its target, whatever was stored, and touches no other scope or path. |
| `IngestPlan.PrefixIsProgress` | src/bytebox/services/ingestion_document.py:356-417 | Any prefix of a plan leaves each key either as it was or on its target, and touches nothing else. |
| `IngestPlan.ProgressContinues` | src/bytebox/services/ingestion_document.py:126-187 | Progress made by one attempt and continued by another is progress of the first: targets do not move. |
| `IngestPlan.ProgressCompletes` | src/bytebox/services/ingestion_document.py:126-187 | Reaching the target from a partial state reaches the target of the original state. |
| `IngestPlan.CrashRecovery` | src/bytebox/services/ingestion_document.py:126-187 | Stopping after any number of operations, replanning from what is stored and finishing ends in the same store as one uninterrupted run, up to fresh ids and timestamps. |
| `IngestPlan.NothingLeftToPlan` | src/bytebox/services/ingestion_document.py:160-187 | On a store that has reached its target, a plan contains no operation. |
| `IngestPlan.Convergence` | src/bytebox/services/ingestion_document.py:126-245 | After success the active chunks of the scope and path are exactly the planned keys, each with its planned chunk id and content hash. |
| `IngestPlan.PlacesGoStale` | src/bytebox/services/ingestion_document.py:160-170 | After success a planned chunk has its planned document position if and only if it was not stored before, unchanged, under another position: the comparison ignores positions. |
| `DocumentPlan.IngestIsPlan` | src/bytebox/services/ingestion_document.py:126-206 | What the planning loop computes from the stored chunks and the candidates is such a plan. |
| `DocumentPlan.GoodExactlyWhenHeadingsDiffer` | src/bytebox/services/ingestion_document.py:126-158 | The planned hashes are pairwise distinct, as the theorems need, if and only if the sections have pairwise distinct heading keys. |
| `DocumentPlan.SettlesExactlyWhenAgreeing` | src/bytebox/services/ingestion_document.py:160-170 | There is a store from which an ingest has nothing to write if and only if chunks under one key agree in chunk id and content; otherwise every ingest of the document writes again. |
| `RepeatedHeadings.DocumentSettles` | src/bytebox/services/ingestion_document.py:126-170 | For the chunks of a document: an ingest can ever find nothing to write if and only if chunks with the same heading key and index have the same content hash. |
| `RepeatedHeadings.TwiceNeverSettles` | src/bytebox/services/ingestion_document.py:126-170 | A text with two sections under one heading, and what an ingest reads of it: unless hash and embedding text confuse their bodies, its planned keys clash, and every ingest has something to write whatever is stored. |
| `RepeatedHeadings.TwiceExample` | src/bytebox/services/ingestion_document.py:126-170 | The same for one concrete hash and embedding text. |
| `RepeatedHeadings.SecondIngestLosesSection` | src/bytebox/services/ingestion_document.py:116-187 | Two chunks under one key are both stored by the first ingest; the second ingest of the unchanged text succeeds, overwrites one with the other, and no record holds the second chunk any more. |
| `DocumentPlan.PrepareEmbeds` | src/bytebox/services/ingestion_document.py:419-477 | With a provider that answers one acceptable vector for each text, every pending write gets its own vector, whatever the batch size. |
| `DocumentPlan.ShortAnswersDropWrites` | src/bytebox/services/ingestion_document.py:443-470 | Pairing a batch with a shorter answer drops writes without an error: all pending writes survive if and only if no answer is too short. |
| `ShortAnswers.ShortAnswerLosesChunk` | src/bytebox/services/ingestion_document.py:443-470 | A provider that answers every batch with one vector, and an ingest of two new chunks that succeeds, stores the first and reports one chunk added. |
| `DocumentIngest.PlanWrites` | src/bytebox/services/ingestion_document.py:126-172 | The planning loop: pending writes, planned hashes in order, and the number of unchanged chunks. |
| `DocumentIngest.PlanRemovals` | src/bytebox/services/ingestion_document.py:173-187 | The removals are the stored chunks that are not planned and not gone already, in the order of their first listing. |
| `DocumentIngest.EmbedDocumentCandidates` | src/bytebox/services/ingestion_document.py:419-477 | The batch loop computes the prepared writes, or the first error of provider or vector check. |
| `DocumentIngest.RunBatch` | src/bytebox/services/ingestion_document.py:375-414 | One transaction applies all operations of its batch or none. |
| `DocumentIngest.PersistDocumentIngestion` | src/bytebox/services/ingestion_document.py:356-417 | The operations are committed batch by batch, inserts first, then replacements, then removals; the first failing batch stops the run and leaves the committed ones. |
| `DocumentIngest.CommittedIsPrefix` | src/bytebox/services/ingestion_document.py:356-417 | When the database fails after some transactions, what is stored is the result of a prefix of the operations, and the run reports success exactly when the prefix is everything. |
| `DocumentIngest.IngestDocument` | src/bytebox/services/ingestion_document.py:48-245 | The whole ingest: limits and strategy are checked before anything is written, then plan, dry-run return, embedding and persistence. |
| `StoredChunks.ChunkIsStored` | src/bytebox/services/ingestion_document.py:280-360 | After a successful ingest every chunk that was read and not stored unchanged is in the store under its key as one visible record: title of the document, its description as summary, the stripped text, heading path, section index, chunk index and document index, and content hash, chunk id and vector computed from just that. |
| `StoredChunks.UnplannedChunksAreDropped` | src/bytebox/services/ingestion_document.py:173-187 | After success a stored chunk that is no longer planned is deleted, or hidden and marked as removed with everything else kept, as the policy says; one that was removed or deleted before is left alone. |
| `StoredChunks.PlannedIdsAgree` | src/bytebox/ingestion/hashing.py:37-52 | For a hash without collisions and line breaks, two planned chunks have one id if and only if heading key, index and content hash agree. |
| `StoredChunks.CountsAre` | src/bytebox/services/ingestion_document.py:173-204 | A run, dry or not, reports as added the planned keys that were not stored, as updated those stored otherwise, as removed the live stored keys that are not planned, and the rest as unchanged. |
| `StoredChunks.IngestKeepsOrigins` | src/bytebox/services/ingestion_document.py:356-417 | An ingest, finished or broken off, changes no creation time and no carried field; a record that it touches gets its time of update. |
| `StoredChunks.LimitsMayBeReached` | src/bytebox/services/ingestion_document.py:118-124 | A limit may be reached but not passed, and no limit allows everything. |
| `IngestTheorems.IngestMovesTowardsTarget` | src/bytebox/services/ingestion_document.py:126-245 | Each run, complete or broken off, moves keys only onto their target and leaves other scopes and paths alone; a successful run has moved all. |
| `RepeatedHeadings.MovedChunkIsMisplaced` | src/bytebox/services/ingestion_document.py:160-170 | An embedding text that ignores positions, and a stored chunk that only moved within its document: it matches, and keeps the old position. |
| `IngestTheorems.IngestSucceeds` | src/bytebox/services/ingestion_document.py:356-417 | When provider and settings are sound, an ingest succeeds if and only if the database commits enough transactions for its operations: their number is at most commits times batch size. |
| `IngestTheorems.IngestRecovers` | src/bytebox/services/ingestion_document.py:126-245 | After any number of interrupted attempts an ingest of the same text that succeeds leaves the store that one uninterrupted ingest leaves, up to fresh ids and timestamps. |
| `IngestTheorems.SecondIngestIsIdle` | src/bytebox/services/ingestion_document.py:126-245 | An immediate second ingest writes nothing and reports every chunk unchanged. |
| `IngestTheorems.DryRunForetells` | src/bytebox/services/ingestion_document.py:189-204 | A dry run writes nothing and reports the counts of the real run; added, updated and unchanged add up to the number of chunks. |
| `IngestTheorems.ReadingConservesTokens` | src/bytebox/services/ingestion_document.py:84-125 | From file text to chunks: the chunks without their repeated tokens hold the tokens of all lines that are not headings. |
| `FolderIngest.FolderIngestWorker.SynchronizeManifestWithFiles` | src/bytebox/services/ingestion_folder.py:305-335 | Synchronizing releases RUNNING entries, adds missing files as PENDING and sorts by path. |
| `Manifest.SynchronizeSpec` | src/bytebox/services/ingestion_folder.py:305-335 | What a path's entry is after synchronizing, for every stored manifest and file list: of several stored entries for a path the last one counts, and the result has unique paths in sorted order. |
| `FolderIngest.FolderIngestWorker.SelectIngestCandidates` | src/bytebox/services/ingestion_folder.py:337-357 | The selection is the files that are not SUCCEEDED (or only the FAILED ones), in file order, up to the limit. |
| `Manifest.SelectInOrder` | src/bytebox/services/ingestion_folder.py:337-357 | A run takes files in the order in which they were found, passes over none that it could take, and stops at the limit. |
| `Manifest.SelectableMeans` | src/bytebox/services/ingestion_folder.py:337-357 | Without the filter every file is taken that has not succeeded, with it every file that has failed. |
| `FolderIngest.FolderIngestWorker.SetManifestEntryStatus` | src/bytebox/services/ingestion_folder.py:365-395 | Setting a status changes the entry of that path only and adds to its attempts. |
| `Manifest.SetStatusSpec` | src/bytebox/services/ingestion_folder.py:365-395 | The entry of every path after a status change, and that paths stay unique and sorted. |
| `FolderIngest.FolderIngestWorker.IngestFolder` | src/bytebox/services/ingestion_folder.py:73-189 | A folder run over any list of files, as a trace of protocol steps with a state before and after each manifest write and each document ingest; its counters, and the manifest that it leaves. |
| `FolderIngest.TraceExtendsHistory` | src/bytebox/services/ingestion_folder.py:98-189 | A history of runs and crashes followed by the trace of another run is again a history, so the safety theorems cover every crash point. |
| `FolderProtocol.StepKeepsInvariant` | src/bytebox/services/ingestion_folder.py:98-189 | Every step, a crash included, keeps the manifest invariant. |
| `FolderProtocol.ManifestSafety` | src/bytebox/services/ingestion_folder.py:98-189 | In every state of every history of non-dry runs, whatever files they list, the stored manifest has unique paths in sorted order, at most one RUNNING entry, attempts equal to the number of RUNNING writes of that path, and SUCCEEDED only for documents whose ingest had completed. |
| `FolderProtocol.SucceededIsFinal` | src/bytebox/services/ingestion_folder.py:337-357 | A stored SUCCEEDED is never left in any later state of a history in which no run selected a file twice. |
| `FolderProtocol.RepeatedFileUndoesSuccess` | src/bytebox/services/ingestion_folder.py:98-142 | For every idle state, file list, filter and limit: a run whose ingests all succeed takes a SUCCEEDED off the disk in some state if and only if it selected a file twice. |
| `FolderProtocol.RepeatedFileExample` | src/bytebox/services/ingestion_folder.py:98-142 | A first run over a folder listing that names one file twice does so. |
| `FolderStore.SucceededIsStored` | src/bytebox/services/ingestion_folder.py:98-189 | From the folder to the store: in every history, with crashes between any two manifest writes and between any two transactions, a file that the stored manifest calls SUCCEEDED has exactly its planned chunks active in the store, with their ids and content, then and in every later state. |
| `FolderStore.IngestsKeep` | src/bytebox/services/ingestion_document.py:126-245 | An ingest of one document, finished or broken off, leaves every document that is on target on target. |
| `FolderIngest.OneRunProgress` | src/bytebox/services/ingestion_folder.py:98-189 | One run whose ingests succeed removes exactly the selected files from those still open. |
| `FolderIngest.RunResults` | src/bytebox/services/ingestion_folder.py:98-189 | What a run over distinct files leaves for every path: SUCCEEDED or FAILED as its ingest went, with one attempt more, if the run took it, and otherwise what synchronizing left. |
| `FolderIngest.TakenIs` | src/bytebox/services/ingestion_folder.py:140-175 | A run takes its whole selection, or stops behind the first failure when it is told to. |
| `FolderIngest.ManifestProgress` | src/bytebox/services/ingestion_folder.py:98-189 | After k runs with limit L exactly max(0, n - kL) of n open files remain, so ceil(n / L) runs finish. |
| `FolderIngest.RunsAreDisjoint` | src/bytebox/services/ingestion_folder.py:337-357 | Different runs select disjoint sets of files: each file is processed once. |
| `Discovery.CollectMarkdownFiles` | src/bytebox/ingest_security.py:49-84 | On any finite, possibly cyclic directory graph the worklist ends; it succeeds if and only if every reachable directory can be listed and has no offending entry; it then lists each reachable directory exactly once and returns, sorted, exactly the Markdown files reachable from the root. |
| `Discovery.VisitAllIs` | src/bytebox/ingest_security.py:61-82 | Going through the entries of one directory succeeds if and only if none offends; it queues each unseen directory once and collects all Markdown files. |
| `Discovery.WorkStep` | src/bytebox/ingest_security.py:54-82 | Expanding one directory keeps: every directory seen is reachable and either expanded or queued, never both. |
| `RankFusion.ReciprocalRankFuse` | src/bytebox/retrieval/fusion.py:8-50 | The two loops over a dictionary of shared candidates compute the specified list, on fresh objects. |
| `RankFusion.ReciprocalRanks` | src/bytebox/retrieval/fusion.py:8-50 | A memory is in the result if and only if a list matched it, once, with the sum of its reciprocal ranks in both lists as fusion score; the result is in falling order of that score, ties by id. |
| `RankFusion.CollectedSums` | src/bytebox/retrieval/fusion.py:16-37 | One candidate per matched memory before sorting, with the sum of its reciprocal ranks. |
| `Deduplication.DeduplicateCandidates` | src/bytebox/retrieval/fusion.py:53-72 | The loop with its owner index, on candidates that it updates in place: what it keeps, what the kept ones hold afterwards, and that the others are left as they were. |
| `Deduplication.MergeCandidate` | src/bytebox/retrieval/fusion.py:87-118 | Merging in place: scores by maximum, sources, ranks, duplicate ids and graph links combined. |
| `Deduplication.KeptKeys` | src/bytebox/retrieval/fusion.py:53-72 | The output is the subsequence of the input given by the owners. |
| `Deduplication.KeptShareNoKey` | src/bytebox/retrieval/fusion.py:53-72 | No two candidates of the output share a key. |
| `Deduplication.SecondPassIsIdle` | src/bytebox/retrieval/fusion.py:53-72 | A second pass changes nothing. |
| `Deduplication.MergedScoresAreMaxima` | src/bytebox/retrieval/fusion.py:87-92 | A kept candidate has a score if and only if a member of its group has it, and it is the largest of the group, where an owner that lacks it counts as 0. |
| `Deduplication.MergedScoreIsLargest` | src/bytebox/retrieval/fusion.py:87-92 | For scores that are not negative the merged score is the maximum over the merged group. |
| `Deduplication.MergedOrigins` | src/bytebox/retrieval/fusion.py:94-118 | A kept candidate has the best rank that a member of its group has in a source, the sources of all members, and the ids of all others; memory and final score are its owner's. |
| `Deduplication.MergedLinks` | src/bytebox/retrieval/fusion.py:94-118 | Its graph links are its own and those of the members that expansion reached. |
| `Ownership.OwnersShareNoKey` | src/bytebox/retrieval/fusion.py:57-70 | Owners carry pairwise disjoint keys, although keys may later move to other owners. |
| `Ownership.MembersAreLinked` | src/bytebox/retrieval/fusion.py:57-70 | Every candidate is linked to the owner it went to by a chain of shared keys inside its own group. |
| `Ownership.OneOwnerPerComponent` | src/bytebox/retrieval/fusion.py:59-70 | The output has one candidate per connected component if and only if no candidate shares keys with two earlier ones that nothing before it connects. |
| `Ownership.UnsharedAllStay` | src/bytebox/retrieval/fusion.py:57-70 | Candidates that share no key all stay, each its own owner. |
| `Ownership.BridgeKeepsBoth` | src/bytebox/retrieval/fusion.py:59-70 | Whenever two candidates share no key and a third shares a key with each, the first two both stay although the third connects them. |
| `Deduplication.BridgeExample` | src/bytebox/retrieval/fusion.py:57-84 | Three memories, the third with the chunk id of the first and the source hash of the second: deduplication keeps the first two. |
| `GraphExpansion.ExpandOneHopCandidates` | src/bytebox/retrieval/graph.py:12-61 | The nested loops over seeds and links, on shared candidates and a list that grows, compute the specified expansion. |
| `GraphExpansion.GraphScoresAreSums` | src/bytebox/retrieval/graph.py:18-61 | A memory's graph score grows by the sum of the seeds' base scores over their admissible links to it; seeds pass on the scores that they had at first, so nothing cascades; a memory becomes a candidate if and only if it receives something. |
| `Search.SeedsPassOnFusion` | src/bytebox/retrieval/graph.py:21-31 | In a search every seed passes on its fusion score, which is positive: the largest sum of reciprocal ranks among the candidates merged into it. |
| `GraphExpansion.SupportIgnoresOrder` | src/bytebox/retrieval/graph.py:21-55 | That sum does not depend on the order of the seeds. |
| `GraphExpansion.ExpansionKeepsMatching` | src/bytebox/retrieval/graph.py:31-35 | Every candidate that expansion adds satisfies the hard filter. |
| `GraphExpansion.ExpansionFailsOnMissingSeed` | src/bytebox/retrieval/graph.py:21-31 | Expansion fails if and only if a seed with a positive base score is not in the store. |
| `Filters.FlagsDecide` | src/bytebox/retrieval/filters.py:60-132 | Whatever statuses a query names, expired records stay out and forgotten, deleted or removed ones need their flag; sensitive ones must be asked for by name. |
| `Filters.DefaultStatusesSuffice` | src/bytebox/retrieval/filters.py:60-132 | For a query without statuses, exactly which records pass. |
| `Filters.PassesExactly` | src/bytebox/retrieval/filters.py:60-132 | For every query, exactly which records pass. |
| `Filters.FilterKeeps` | src/bytebox/retrieval/filters.py:106-112 | Filtering keeps exactly the records that pass, in their order. |
| `GraphExpansion.ExpansionStaysWithin` | src/bytebox/retrieval/graph.py:18-61 | The filter ignores the scope: candidates inside a scope are all inside it after expansion if and only if no admissible link of a seed with a positive score leads out of it. |
| `Search.CandidatesStayWithin` | src/bytebox/services/retrieval.py:78-89 | The same within a search whose matches are all in the scope. |
| `Search.ScopeExample` | src/bytebox/retrieval/graph.py:18-61 | A retrieved memory whose one link leads to an admissible memory outside the scope. |
| `Search.ResultsStayWithin` | src/bytebox/services/retrieval.py:54-141 | And then all results of the search are inside the scope. |
| `Normalization.NormalizeCandidateScores` | src/bytebox/scoring.py:50-91 | The nested loops over component names and shared candidates compute the normalized scores. |
| `Normalization.NormalizedInUnit` | src/bytebox/scoring.py:50-91 | Each candidate gets a normalized score in [0, 1] for exactly its component scores. |
| `Normalization.MinMaxInUnit` | src/bytebox/scoring.py:78-89 | Min-max normalization lands in [0, 1] by itself: its clamp never acts. |
| `Normalization.MinMaxSpreads` | src/bytebox/scoring.py:78-89 | The smallest value of a ranked component gets 0, the largest 1, and distances keep their proportions; when all are equal, positive ones get 1 and others 0. |
| `Normalization.NormalizedKeepsOrder` | src/bytebox/scoring.py:50-91 | Of two candidates the one with the larger raw score of a ranked component gets the larger normalized score; prenormalized components are only clamped. |
| `Normalization.ScalingKeepsNormalized` | src/bytebox/scoring.py:78-89 | Multiplying one min-max component of all candidates by c > 0 changes no normalized score. |
| `Normalization.EnrichCandidateScores` | src/bytebox/scoring.py:22-47 | Temporal, importance and confidence scores are set; the user rating is set or taken away. |
| `Normalization.EnrichedScores` | src/bytebox/scoring.py:22-47 | Importance, confidence and rating are set to the memory's own, held within [0, 1]; a missing rating leaves none; other components stay. |
| `Weighting.ScoreCandidates` | src/bytebox/scoring.py:94-165 | The scoring loops set every candidate's final score from the effective weights. |
| `Weighting.ScoreOne` | src/bytebox/scoring.py:106-147 | Accumulating numerator and denominator, with absent optional components left out of both. |
| `Weighting.RedistributionConserves` | src/bytebox/scoring.py:168-189 | Effective weights are not negative and sum to the positive weights given, whatever happens to the reranker's share. |
| `Weighting.EffectiveWeights` | src/bytebox/scoring.py:168-189 | With the reranker enabled every component keeps the positive part of its weight. With it disabled its weight goes to fusion, vector and full text in 25, 12 and 8 parts of 45, it gets 0 itself, and every other component keeps its positive part. |
| `Weighting.FinalScoreIsMean` | src/bytebox/scoring.py:147 | The final score is a weighted mean: it lies between any bounds of the components that count, so for normalized components its clamp never acts. |
| `Weighting.FinalScoreIsMonotone` | src/bytebox/scoring.py:106-147 | Raising present components never lowers the final score. |
| `Weighting.OneComponentMoves` | src/bytebox/scoring.py:106-147 | Changing one component changes the weighted mean by that component's share of the counted weight; so raising a component of positive weight strictly raises the mean. |
| `Weighting.MissingComponent` | src/bytebox/scoring.py:106-125 | A missing component counts as 0 and takes its weight along, except the user rating, which then does not count. |
| `Weighting.FinalScoreIsClampedMean` | src/bytebox/scoring.py:147-147 | The final score is that mean, held within [0, 1]. |
| `Weighting.ScalingWeightsKeepsScore` | src/bytebox/scoring.py:94-189 | Multiplying all weights by c > 0 changes no final score, redistribution included. |
| `Reranking.RerankCandidates` | src/bytebox/retrieval/rerank.py:16-55 | Scores are written to the bounded prefix, as many as were returned; a provider that raises leaves a mark on all candidates. |
| `Search.RerankedScores` | src/bytebox/retrieval/rerank.py:16-55 | The provider's scores go to the head of the ranking one by one, as far as both reach; a provider that raises changes no score. |
| `Search.SearchMemories` | src/bytebox/services/retrieval.py:36-141 | The whole search, stage by stage on shared candidates: filter, fusion, deduplication, expansion, deduplication, scoring, reranking, scoring, cut. |
| `Search.SearchResults` | src/bytebox/services/retrieval.py:54-141 | All results satisfy the hard filter, no two share a key, they are sorted by final score, fusion score and id, and number at most min(limit, final_top_k). |
| `Search.ResultsAreBest` | src/bytebox/services/retrieval.py:103-141 | The results are the first of the whole ranking, by larger final score, larger fusion score and smaller id in this order, and as many as asked for. |
| `Ordering.StrLeAtDifference` | src/bytebox/services/retrieval.py:126-132 | Ids are compared at the first place where they differ; an id comes before its continuations. |
| `Search.GraphScoresInSearch` | src/bytebox/services/retrieval.py:78-89 | Within a search the graph score on leaving expansion is the sum over the seeds' admissible links, and a memory that no list matched is there if and only if that sum is positive. |
| `Search.ScoringSettles` | src/bytebox/services/retrieval.py:96-109 | Scored and sorted candidates are settled: scoring them once more gives the same scores. |
| `Search.RerankFallback` | src/bytebox/services/retrieval.py:111-132 | A reranker that is off, missing, has nothing to rerank or raises leaves exactly the first-stage ranking. |
| `Ndcg.ComputeNdcg` | evals/metrics.py:69-85 | The metric, with and without an explicit ideal list. |
| `Ndcg.ComputeDcg` | evals/metrics.py:148-154 | The loop over ranks computes the discounted sum of gains. |
| `Ndcg.SortingGains` | evals/metrics.py:79-80 | Rearrangement: sorting in falling order never lowers a sum of rising gains under falling weights, for every cut-off. |
| `Ndcg.NdcgInUnit` | evals/metrics.py:69-85 | For all relevance lists and every k the score without an explicit ideal list lies in [0, 1], and is positive if and only if a member among the first k is relevant. |
| `Ndcg.SortedScoresOne` | evals/metrics.py:69-85 | A list in falling order with a positive head scores 1 for k >= 1. |
| `Ndcg.SecondRankScore` | evals/metrics.py:69-85 | A relevant result on rank two behind an irrelevant one scores log2 over log3, whatever its gain, and 0 at a cut-off of one. |
| `Ndcg.DominatingIdealBounds` | evals/metrics.py:81-85 | With an explicit ideal list that is at least as relevant wherever the results are relevant at all, place by place in falling order, the score stays in [0, 1]. |
| `Ndcg.IdealBoundsEveryOrder` | evals/metrics.py:69-85 | For any one logarithm: the score is at most 1 for every gain, every order of the results and every k, if and only if the ideal list has nothing relevant or dominates the results in this sense. |
| `Ndcg.IdealBoundsEveryLogarithm` | evals/metrics.py:69-85 | For any one order of the results: the score is at most 1 for every gain, every logarithm and every k, under exactly the same condition. |
| `Ndcg.ExplicitIdealExceedsOne` | evals/runner.py:439-455 | Two results of one expected type against an ideal list with one entry score above 1, whatever the gain. |
| `Backfill.ChunkTable.BackfillDocumentChunkPositions` | src/bytebox/arcade/migrations.py:189-296 | The migration: group, normalize, sort, collect updates, apply them by memory id. |
| `Backfill.ResolvedGroupIsNumbered` | src/bytebox/arcade/migrations.py:216-262 | In a group whose rows all resolve, the document indices are a bijection onto 0 .. n-1 in the order of section, chunk and memory id. |
| `Backfill.NumberedInOrder` | src/bytebox/arcade/migrations.py:239-249 | In a group that resolves, a row with the smaller section, or chunk, or memory id gets the smaller document index. |
| `Backfill.PositionsResolve` | src/bytebox/arcade/migrations.py:216-236 | A position comes from the first column that has a number, and from the metadata when none has. |
| `Backfill.PlacedIsGroup` | src/bytebox/arcade/migrations.py:239-249 | The sorted group has exactly the group's rows, each once, in that order. |
| `Backfill.UnresolvedGroupIsLeftAlone` | src/bytebox/arcade/migrations.py:224-236 | In any other group document indices are left alone, in the columns and in the metadata. |
| `Backfill.RenumberedAgrees` | src/bytebox/arcade/migrations.py:250-280 | A renumbered row and its metadata hold the resolved positions. |
| `Backfill.RenumberedKeeps` | src/bytebox/arcade/migrations.py:250-280 | Renumbering touches positions only, and none that does not resolve. |
| `Backfill.BackfillIsIdempotent` | src/bytebox/arcade/migrations.py:189-296 | Running the migration twice equals running it once. |
| `LifecycleService.MemoryLifecycleManager.PromoteMemory` | src/bytebox/lifecycle.py:31-52 | Promotion and its refusals. |
| `LifecycleService.MemoryRepository.WriteLinked` | src/bytebox/arcade/transactions.py:19-30 | Two records and an edge in one managed transaction: if the database fails at any of the three writes, all of them are rolled back. |
| `LifecycleService.MemoryLifecycleManager.SupersedeMemory` | src/bytebox/lifecycle.py:54-103 | Both records and the edge change together, or nothing does, whether the operation is refused or the database fails between its writes. |
| `LifecycleService.MemoryLifecycleManager.ContradictMemory` | src/bytebox/lifecycle.py:105-148 | Both records and the edge change together, or nothing does, whether the operation is refused or the database fails between its writes. |
| `LifecycleService.MemoryLifecycleManager.ExpireMemory` | src/bytebox/lifecycle.py:150-166 | Expiry keeps an earlier expiry time. |
| `LifecycleService.MemoryLifecycleManager.ForgetMemory` | src/bytebox/lifecycle.py:168-183 | Forgetting and its refusals. |
| `LifecycleService.MemoryLifecycleManager.AddMemoryFeedback` | src/bytebox/lifecycle.py:185-221 | The order in which positive, confirmed and explicit values act on confidence and importance. |
| `LifecycleService.PrivacyController.AdjustScope` | src/bytebox/privacy.py:51-145 | One pass over the records of a scope: forget by user, soft delete, disable or redact; it counts the records it changes. |
| `LifecycleService.PrivacyController.RedactScope` | src/bytebox/privacy.py:237-278 | Redaction needs a pattern; it rewrites exactly the records in which a pattern matches. |
| `LifecycleHistory.PerformStep` | src/bytebox/lifecycle.py:271-293 | Every operation keeps the set of records and does to each exactly what its effect on it says: untouched, touched, disabled, hidden or replacing, each with its new status, its visibility to retrieval and to model context, one audit event and one version more unless untouched. |
| `LifecycleHistory.VisibilityFollowsHistory` | src/bytebox/lifecycle.py:76-93 | Over every run, retrieval is allowed if and only if the last hide-or-replace event made the record a replacement, or there was none and it was allowed at first. |
| `LifecycleHistory.TerminalIsFinal` | src/bytebox/lifecycle.py:234-245 | A forgotten, deleted or removed record stays in these states (changing to deleted at most) and never becomes visible again. |
| `LifecycleHistory.StatusFollowsHistory` | src/bytebox/lifecycle.py:31-221 | Over every run a record's status is what the last operation that changed it made of it: promoting and replacing make it active, expiring expired, contradicting contradicted, being replaced superseded, forgetting forgotten, deleting deleted; feedback, disabling and redaction keep it. |
| `LifecycleHistory.RetiredExactly` | src/bytebox/lifecycle.py:168-183 | Over every run a record is forgotten, deleted or removed if and only if it was so at first or an operation that forgets or deletes has hit it. |
| `LifecycleLaws.CarriedOutExactly` | src/bytebox/lifecycle.py:223-245 | An operation is carried out if and only if the records that it names are stored, different, no document chunks, and not in a status that closes them. |
| `LifecycleLaws.RefusedWith` | src/bytebox/lifecycle.py:223-245 | A missing record is reported as missing, every other refusal as one of the lifecycle. |
| `LifecycleLaws.FieldsMove` | src/bytebox/lifecycle.py:31-221 | What each operation does to confidence, importance, rating, expiry and links, in numbers, and that only redaction rewrites what a memory says. |
| `LifecycleLaws.PositiveFeedbackHelps` | src/bytebox/lifecycle.py:197-200 | Positive feedback alone raises confidence up to 1, negative lowers it down to 0, and neither leaves it. |
| `LifecycleLaws.OperationsAreAudited` | src/bytebox/lifecycle.py:295-322 | Every lifecycle operation with an effect on a record appends one audit entry with the operation's name and the statuses before and after. |
| `LifecycleLaws.ScopeOperationsAreAudited` | src/bytebox/privacy.py:348-395 | So does every scope operation but redaction, in the list of privacy events. |
| `LifecycleLaws.ScopeAffectsExactly` | src/bytebox/privacy.py:51-145 | Which records forgetting, deleting and disabling by scope change. |
| `LifecycleHistory.EventsCountVersions` | src/bytebox/lifecycle.py:295-322 | Over every run, lifecycle and privacy events grow with the version. |
| `LifecycleHistory.FreshRecordsCount` | src/bytebox/privacy.py:348-395 | A record created at version 1 without audit events has version - 1 of them, redacted or not. |
| `LifecycleHistory.SupersessionMayBeCyclic` | src/bytebox/lifecycle.py:54-93 | Whenever one record may supersede another, the other may supersede it back, and each then names the other. |
| `SupersessionChains.SupersedeMakesCycle` | src/bytebox/lifecycle.py:54-93 | A permitted supersession of a by b makes acyclic chains cyclic if and only if a walk along the links from b meets a: a check that a caller can make before the call. The link of a is overwritten, that of b stays. |
| `SupersessionChains.RunStaysAcyclic` | src/bytebox/lifecycle.py:54-93 | Over every run of all operations, the chains are acyclic all the time if and only if every successful supersession of the run passed that check. |
| `LifecycleHistory.RunStaysBounded` | src/bytebox/lifecycle.py:185-221 | Confidence and importance stay in [0, 1] over every run. |
| `Metadata.RedactionKeepsEventCount` | src/bytebox/privacy.py:429-456 | Redaction may rewrite audit entries but keeps their number. |
| `Metadata.RedactString` | src/bytebox/privacy.py:430-436 | The loop over patterns applies them in order to one text and reports whether any replaced something. |
| `Metadata.UnredactedValue` | src/bytebox/privacy.py:429-456 | A value that redaction does not report as changed is unchanged. |
| `Metadata.WithEventAppends` | src/bytebox/lifecycle.py:295-322 | An audit event is appended to its own list and to no other. |
| `DrainProtocol.NextKeepsInvariant` | src/bytebox/bootstrap/container.py:58-154 | Every action of any thread keeps the protocol's invariant. |
| `DrainProtocol.CounterIsExact` | src/bytebox/bootstrap/container.py:127-154 | In every reachable interleaving the counter equals the number of workers inside, accepting implies READY, and `close` releases the resources only with nobody inside or after the deadline. |
| `DrainProtocol.NobodyEntersWhileDraining` | src/bytebox/bootstrap/container.py:127-154 | A worker enters only while operations are accepted in state READY, and so never between the first critical section of a close and the next successful start. |
| `DrainProtocol.DrainingLasts` | src/bytebox/bootstrap/container.py:70-104 | Draining ends only with a start that accepts operations. |
| `DrainProtocol.ReadyAdmits` | src/bytebox/bootstrap/container.py:127-139 | In a ready, idle container a worker that finds the lock free gets in. |
| `DrainProtocol.CallsEnd` | src/bytebox/bootstrap/container.py:70-154 | A call of the control thread ends started and accepting, failed, or closed, and refuses all operations in the latter two. |
| `DrainProtocol.CloseEnds` | src/bytebox/bootstrap/container.py:141-154 | A close that finds nobody inside, or its deadline passed, ends without waiting, with the container closed. |
| `DrainProtocol.WaitingLetsGo` | src/bytebox/bootstrap/container.py:133-151 | While a close waits, a worker inside can leave. |
| `DrainProtocol.FailedStartDoesNotWait` | src/bytebox/bootstrap/container.py:84-98 | For every reachable idle container on which a start does its work: some continuation of that start fails and releases the resources with somebody inside if and only if an operation is in flight at the call, since none can begin meanwhile and none is awaited. |
| `DrainProtocol.ReleaseAfterWaiting` | src/bytebox/bootstrap/container.py:84-154 | In every reachable interleaving, whenever `close` or a failing start releases the resources, nobody is inside or the latest close gave up at its deadline. |
| `DrainProtocol.GaveUpMeans` | src/bytebox/bootstrap/container.py:146-151 | That mark changes only when a close stops waiting: it is set past the deadline with somebody inside, and cleared with nobody inside. |
| `DrainProtocol.AbandonedOperationMeetsFailedStart` | src/bytebox/bootstrap/container.py:84-154 | A reachable failing start that releases the resources with one operation inside, after a close that gave up. |

## Left out

- REST, CLI, schemas, authentication, logging, metrics rendering, examples and reports: adapters without a hard invariant.
- Embedding, reranking, vector and full-text scoring, and their HTTP transport: foreign services, modelled as functions that may fail.
- ArcadeDB's query language and indexes: the store is a map with atomic transactions; a scope filter selects records by equality.
- YAML front matter and its size, Pydantic validation, SHA-256, UUIDs and the wall clock: parameters of the ingest.
- Path resolution, root containment and manifest file names (src/bytebox/ingest_security.py:17-46, 87-105): no state.
- Timings, progress callbacks, diagnostics, sizes and error texts of manifest entries and results: they decide nothing.
- Character classes are those of ASCII and the line breaks that `str.splitlines` knows; case folding and normalisation are not modelled.
- Edits of files between folder runs: the manifest skips SUCCEEDED files even when they change, so file contents are fixed in the folder model.
- Mutual exclusion of the process lock: reclaiming a stale lock takes four separate steps, so exclusion would need an assumption on them.
- Decay and BM25 values: transcendental, with shallow claims; the temporal score is a parameter.
- Hard deletion by scope, import, export and audit vertices of the privacy controller: no transition of a record's state.
- Audit entries in metadata that are not lists: the model reads them as empty, the code would take them apart or raise.
- `DrainProtocol.NextKeepsInvariant`: the container is a state machine over values, since its threads interleave; resources and errors of `start` are reduced to success or failure, and releasing them always succeeds.
- `Ndcg.IdealBoundsEveryLogarithm`: gain and logarithm are quantified over; for the one gain and logarithm of the source the bound is no more than the comparison of the two sums.
- `Deduplication.DeduplicateCandidates`: asks for distinct candidate objects, which both of its callers pass.
- `RankFusion.ReciprocalRankFuse`: the matches' own debug data is not carried.
- `Weighting.ScoreCandidates`: the scoring explanation in the candidates' debug data is not modelled.
- `Backfill.ChunkTable.BackfillDocumentChunkPositions`: asks for unique memory ids, which the store's index enforces; values whose conversion overflows are not modelled.
- `Discovery.CollectMarkdownFiles`: the directory graph does not change during the walk, except that an entry may vanish after it was resolved.
- `Store.Repository.ListBySourcePath`: the order of the listing is left open; what is proved about ingests holds for every order.
- `Normalization.EnrichCandidateScores`: the temporal score is a parameter and its debug fields are not modelled.
- `Reranking.RerankCandidates`: durations, model name and input size in the debug data are not modelled.
- `Search.SearchMemories`: embedding the query, failures of the store and their wrapping, and the projection of the results are not modelled.
- `LifecycleService.PrivacyController.AdjustScope`: the audit vertex that the source writes is not modelled.
- `LifecycleService.PrivacyController.RedactScope`: the list of redacted ids, counts of fields, patterns that do not compile and the audit vertex are not modelled.
- `FolderStore.SucceededIsStored`: assumes a sound provider, distinct heading keys in each document and texts that do not change; `RepeatedHeadings` shows what happens without the second.
- `IngestPlan.Convergence`: speaks of documents whose stored chunks have distinct hashes; of several stored under one hash the ingest sees the last, as `RepeatedHeadings.SecondIngestLosesSection` shows on one of them.
- `Search.ResultsStayWithin`: one direction only, since the cut or the second deduplication may drop what left the scope; the exact condition is stated for the candidates after expansion.
- Errors of `resolve` and `relative_to` during the walk over directories (RuntimeError, ValueError): path arithmetic is not modelled.
