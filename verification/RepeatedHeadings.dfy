/** Documents in which several chunks share a key, when an ingest of one can come to rest, and one that cannot;
    and chunks that move within their document. */
module RepeatedHeadings {
  import opened Common
  import opened Text
  import opened Markdown
  import opened Chunking
  import opened Hashing
  import opened Store
  import opened DocumentPlan
  import Packing
  import Blocks
  import BlankLineSplitting
  import BlankLineRoundTrip
  import IngestPlan
  import DocumentIngest
  import IngestTheorems
  import ShortAnswers

  // ---------- same key, same content ----------

  /** Two chunks at their places in the document. */
  lemma SameKeyAndContent(
    env: Environment, doc: Document, title: Option<string>, summary: Option<string>,
    a: MarkdownChunk, i: nat, b: MarkdownChunk, j: nat
  )
    requires Separates(env.hash, doc.path)
    ensures var x, y := BuildChunkMemory(env, doc, title, summary, a, i), BuildChunkMemory(env, doc, title, summary, b, j);
      && (CreateKey(x) == CreateKey(y) <==> ChunkKey(a) == ChunkKey(b))
      && (ChunkKey(a) == ChunkKey(b) && x.contentHash == y.contentHash ==> x.chunkId == y.chunkId)
  {
    hide HeadingPathKey, Strip, NormalizeNewlines;
    SourceHashInputInjective(doc.path, a.headingPath, a.chunkIndex, b.headingPath, b.chunkIndex);
  }

  /** Chunks that share heading key and index have the same content hash. */
  predicate SameKeySameContent(cands: seq<Create>, chunks: seq<MarkdownChunk>)
    requires |cands| == |chunks|
  {
    forall i, j :: 0 <= i < j < |chunks| && ChunkKey(chunks[i]) == ChunkKey(chunks[j]) ==>
      cands[i].contentHash == cands[j].contentHash
  }

  lemma AgreementOfChunks(
    env: Environment, doc: Document, title: Option<string>, summary: Option<string>, chunks: seq<MarkdownChunk>
  )
    requires Separates(env.hash, doc.path)
    ensures var cands := Candidates(env, doc, title, summary, chunks); Agree(cands) <==> SameKeySameContent(cands, chunks)
  {
    var cands := Candidates(env, doc, title, summary, chunks);
    hide Candidates, CreateKey, ChunkKey, BuildChunkMemory, Separates;
    forall i, j | 0 <= i < j < |chunks|
      ensures CreateKey(cands[i]) == CreateKey(cands[j]) <==> ChunkKey(chunks[i]) == ChunkKey(chunks[j])
      ensures ChunkKey(chunks[i]) == ChunkKey(chunks[j]) && cands[i].contentHash == cands[j].contentHash ==>
        cands[i].chunkId == cands[j].chunkId
    {
      CandidateAt(env, doc, title, summary, chunks, i);
      CandidateAt(env, doc, title, summary, chunks, j);
      SameKeyAndContent(env, doc, title, summary, chunks[i], i, chunks[j], j);
    }
  }

  lemma {:induction false} CandidatesAreActive(
    env: Environment, doc: Document, title: Option<string>, summary: Option<string>, chunks: seq<MarkdownChunk>
  )
    ensures forall c :: c in Candidates(env, doc, title, summary, chunks) ==>
      c.status == Active && c.allowRetrieval && c.allowLlmContext
  {
    if chunks != [] {
      hide Strip, NormalizeNewlines, SourceHash, ChunkId;
      CandidatesAreActive(env, doc, title, summary, chunks[..|chunks| - 1]);
    }
  }

  /** An ingest of a document can ever find nothing to write exactly when its chunks with the same heading key and
      index have the same content hash. */
  lemma DocumentSettles(
    env: Environment, doc: Document, title: Option<string>, summary: Option<string>, chunks: seq<MarkdownChunk>
  )
    requires Separates(env.hash, doc.path)
    ensures var cands := Candidates(env, doc, title, summary, chunks);
      (exists existing :: PendingWrites(existing, cands) == []) <==> SameKeySameContent(cands, chunks)
  {
    var cands := Candidates(env, doc, title, summary, chunks);
    AgreementOfChunks(env, doc, title, summary, chunks);
    CandidatesAreActive(env, doc, title, summary, chunks);
    hide Candidates, SameKeySameContent, Separates, PendingWrites, Agree;
    SettlesExactlyWhenAgreeing(cands);
  }

  // ---------- a document that never comes to rest ----------

  /** Two sections under the same heading, with different bodies. */
  const TWICE := "# A\nx\n# A\ny"
  const TWICE_LINES := ["# A\n", "x\n", "# A\n", "y"]

  lemma {:induction false} NoReturns(s: string)
    requires '\r' !in s
    ensures NormalizeNewlines(s) == s
  {
    if s != "" {
      NoReturns(s[1..]);
    }
  }

  lemma SplitKeptLine(line: string, rest: string)
    requires OneLine(line)
    ensures SplitLines(line + "\n" + rest, true) == [line + "\n"] + SplitLines(rest, true)
  {
    var s := line + "\n" + rest;
    assert s[|line|] == '\n';
    assert forall k :: 0 <= k < |line| ==> s[k] == line[k];
    BreakAtUnique(s, |line|);
    assert s[..|line| + 1] == line + "\n" && s[|line| + 1..] == rest;
  }

  lemma LastKeptLine(line: string)
    requires OneLine(line) && line != ""
    ensures SplitLines(line, true) == [line]
  {
    BreakAtUnique(line, |line|);
    assert line[..|line|] == line && line[|line|..] == "";
    assert SplitLines("", true) == [];
  }

  lemma LinesOfTwice()
    ensures DocumentLines(TWICE) == TWICE_LINES
  {
    hide SplitLines, NormalizeNewlines;
    NoReturns(TWICE);
    assert "# A" + "\n" + "x\n# A\ny" == TWICE && "x" + "\n" + "# A\ny" == "x\n# A\ny" && "# A" + "\n" + "y" == "# A\ny";
    assert "# A" + "\n" == "# A\n" && "x" + "\n" == "x\n";
    SplitKeptLine("# A", "x\n# A\ny");
    SplitKeptLine("x", "# A\ny");
    SplitKeptLine("# A", "y");
    LastKeptLine("y");
  }

  /** The second line of each pair is a section of its own, filed under the same heading. */
  const TWICE_SPANS := [Span(1, 2), Span(3, 4)]
  const TWICE_SECTIONS := [Section(["A"], "x", 0), Section(["A"], "y", 1)]

  lemma StripOfA()
    ensures Strip(" A\n") == "A"
  {
    assert " A\n"[1..] == "A\n" && "A\n"[..1] == "A";
    assert Strip("A") == "A";
    assert Strip("A\n") == "A";
  }

  lemma HeadingOfA()
    ensures ParseHeading("# A\n") == Some(Heading(1, "A")) && MatchFence("# A\n").None?
  {
    var line := "# A\n";
    assert line[1..] == " A\n";
    assert HashRun(" A\n") == 0;
    assert HashRun(line) == 1;
    StripOfA();
    HeadingIsNoFence(line);
  }

  lemma NoHeadingIn(line: string)
    requires line == "x\n" || line == "y"
    ensures ParseHeading(line).None? && MatchFence(line).None?
  {
    assert HashRun(line) == 0 && MarkerRun(line) == 0;
  }

  lemma ScanOfTwice()
    ensures forall i :: 0 <= i <= 4 ==> FenceBefore(TWICE_LINES, i).None?
    ensures IsHeadingLine(TWICE_LINES, 0) && !IsHeadingLine(TWICE_LINES, 1)
    ensures IsHeadingLine(TWICE_LINES, 2) && !IsHeadingLine(TWICE_LINES, 3)
  {
    HeadingOfA();
    NoHeadingIn("x\n");
    NoHeadingIn("y");
    hide MatchFence, ParseHeading;
    assert FenceBefore(TWICE_LINES, 0).None?;
    assert FenceBefore(TWICE_LINES, 1).None?;
    assert FenceBefore(TWICE_LINES, 2).None?;
    assert FenceBefore(TWICE_LINES, 3).None?;
    assert FenceBefore(TWICE_LINES, 4).None?;
  }

  lemma HeadingsOfTwice()
    ensures HeadingPath(HeadingsBefore(TWICE_LINES, 1)) == ["A"]
    ensures HeadingPath(HeadingsBefore(TWICE_LINES, 3)) == ["A"]
    ensures FirstTitle(HeadingsBefore(TWICE_LINES, 4)) == Some("A")
    ensures BodyLines(TWICE_LINES, 4) == ["x\n", "y"]
  {
    ScanOfTwice();
    HeadingOfA();
    hide IsHeadingLine, ParseHeading;
    var a := Heading(1, "A");
    var lines := TWICE_LINES;
    assert HeadingsBefore(lines, 0) == [] && BodyLines(lines, 0) == [];
    assert HeadingsBefore(lines, 1) == [a] && BodyLines(lines, 1) == [];
    assert HeadingsBefore(lines, 2) == [a] && BodyLines(lines, 2) == ["x\n"];
    assert HeadingsBefore(lines, 3) == [a, a] && BodyLines(lines, 3) == ["x\n"];
    assert HeadingsBefore(lines, 4) == [a, a] && BodyLines(lines, 4) == ["x\n", "y"];
    assert [a][..0] == [] && [a, a][..1] == [a];
    assert HeadingPath([a]) == ["A"];
  }

  lemma TextsOfTwice()
    ensures StripNewlines(Flatten(["x\n"])) == "x" && StripNewlines(Flatten(["y"])) == "y"
    ensures Tokens("x") == ["x"] && Tokens("y") == ["y"] && Tokens("x\n") == ["x"]
  {
    assert Flatten(["x\n"]) == "x\n" && Flatten(["y"]) == "y";
    assert "x\n"[0..] == "x\n" && "x\n"[..1] == "x" && TrailingNewlines("x") == 0;
    assert TrailingNewlines("x\n") == 1;
    StripNewlinesIdentity("y");
    OneWord("x");
    OneWord("y");
    assert Tokens("\n") == [];
    TokensAppend("x", "\n");
    assert "x" + "\n" == "x\n";
  }

  lemma OneWord(word: string)
    requires |word| == 1 && !IsSpace(word[0])
    ensures Tokens(word) == [word]
  {
    WordLengthUnique(word, 1);
    assert word[..1] == word && word[1..] == "";
    assert Tokens("") == [];
  }

  lemma SectionOfTwice(k: nat)
    requires k < 2
    ensures SectionOf(TWICE_LINES, TWICE_SPANS[k], TWICE_SECTIONS[k])
  {
    ScanOfTwice();
    HeadingsOfTwice();
    TextsOfTwice();
    hide IsHeadingLine, HeadingPath, HeadingsBefore, StripNewlines, Flatten, Tokens;
    var start := 1 + 2 * k;
    assert NoHeadings(TWICE_LINES, start, start);
    assert TWICE_LINES[1..2] == ["x\n"] && TWICE_LINES[3..4] == ["y"];
    assert !IsSpace("x"[0]) && !IsSpace("y"[0]);
  }

  lemma SectionsOfTwice()
    ensures SectionsOf(TWICE_LINES, TWICE_SPANS, TWICE_SECTIONS, 5)
  {
    SectionOfTwice(0);
    SectionOfTwice(1);
    hide SectionOf;
    var spans, sections := TWICE_SPANS, TWICE_SECTIONS;
    assert SectionsOf(TWICE_LINES, [], [], 1);
    assert spans[..1] == [spans[0]] && sections[..1] == [sections[0]];
    assert spans[..1][..0] == [] && sections[..1][..0] == [];
    assert SectionsOf(TWICE_LINES, spans[..1], sections[..1], 3);
  }

  /** What an ingest sees of that document: one chunk for each section. */
  function ReadingOfTwice(): DocumentIngest.Reading {
    DocumentIngest.Reading(
      TWICE_SECTIONS, TWICE_SPANS,
      [MarkdownChunk(["A"], 0, 0, "x", 1), MarkdownChunk(["A"], 0, 1, "y", 1)],
      [SectionChunks(["x"], ["x"], [Blocks.Paragraph(0, 1)], []), SectionChunks(["y"], ["y"], [Blocks.Paragraph(0, 1)], [])],
      Some("A"))
  }

  /** A word is one block, whether fences are preserved or not. */
  lemma OneBlock(cfg: Packing.Budget, word: string)
    requires word == "x" || word == "y"
    ensures BlocksOfSection(cfg, word, [word], [Blocks.Paragraph(0, 1)])
  {
    var lines, source := [word], Blocks.Paragraph(0, 1);
    LastLine(word);
    assert SplitLines(word, false) == lines;
    NoHeadingInWord(word);
    assert !IsSpace(word[0]);
    assert Blocks.AllProse(lines, 0, 0);
    assert Blocks.IsSource(lines, source);
    StripNewlinesIdentity(word);
    assert lines[0..1] == lines && Blocks.SourceText(lines, source) == word;
    assert Blocks.BlocksOf(lines, [], [], 0);
    assert [source][..0] == [] && [word][..0] == [];
    hide Blocks.IsSource, Blocks.SourceText;
    assert Blocks.BlocksOf(lines, [source], [word], |lines|);
    BlankLineRoundTrip.NotCut(word);
    assert [word][1..] == [];
    assert BlankLineSplitting.Kept([]) == [];
    assert BlankLineSplitting.Kept([word]) == [word];
  }

  lemma LastLine(line: string)
    requires OneLine(line) && line != ""
    ensures SplitLines(line, false) == [line]
  {
    BreakAtUnique(line, |line|);
    assert line[..|line|] == line && line[|line|..] == "";
    assert SplitLines("", false) == [];
  }

  lemma NoHeadingInWord(word: string)
    requires word == "x" || word == "y"
    ensures MatchFence(word).None?
  {
    assert MarkerRun(word) == 0;
  }

  lemma OneChunk(cfg: Packing.Budget, section: Section, word: string)
    requires cfg.maxTokens >= 1 && section.text == word && Tokens(word) == [word]
    requires word == "x" || word == "y"
    ensures ChunksOf(cfg, word, SectionChunks([word], [word], [Blocks.Paragraph(0, 1)], []))
    ensures NumberedChunks(section, [word], true) == [MarkdownChunk(section.headingPath, 0, section.sectionIndex, word, 1)]
  {
    OneBlock(cfg, word);
    hide BlocksOfSection;
    assert [word][1..] == [] && AllTokens([]) == [];
    assert AllTokens([word]) == [word];
    assert [word][..0] == [] && NumberedChunks(section, [], true) == [];
  }

  lemma NoSections(cfg: Packing.Budget)
    ensures ChunksOfDocument(cfg, [], [], [], true)
  {
  }

  /** The chunks of two sections with one chunk each. */
  lemma SecondSection(cfg: Packing.Budget, a: Section, b: Section, p: SectionChunks, q: SectionChunks, x: MarkdownChunk, y: MarkdownChunk)
    requires ChunksOf(cfg, a.text, p) && NumberedChunks(a, p.texts, true) == [x]
    requires ChunksOf(cfg, b.text, q) && NumberedChunks(b, q.texts, true) == [y]
    ensures ChunksOfDocument(cfg, [a, b], [p, q], [x, y], true)
  {
    hide *;
    NoSections(cfg);
    DocumentSnoc(cfg, [], [], [], true, a, p);
    assert [] + [a] == [a] && [] + [p] == [p] && [] + [x] == [x];
    DocumentSnoc(cfg, [a], [p], [x], true, b, q);
    assert [a] + [b] == [a, b] && [p] + [q] == [p, q] && [x] + [y] == [x, y];
  }

  lemma ChunksOfTwice(cfg: Packing.Budget)
    requires cfg.maxTokens >= 1
    ensures var r := ReadingOfTwice(); ChunksOfDocument(cfg, r.sections, r.plans, r.chunks, true)
  {
    TextsOfTwice();
    var r := ReadingOfTwice();
    hide ChunksOf, NumberedChunks, ChunksOfDocument, Tokens;
    OneChunk(cfg, r.sections[0], "x");
    OneChunk(cfg, r.sections[1], "y");
    SecondSection(cfg, r.sections[0], r.sections[1], r.plans[0], r.plans[1], r.chunks[0], r.chunks[1]);
  }

  lemma TokensOfTwice()
    ensures AllTokens(Texts(TWICE_SECTIONS)) == AllTokens(["x\n", "y"])
  {
    TextsOfTwice();
    hide Tokens;
    assert Texts(TWICE_SECTIONS) == ["x", "y"];
    assert ["x", "y"][1..] == ["y"] && ["x\n", "y"][1..] == ["y"];
  }

  lemma ReadsTwice(settings: DocumentIngest.Settings, source: DocumentIngest.Source)
    requires source.body == TWICE && source.name == None && settings.budget.maxTokens >= 1 && settings.includeHeadingPath
    ensures DocumentIngest.Reads(settings, source, ReadingOfTwice())
  {
    hide DocumentLines, SectionsOf, ChunksOfDocument, HeadingsBefore, BodyLines, AllTokens, Texts, FirstTitle, HeadingPath;
    LinesOfTwice();
    HeadingsOfTwice();
    SectionsOfTwice();
    TokensOfTwice();
    ChunksOfTwice(settings.budget);
  }

  /** The document's two chunks share their key; unless the hash or the embedding text takes "x" for "y", every
      ingest of it, whatever is stored, has something to write. */
  lemma TwiceNeverSettles(
    env: Environment, settings: DocumentIngest.Settings, source: DocumentIngest.Source, doc: Document, existing: map<string, Record>
  )
    requires source.body == TWICE && source.name == None && settings.budget.maxTokens >= 1 && settings.includeHeadingPath
    requires Separates(env.hash, doc.path)
    requires var cands := Candidates(env, doc, Some("A"), source.description, ReadingOfTwice().chunks);
      cands[0].contentHash != cands[1].contentHash
    ensures var reading := ReadingOfTwice();
      var cands := Candidates(env, doc, reading.title, source.description, reading.chunks);
      && DocumentIngest.Reads(settings, source, reading)
      && !GoodCandidates(doc, cands) && !Agree(cands)
      && PendingWrites(existing, cands) != []
  {
    var r := ReadingOfTwice();
    var cands := Candidates(env, doc, r.title, source.description, r.chunks);
    ReadsTwice(settings, source);
    AgreementOfChunks(env, doc, r.title, source.description, r.chunks);
    DocumentSettles(env, doc, r.title, source.description, r.chunks);
    HashesDistinct(env, doc, r.title, source.description, r.chunks);
    hide Candidates, DocumentIngest.Reads, Separates, PendingWrites, Agree, CreateKeys;
    ChunkKeyAt(r.chunks, 0);
    ChunkKeyAt(r.chunks, 1);
    assert ChunkKey(r.chunks[0]) == ChunkKey(r.chunks[1]);
    assert ChunkKeys(r.chunks)[0] == ChunkKeys(r.chunks)[1];
  }

  /** A hash that keeps its argument and an embedding text that is the chunk's text. */
  function PlainEnvironment(): Environment {
    Environment((s: string) => "#" + s, (c: Create) => c.payload.text,
                (texts: seq<string>) => Err(PersistenceError), (v: Vector) => Ok(NoEmbedding))
  }

  lemma PlainSeparates(path: string)
    ensures Separates(PlainEnvironment().hash, path)
  {
    hide SourceHashInput;
    var hash := PlainEnvironment().hash;
    forall p, i, q, j | hash(SourceHashInput(path, p, i)) == hash(SourceHashInput(path, q, j))
      ensures SourceHashInput(path, p, i) == SourceHashInput(path, q, j)
    {
      var a, b := SourceHashInput(path, p, i), SourceHashInput(path, q, j);
      assert ("#" + a)[1..] == a && ("#" + b)[1..] == b;
    }
  }

  lemma PlainContent(doc: Document, chunk: MarkdownChunk, k: nat)
    requires |chunk.text| == 1 && !IsSpace(chunk.text[0])
    ensures BuildChunkMemory(PlainEnvironment(), doc, Some("A"), None, chunk, k).contentHash == Some("#" + chunk.text)
  {
    hide SourceHash, ChunkId;
    assert Strip(chunk.text) == chunk.text;
    NoReturns(chunk.text);
  }

  /** Such a document, hash and embedding text. */
  lemma TwiceExample(doc: Document, existing: map<string, Record>)
    ensures var cands := Candidates(PlainEnvironment(), doc, Some("A"), None, ReadingOfTwice().chunks);
      !GoodCandidates(doc, cands) && !Agree(cands) && PendingWrites(existing, cands) != []
  {
    var env, chunks := PlainEnvironment(), ReadingOfTwice().chunks;
    var cands := Candidates(env, doc, Some("A"), None, chunks);
    PlainContent(doc, chunks[0], 0);
    PlainContent(doc, chunks[1], 1);
    PlainSeparates(doc.path);
    CandidateAt(env, doc, Some("A"), None, chunks, 0);
    CandidateAt(env, doc, Some("A"), None, chunks, 1);
    hide Candidates, PlainEnvironment, BuildChunkMemory, Separates, PendingWrites, Agree, CreateKeys;
    assert ("#" + "x")[1] == 'x' && ("#" + "y")[1] == 'y';
    var budget := Packing.Budget(1, 0, false);
    var limits := DocumentIngest.Limits(None, None, None, None);
    var settings := DocumentIngest.Settings("markdown_section", budget, true, IngestPlan.HardDelete, 1, 1, limits);
    TwiceNeverSettles(env, settings, DocumentIngest.Source(0, 0, None, None, TWICE), doc, existing);
  }

  // ---------- a chunk that moves ----------

  /** The embedding text does not depend on where the chunk stands in the document. */
  ghost predicate IgnoresPlace(env: Environment) {
    forall c: Create, k: nat :: env.embeddingText(c.(payload := c.payload.(documentChunkIndex := k))) == env.embeddingText(c)
  }

  /** Then a stored chunk that is unchanged but for its place in the document matches, and keeps the old place. */
  lemma MovedChunkIsMisplaced(
    env: Environment, doc: Document, title: Option<string>, summary: Option<string>, chunk: MarkdownChunk, i: nat, j: nat,
    id: nat, carried: string, version: nat, created: int, updated: int
  )
    requires IgnoresPlace(env) && i != j
    ensures var stored := Record(id, BuildChunkMemory(env, doc, title, summary, chunk, i), carried, version, created, updated);
      IngestPlan.IsMisplaced(Some(stored), BuildChunkMemory(env, doc, title, summary, chunk, j))
  {
    hide NormalizeNewlines, Strip, SourceHash, ChunkId;
    var key := SourceHash(env.hash, doc.path, chunk.headingPath, chunk.chunkIndex);
    var p := Payload(title, summary, Strip(chunk.text), chunk.headingPath, chunk.sectionIndex, chunk.chunkIndex, i, NoEmbedding);
    var base := Create(doc.scope, DocumentChunk, Active, Some(key), Some(doc.path), Some(key), None, None, true, true, false, p);
    assert env.embeddingText(base.(payload := base.payload.(documentChunkIndex := j))) == env.embeddingText(base);
  }

  // ---------- ingesting such a document again loses a section ----------

  /** Two planned chunks of one document under one key, with different contents. */
  predicate Clash(doc: Document, key: string, a: Create, b: Create) {
    IngestPlan.IsChunkOf(doc, key, a) && IngestPlan.IsChunkOf(doc, key, b) && a.contentHash != b.contentHash
  }

  lemma AllCommitted(
    env: Environment, embedding: string -> Embedding, settings: DocumentIngest.Settings, db: Database, found: seq<Record>,
    cands: seq<Create>, now: int, commits: nat
  )
    requires IngestTheorems.Sound(env, embedding, settings)
    requires var ops := IngestTheorems.RealOps(env, embedding, found, cands);
      IngestPlan.ApplyOps(settings.policy, now, db, ops).Ok? && |ops| <= commits * settings.transactionSize
    ensures var outcome := DocumentIngest.Outcome(env, settings, db, found, cands, false, now, commits);
      outcome.1.Ok? &&
      Ok(outcome.0) == IngestPlan.ApplyOps(settings.policy, now, db, IngestTheorems.RealOps(env, embedding, found, cands))
  {
    var ops, size := IngestTheorems.RealOps(env, embedding, found, cands), settings.transactionSize;
    hide *;
    assert size > 0 by {
      IngestTheorems.SizesAreSound(env, embedding, settings);
    }
    IngestTheorems.RealOutcome(env, embedding, settings, db, found, cands, now, commits);
    DocumentIngest.CommittedIsPrefix(settings.policy, now, db, ops, size, commits);
    IngestTheorems.CommittedCountIs(|ops|, size, commits);
    assert ops[..|ops|] == ops;
  }

  lemma FirstOps(env: Environment, embedding: string -> Embedding, a: Create, b: Create)
    ensures IngestTheorems.RealOps(env, embedding, [], [a, b])
      == [IngestPlan.InsertOp(Embedded(env, embedding, a)), IngestPlan.InsertOp(Embedded(env, embedding, b))]
  {
    hide Embedded, PendingWrites, CreateKeys, Inserts, Replacements;
    ShortAnswers.TwoPending(a, b);
    TwoInserts(Embedded(env, embedding, a), Embedded(env, embedding, b));
    var pending := [PendingWrite(None, a), PendingWrite(None, b)];
    assert EmbeddedWrites(env, embedding, pending)
      == [PendingWrite(None, Embedded(env, embedding, a)), PendingWrite(None, Embedded(env, embedding, b))];
  }

  lemma TwoInserts(a: Create, b: Create)
    ensures var writes := [PendingWrite(None, a), PendingWrite(None, b)]; Inserts(writes) == [a, b] && Replacements(writes) == []
  {
    var writes := [PendingWrite(None, a), PendingWrite(None, b)];
    assert writes[..1] == [writes[0]] && writes[..1][..0] == [];
    assert Inserts(writes[..1]) == [a] && Replacements(writes[..1]) == [];
  }

  lemma AfterFirst(policy: IngestPlan.RemovedChunkPolicy, now: int, a: Create, b: Create)
    ensures IngestPlan.ApplyOps(policy, now, Database(map[], 0), [IngestPlan.InsertOp(a), IngestPlan.InsertOp(b)])
      == Ok(Database(map[0 := Record(0, a, "", 1, now, now), 1 := Record(1, b, "", 1, now, now)], 2))
  {
    var empty, ops := Database(map[], 0), [IngestPlan.InsertOp(a), IngestPlan.InsertOp(b)];
    assert ops[..1] == [ops[0]] && ops[..1][..0] == [];
    assert IngestPlan.ApplyOps(policy, now, empty, []) == Ok(empty);
    assert IngestPlan.ApplyOps(policy, now, empty, ops[..1]) == Ok(Insert(empty, a, now));
  }

  /** The dictionary of stored chunks knows the second one only; the first candidate does not match it. */
  lemma SecondPending(doc: Document, key: string, a: Create, b: Create, x: Record, y: Record)
    requires Clash(doc, key, a, b)
    requires x.data.sourceHash == Some(key) && IngestPlan.Matches(y, b) && y.data.sourceHash == Some(key)
    ensures LastByHash([x, y]) == map[key := y] && KeyOrder([x, y]) == [key]
    ensures PendingWrites(map[key := y], [a, b]) == [PendingWrite(Some(y), a)]
    ensures key in CreateKeys([a, b])
  {
    var found, cands := [x, y], [a, b];
    assert found[..1] == [x] && [x][..0] == [] && cands[..1] == [a] && [a][..0] == [];
    assert LastByHash([x]) == map[key := x] && KeyOrder([x]) == [key];
    assert !IsUnchanged(map[key := y], a) && IsUnchanged(map[key := y], b);
    assert PendingWrites(map[key := y], [a]) == [PendingWrite(Some(y), a)];
    assert CreateKeys([a]) == [key];
  }

  lemma SecondOps(env: Environment, embedding: string -> Embedding, doc: Document, key: string, a: Create, b: Create, x: Record, y: Record)
    requires Clash(doc, key, a, b)
    requires x.data.sourceHash == Some(key) && IngestPlan.Matches(y, b) && y.data.sourceHash == Some(key)
    ensures IngestTheorems.RealOps(env, embedding, [x, y], [a, b]) == [IngestPlan.ReplaceOp(y, Embedded(env, embedding, a))]
  {
    SecondPending(doc, key, a, b, x, y);
    var c := Embedded(env, embedding, a);
    hide Embedded, PendingWrites, CreateKeys, LastByHash, KeyOrder, Clash, IngestPlan.Matches, Inserts, Replacements, Removals;
    OneReplacement(y, c);
    NoRemoval(key, y, CreateKeys([a, b]));
    assert EmbeddedWrites(env, embedding, [PendingWrite(Some(y), a)]) == [PendingWrite(Some(y), c)];
  }

  lemma OneReplacement(y: Record, c: Create)
    ensures Inserts([PendingWrite(Some(y), c)]) == [] && Replacements([PendingWrite(Some(y), c)]) == [(y, c)]
  {
  }

  lemma NoRemoval(key: string, y: Record, planned: seq<string>)
    requires key in planned
    ensures Removals(map[key := y], [key], planned) == []
  {
  }

  lemma AfterSecond(policy: IngestPlan.RemovedChunkPolicy, now: int, x: Record, y: Record, key: string, c: Create)
    requires x.memoryId == 0 && y.memoryId == 1 && c.stableKey == Some(key) && key != ""
    ensures IngestPlan.ApplyOps(policy, now, Database(map[0 := x, 1 := y], 2), [IngestPlan.ReplaceOp(y, c)])
      == Ok(Database(map[0 := x, 1 := ReplaceRecord(y, c, key, now)], 2))
  {
    var db, ops := Database(map[0 := x, 1 := y], 2), [IngestPlan.ReplaceOp(y, c)];
    var z := ReplaceRecord(y, c, key, now);
    assert ops[..0] == [] && IngestPlan.ApplyOps(policy, now, db, []) == Ok(db);
    assert map[0 := x, 1 := y][1 := z] == map[0 := x, 1 := z];
    assert z.memoryId == 1 && 1 in db.records;
  }

  /** The records of `a` and `b` after a first ingest at `now`. */
  function FirstRecord(env: Environment, embedding: string -> Embedding, c: Create, id: nat, now: int): Record {
    Record(id, Embedded(env, embedding, c), "", 1, now, now)
  }

  lemma FirstIngest(
    env: Environment, embedding: string -> Embedding, settings: DocumentIngest.Settings, a: Create, b: Create, now: int, commits: nat
  )
    requires IngestTheorems.Sound(env, embedding, settings) && 2 <= commits * settings.transactionSize
    ensures var first := DocumentIngest.Outcome(env, settings, Database(map[], 0), [], [a, b], false, now, commits);
      && first.1.Ok?
      && first.0.records == map[0 := FirstRecord(env, embedding, a, 0, now), 1 := FirstRecord(env, embedding, b, 1, now)]
      && first.0.nextId == 2
  {
    FirstOps(env, embedding, a, b);
    AfterFirst(settings.policy, now, Embedded(env, embedding, a), Embedded(env, embedding, b));
    hide IngestTheorems.Sound, DocumentIngest.Outcome, IngestPlan.ApplyOps, IngestTheorems.RealOps, Embedded;
    AllCommitted(env, embedding, settings, Database(map[], 0), [], [a, b], now, commits);
  }

  lemma FirstRecords(env: Environment, embedding: string -> Embedding, doc: Document, key: string, a: Create, b: Create, now: int)
    requires Clash(doc, key, a, b)
    ensures var r, s := FirstRecord(env, embedding, a, 0, now), FirstRecord(env, embedding, b, 1, now);
      && r.data.sourceHash == Some(key) && s.data.sourceHash == Some(key) && IngestPlan.Matches(s, b)
      && r.data.contentHash == a.contentHash && s.data.contentHash == b.contentHash
      && Embedded(env, embedding, a).stableKey == Some(key) && Embedded(env, embedding, a).contentHash == a.contentHash
      && Listed(Database(map[0 := r, 1 := s], 2), doc, [r, s])
  {
    var r, s := FirstRecord(env, embedding, a, 0, now), FirstRecord(env, embedding, b, 1, now);
    assert [r, s][0] == r && [r, s][1] == s;
  }

  lemma SecondIngest(
    env: Environment, embedding: string -> Embedding, settings: DocumentIngest.Settings, doc: Document, key: string,
    a: Create, b: Create, r: Record, s: Record, now: int, commits: nat
  )
    requires IngestTheorems.Sound(env, embedding, settings) && Clash(doc, key, a, b) && 1 <= commits * settings.transactionSize
    requires r.memoryId == 0 && s.memoryId == 1 && r.data.sourceHash == Some(key)
    requires IngestPlan.Matches(s, b) && s.data.sourceHash == Some(key)
    ensures var second := DocumentIngest.Outcome(env, settings, Database(map[0 := r, 1 := s], 2), [r, s], [a, b], false, now, commits);
      && second.1.Ok?
      && second.0.records == map[0 := r, 1 := ReplaceRecord(s, Embedded(env, embedding, a), key, now)]
  {
    SecondOps(env, embedding, doc, key, a, b, r, s);
    AfterSecond(settings.policy, now, r, s, key, Embedded(env, embedding, a));
    hide IngestTheorems.Sound, DocumentIngest.Outcome, IngestPlan.ApplyOps, IngestTheorems.RealOps, Embedded, ReplaceRecord;
    AllCommitted(env, embedding, settings, Database(map[0 := r, 1 := s], 2), [r, s], [a, b], now, commits);
  }

  /** Two sections under one heading path are both stored by the first ingest. The second ingest of the same text finds
      only one of them under the key, takes the other for changed, and overwrites: from then on both records hold the
      first section and nothing holds the second. */
  lemma SecondIngestLosesSection(
    env: Environment, embedding: string -> Embedding, settings: DocumentIngest.Settings, doc: Document, key: string,
    a: Create, b: Create, t1: int, t2: int, commits: nat
  )
    requires IngestTheorems.Sound(env, embedding, settings) && Clash(doc, key, a, b) && 2 <= commits * settings.transactionSize
    ensures var first := DocumentIngest.Outcome(env, settings, Database(map[], 0), [], [a, b], false, t1, commits);
      && first.1.Ok? && first.0.records.Keys == {0, 1}
      && first.0.records[0].data.contentHash == a.contentHash && first.0.records[1].data.contentHash == b.contentHash
      && var found := [first.0.records[0], first.0.records[1]];
      && Listed(first.0, doc, found)
      && var second := DocumentIngest.Outcome(env, settings, first.0, found, [a, b], false, t2, commits);
      second.1.Ok? && second.0.records.Keys == {0, 1} &&
      forall id :: id in second.0.records ==> second.0.records[id].data.contentHash == a.contentHash
  {
    var r, s := FirstRecord(env, embedding, a, 0, t1), FirstRecord(env, embedding, b, 1, t1);
    assert r.memoryId == 0 && s.memoryId == 1;
    hide IngestTheorems.Sound, DocumentIngest.Outcome, Clash, Listed, FirstRecord, Embedded, IngestPlan.Matches;
    FirstIngest(env, embedding, settings, a, b, t1, commits);
    FirstRecords(env, embedding, doc, key, a, b, t1);
    SecondIngest(env, embedding, settings, doc, key, a, b, r, s, t2, commits);
  }
}
