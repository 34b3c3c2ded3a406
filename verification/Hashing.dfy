/** Logical keys of document chunks. The hash itself is a parameter. */
module Hashing {
  import opened Common
  import opened Text
  import opened Markdown
  import opened Chunking
  import opened Packing

  function Digit(n: nat): char
    requires n < 10
  {
    "0123456789"[n]
  }

  /** `str(n)` for a natural number. */
  function Decimal(n: nat): string {
    if n < 10 then [Digit(n)] else Decimal(n / 10) + [Digit(n % 10)]
  }

  lemma {:induction false} DecimalHasNoNewline(n: nat)
    ensures Decimal(n) != "" && '\n' !in Decimal(n)
  {
    if n >= 10 {
      DecimalHasNoNewline(n / 10);
    }
  }

  lemma {:induction false} DecimalInjective(n: nat, m: nat)
    requires Decimal(n) == Decimal(m)
    ensures n == m
  {
    var a, b := Decimal(n), Decimal(m);
    assert a[|a| - 1] == b[|b| - 1];
    if n >= 10 && m >= 10 {
      assert a[..|a| - 1] == Decimal(n / 10) && b[..|b| - 1] == Decimal(m / 10);
      DecimalInjective(n / 10, m / 10);
    } else if n >= 10 {
      DecimalHasNoNewline(n / 10);
      assert false;
    } else if m >= 10 {
      DecimalHasNoNewline(m / 10);
      assert false;
    }
  }

  /** The number that a text of decimal digits stands for. */
  function ReadDecimal(s: string): int {
    if s == "" then 0 else 10 * ReadDecimal(s[..|s| - 1]) + (s[|s| - 1] as int - '0' as int)
  }

  lemma {:induction false} DecimalIsRead(n: nat)
    ensures ReadDecimal(Decimal(n)) == n
    ensures forall i :: 0 <= i < |Decimal(n)| ==> '0' <= Decimal(n)[i] <= '9'
  {
    DigitIsRead(n % 10);
    if n >= 10 {
      DecimalIsRead(n / 10);
      assert Decimal(n)[..|Decimal(n)| - 1] == Decimal(n / 10);
    } else {
      assert Decimal(n)[..0] == "";
    }
  }

  lemma DigitIsRead(n: nat)
    requires n < 10
    ensures Digit(n) as int - '0' as int == n && '0' <= Digit(n) <= '9'
  {
    assert n == 0 || n == 1 || n == 2 || n == 3 || n == 4 || n == 5 || n == 6 || n == 7 || n == 8 || n == 9;
  }

  /** `_heading_path_key` */
  function HeadingPathKey(path: seq<string>): string {
    Join(" > ", path)
  }

  /** The text that `compute_source_hash` hashes. */
  function SourceHashInput(sourcePath: string, headingPath: seq<string>, chunkIndex: nat): string {
    sourcePath + "\n" + HeadingPathKey(headingPath) + "\n" + Decimal(chunkIndex)
  }

  function SourceHash(hash: string -> string, sourcePath: string, headingPath: seq<string>, chunkIndex: nat): string {
    hash(SourceHashInput(sourcePath, headingPath, chunkIndex))
  }

  /** `compute_chunk_id` */
  function ChunkId(
    hash: string -> string, sourcePath: string, headingPath: seq<string>, chunkIndex: nat, contentHash: string
  ): string {
    hash(SourceHashInput(sourcePath, headingPath, chunkIndex) + "\n" + contentHash)
  }

  /** A string with a newline-free end is split uniquely at its last newline. */
  lemma LastNewlineSplits(a: string, x: string, b: string, y: string)
    requires a + "\n" + x == b + "\n" + y
    requires '\n' !in x && '\n' !in y
    ensures a == b && x == y
  {
    var s, t := a + "\n" + x, b + "\n" + y;
    assert s[|a|] == '\n' && t[|b|] == '\n';
    assert forall k :: |a| < k < |s| ==> s[k] == x[k - |a| - 1];
    assert forall k :: |b| < k < |t| ==> t[k] == y[k - |b| - 1];
    assert |a| == |b|;
    assert s[..|a|] == a && t[..|b|] == b;
    assert s[|a| + 1..] == x && t[|b| + 1..] == y;
  }

  /** Within one document the hashed text determines the heading key and the chunk index, and nothing more. */
  lemma SourceHashInputInjective(sourcePath: string, p: seq<string>, i: nat, q: seq<string>, j: nat)
    ensures SourceHashInput(sourcePath, p, i) == SourceHashInput(sourcePath, q, j) <==>
      HeadingPathKey(p) == HeadingPathKey(q) && i == j
  {
    hide HeadingPathKey;
    DecimalHasNoNewline(i);
    DecimalHasNoNewline(j);
    if SourceHashInput(sourcePath, p, i) == SourceHashInput(sourcePath, q, j) {
      var a, b := sourcePath + "\n" + HeadingPathKey(p), sourcePath + "\n" + HeadingPathKey(q);
      LastNewlineSplits(a, Decimal(i), b, Decimal(j));
      DecimalInjective(i, j);
      assert a[|sourcePath| + 1..] == HeadingPathKey(p) && b[|sourcePath| + 1..] == HeadingPathKey(q);
    }
  }

  /** What is hashed for the chunk with index 12 under the headings "B" and "C" of file "a". */
  lemma HashedTextExample(hash: string -> string)
    ensures SourceHash(hash, "a", ["B", "C"], 12) == hash("a\nB > C\n12")
    ensures ChunkId(hash, "a", ["B", "C"], 12, "d") == hash("a\nB > C\n12\nd")
  {
    assert ["B", "C"][1..] == ["C"];
    assert Join(" > ", ["C"]) == "C" && "B" + " > " + "C" == "B > C";
    assert HeadingPathKey(["B", "C"]) == "B > C";
    assert Decimal(1) == "1" && Decimal(12) == "12" by {
      assert "1" + "2" == "12";
    }
    hide HeadingPathKey, Decimal;
    assert "a" + "\n" + "B > C" == "a\nB > C";
    assert "a\nB > C" + "\n" + "12" == "a\nB > C\n12";
    assert "a\nB > C\n12" + "\n" + "d" == "a\nB > C\n12\nd";
  }

  // ---------- when are the planned keys distinct? ----------

  /** What identifies a chunk within its document. */
  function ChunkKey(c: MarkdownChunk): (string, nat) {
    (HeadingPathKey(c.headingPath), c.chunkIndex)
  }

  function ChunkKeys(chunks: seq<MarkdownChunk>): seq<(string, nat)> {
    if chunks == [] then [] else ChunkKeys(chunks[..|chunks| - 1]) + [ChunkKey(chunks[|chunks| - 1])]
  }

  lemma {:induction false} ChunkKeysAppend(a: seq<MarkdownChunk>, b: seq<MarkdownChunk>)
    ensures ChunkKeys(a + b) == ChunkKeys(a) + ChunkKeys(b)
  {
    if b == [] {
      assert a + b == a;
    } else {
      var n := |b| - 1;
      assert (a + b)[..|a + b| - 1] == a + b[..n];
      ChunkKeysAppend(a, b[..n]);
    }
  }

  /** The key under which a section files its chunks. */
  function SectionKey(s: Section, includeHeadingPath: bool): string {
    HeadingPathKey(if includeHeadingPath then s.headingPath else [])
  }

  function SectionKeys(sections: seq<Section>, includeHeadingPath: bool): seq<string> {
    seq(|sections|, k requires 0 <= k < |sections| => SectionKey(sections[k], includeHeadingPath))
  }

  /** One section's chunks carry its key and the indices 0, 1, 2, ... */
  lemma {:induction false} OwnKeys(section: Section, texts: seq<string>, includeHeadingPath: bool)
    ensures var keys := ChunkKeys(NumberedChunks(section, texts, includeHeadingPath));
      |keys| == |texts| && forall k :: 0 <= k < |keys| ==> keys[k] == (SectionKey(section, includeHeadingPath), k)
  {
    hide HeadingPathKey;
    if texts != [] {
      var n := |texts| - 1;
      OwnKeys(section, texts[..n], includeHeadingPath);
      var own := NumberedChunks(section, texts, includeHeadingPath);
      assert own[..|own| - 1] == NumberedChunks(section, texts[..n], includeHeadingPath);
    }
  }

  lemma SectionKeysLast(sections: seq<Section>, includeHeadingPath: bool)
    requires sections != []
    ensures var n := |sections| - 1;
      SectionKeys(sections, includeHeadingPath)
        == SectionKeys(sections[..n], includeHeadingPath) + [SectionKey(sections[n], includeHeadingPath)]
  {
    hide SectionKey;
  }

  lemma DocumentLast(
    cfg: Budget, sections: seq<Section>, plans: seq<SectionChunks>, chunks: seq<MarkdownChunk>, includeHeadingPath: bool
  )
    returns (before: seq<MarkdownChunk>, last: seq<MarkdownChunk>)
    requires ChunksOfDocument(cfg, sections, plans, chunks, includeHeadingPath) && sections != []
    ensures var n := |sections| - 1;
      && |plans| == |sections|
      && ChunksOfDocument(cfg, sections[..n], plans[..n], before, includeHeadingPath)
      && last == NumberedChunks(sections[n], plans[n].texts, includeHeadingPath)
      && plans[n].texts != []
      && chunks == before + last
  {
    hide ChunksOf, NumberedChunks;
    var n := |sections| - 1;
    last := NumberedChunks(sections[n], plans[n].texts, includeHeadingPath);
    before := chunks[..|chunks| - |last|];
    assert ChunksOf(cfg, sections[n].text, plans[n]) && chunks == before + last;
    assert ChunksOfDocument(cfg, sections[..n], plans[..n], before, includeHeadingPath);
    hide *;
    ChunkConservation(cfg, sections[n].text, plans[n]);
  }

  /** The keys of a document are those of its first sections followed by those of the last one. */
  lemma LastSectionKeys(
    cfg: Budget, sections: seq<Section>, plans: seq<SectionChunks>, chunks: seq<MarkdownChunk>, includeHeadingPath: bool
  )
    returns (before: seq<MarkdownChunk>, own: seq<(string, nat)>)
    requires ChunksOfDocument(cfg, sections, plans, chunks, includeHeadingPath) && sections != []
    ensures var n := |sections| - 1; var name := SectionKey(sections[n], includeHeadingPath);
      && |plans| == |sections|
      && ChunksOfDocument(cfg, sections[..n], plans[..n], before, includeHeadingPath)
      && ChunkKeys(chunks) == ChunkKeys(before) + own
      && own != [] && (forall k :: 0 <= k < |own| ==> own[k] == (name, k))
      && SectionKeys(sections, includeHeadingPath) == SectionKeys(sections[..n], includeHeadingPath) + [name]
  {
    hide *;
    var n := |sections| - 1;
    var last;
    before, last := DocumentLast(cfg, sections, plans, chunks, includeHeadingPath);
    own := ChunkKeys(last);
    ChunkKeysAppend(before, last);
    OwnKeys(sections[n], plans[n].texts, includeHeadingPath);
    SectionKeysLast(sections, includeHeadingPath);
  }

  /** Every section contributes its first key, and no other section key occurs. */
  lemma {:induction false} KeysComeFromSections(
    cfg: Budget, sections: seq<Section>, plans: seq<SectionChunks>, chunks: seq<MarkdownChunk>, includeHeadingPath: bool
  )
    requires ChunksOfDocument(cfg, sections, plans, chunks, includeHeadingPath)
    ensures forall key :: key in ChunkKeys(chunks) ==> key.0 in SectionKeys(sections, includeHeadingPath)
    ensures forall name :: name in SectionKeys(sections, includeHeadingPath) ==> (name, 0) in ChunkKeys(chunks)
  {
    if sections != [] {
      var before, own := LastSectionKeys(cfg, sections, plans, chunks, includeHeadingPath);
      hide *;
      var n := |sections| - 1;
      KeysComeFromSections(cfg, sections[..n], plans[..n], before, includeHeadingPath);
      assert own[0] == (SectionKey(sections[n], includeHeadingPath), 0);
    }
  }

  /** The planned keys of a document are pairwise distinct exactly when its sections' heading keys are. */
  lemma {:induction false} PlannedKeysDistinct(
    cfg: Budget, sections: seq<Section>, plans: seq<SectionChunks>, chunks: seq<MarkdownChunk>, includeHeadingPath: bool
  )
    requires ChunksOfDocument(cfg, sections, plans, chunks, includeHeadingPath)
    ensures NoDuplicates(ChunkKeys(chunks)) <==> NoDuplicates(SectionKeys(sections, includeHeadingPath))
  {
    if sections != [] {
      var before, own := LastSectionKeys(cfg, sections, plans, chunks, includeHeadingPath);
      hide *;
      var n := |sections| - 1;
      PlannedKeysDistinct(cfg, sections[..n], plans[..n], before, includeHeadingPath);
      KeysComeFromSections(cfg, sections[..n], plans[..n], before, includeHeadingPath);
      NewSection(ChunkKeys(before), own, SectionKeys(sections[..n], includeHeadingPath), SectionKey(sections[n], includeHeadingPath));
    }
  }

  lemma NewSection(keys: seq<(string, nat)>, own: seq<(string, nat)>, names: seq<string>, name: string)
    requires own != [] && forall k :: 0 <= k < |own| ==> own[k] == (name, k)
    requires forall key :: key in keys ==> key.0 in names
    requires forall other :: other in names ==> (other, 0) in keys
    ensures NoDuplicates(keys + own) <==> NoDuplicates(keys) && name !in names
    ensures NoDuplicates(names + [name]) <==> NoDuplicates(names) && name !in names
  {
    NoDuplicatesAppend(keys, own);
    NoDuplicatesAppend(names, [name]);
    assert own[0] == (name, 0);
    if name !in names {
      forall key | key in keys ensures key !in own {
      }
    }
  }
}
