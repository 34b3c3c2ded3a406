/** Blocks of a section: paragraphs and fenced code, as `_split_blocks` cuts them. */
module Blocks {
  import opened Common
  import opened Text
  import opened Markdown

  // ---------- fenced blocks ----------

  function IsFencedCodeBlock(block: string): bool {
    var lines := SplitLines(block, false);
    && |lines| >= 2
    && var opening := MatchFence(lines[0]);
       var closing := MatchFence(lines[|lines| - 1]);
       opening.Some? && closing.Some? && Closes(closing.value, opening.value)
  }

  /** Where a block comes from: the lines from `start` up to `end`. */
  datatype Source =
    | Paragraph(start: nat, end: nat)
    | ClosedFence(start: nat, end: nat)
    | UnclosedFence(start: nat, end: nat)

  /** A line that belongs to a paragraph. */
  predicate IsProse(lines: seq<string>, i: nat)
    requires i < |lines|
  {
    FenceBefore(lines, i).None? && MatchFence(lines[i]).None? && !Blank(lines[i])
  }

  predicate AllProse(lines: seq<string>, i: nat, j: nat)
    requires i <= j <= |lines|
  {
    i == j || (AllProse(lines, i, j - 1) && IsProse(lines, j - 1))
  }

  /** Line `i` opens a fence that is still open before every line from `i + 1` through `j`. */
  predicate OpensThrough(lines: seq<string>, i: nat, j: nat)
    requires i < j <= |lines|
  {
    if j == i + 1 then FenceBefore(lines, i).None? && MatchFence(lines[i]).Some?
    else OpensThrough(lines, i, j - 1) && FenceBefore(lines, j).Some?
  }

  /** Line `i` ends a paragraph, or the text ends before it. */
  predicate NoProseAt(lines: seq<string>, i: nat) {
    i < |lines| ==> !IsProse(lines, i)
  }

  /** A paragraph is as long as it can be; a fence reaches from the line that opens it through the line that closes it,
      or to the end. */
  ghost predicate IsSource(lines: seq<string>, s: Source) {
    && s.start < s.end <= |lines|
    && match s
       case Paragraph(i, j) => AllProse(lines, i, j) && NoProseAt(lines, j) && (i > 0 ==> NoProseAt(lines, i - 1))
       case ClosedFence(i, j) => j >= i + 2 && OpensThrough(lines, i, j - 1) && FenceBefore(lines, j).None?
       case UnclosedFence(i, j) => OpensThrough(lines, i, j) && j == |lines|
  }

  function SourceText(lines: seq<string>, s: Source): string
    requires s.start <= s.end <= |lines|
  {
    StripNewlines(Join("\n", lines[s.start..s.end]))
  }

  /** The blocks come from successive stretches of lines, all ending by line `limit`. */
  ghost predicate BlocksOf(lines: seq<string>, sources: seq<Source>, blocks: seq<string>, limit: nat) {
    && |sources| == |blocks|
    && (sources == [] ||
        var n := |sources| - 1;
        && IsSource(lines, sources[n])
        && blocks[n] == SourceText(lines, sources[n])
        && sources[n].end <= limit
        && BlocksOf(lines, sources[..n], blocks[..n], sources[n].start))
  }

  lemma {:induction false} BlockAt(lines: seq<string>, sources: seq<Source>, blocks: seq<string>, limit: nat, k: nat)
    requires BlocksOf(lines, sources, blocks, limit) && k < |blocks|
    ensures IsSource(lines, sources[k]) && blocks[k] == SourceText(lines, sources[k])
    ensures k + 1 < |blocks| ==> sources[k].end <= sources[k + 1].start
  {
    var n := |sources| - 1;
    if k < n {
      BlockAt(lines, sources[..n], blocks[..n], sources[n].start, k);
    }
  }

  lemma BlocksWiden(lines: seq<string>, sources: seq<Source>, blocks: seq<string>, limit: nat, wider: nat)
    requires BlocksOf(lines, sources, blocks, limit) && limit <= wider
    ensures BlocksOf(lines, sources, blocks, wider)
  {
  }

  lemma BlocksSnoc(lines: seq<string>, sources: seq<Source>, blocks: seq<string>, s: Source)
    requires BlocksOf(lines, sources, blocks, s.start) && IsSource(lines, s)
    ensures BlocksOf(lines, sources + [s], blocks + [SourceText(lines, s)], s.end)
  {
    hide SourceText;
    assert (sources + [s])[..|sources|] == sources;
    assert (blocks + [SourceText(lines, s)])[..|blocks|] == blocks;
  }

  // ---------- the two fence machines agree ----------

  ghost predicate SingleLines(lines: seq<string>) {
    forall i :: 0 <= i < |lines| ==> OneLine(lines[i])
  }

  lemma FenceLineIsNotEmpty(line: string)
    requires MatchFence(line).Some?
    ensures line != ""
  {
  }

  /** The first and last characters of joined lines. */
  lemma {:induction false} JoinEnds(lines: seq<string>)
    requires SingleLines(lines) && lines != [] && lines[0] != "" && lines[|lines| - 1] != ""
    ensures var s := Join("\n", lines); s != "" && s[0] == lines[0][0] && s[|s| - 1] != '\n'
  {
    if |lines| > 1 {
      JoinLastCharacter(lines[1..]);
    }
  }

  lemma {:induction false} JoinLastCharacter(lines: seq<string>)
    requires SingleLines(lines) && lines != [] && lines[|lines| - 1] != ""
    ensures var s := Join("\n", lines); s != "" && s[|s| - 1] != '\n'
  {
    if |lines| > 1 {
      JoinLastCharacter(lines[1..]);
    }
  }

  /** Lines that start and end with text come back from their block unchanged. */
  lemma BlockLines(lines: seq<string>)
    requires SingleLines(lines) && lines != [] && lines[0] != "" && lines[|lines| - 1] != ""
    ensures StripNewlines(Join("\n", lines)) == Join("\n", lines)
    ensures SplitLines(StripNewlines(Join("\n", lines)), false) == lines
  {
    JoinEnds(lines);
    StripNewlinesIdentity(Join("\n", lines));
    SplitJoinedLines(lines);
  }

  /** Number of leading lines up to the last non-empty one. */
  function UsedLines(lines: seq<string>): (n: nat)
    ensures n <= |lines|
    ensures n > 0 ==> lines[n - 1] != ""
  {
    if lines == [] then 0
    else if lines[|lines| - 1] != "" then |lines|
    else UsedLines(lines[..|lines| - 1])
  }

  lemma {:induction false} JoinSnocEmpty(lines: seq<string>)
    requires lines != []
    ensures Join("\n", lines + [""]) == Join("\n", lines) + "\n"
  {
    if |lines| > 1 {
      assert (lines + [""])[1..] == lines[1..] + [""];
      JoinSnocEmpty(lines[1..]);
    } else {
      assert (lines + [""])[1..] == [""];
    }
  }

  lemma StripTrailingNewline(s: string)
    requires s != "" && s[0] != '\n'
    ensures StripNewlines(s + "\n") == StripNewlines(s)
  {
    var t := s + "\n";
    assert t[0..] == t && s[0..] == s;
    assert t[..|t| - 1] == s;
    assert t[..|t| - TrailingNewlines(t)] == s[..|s| - TrailingNewlines(s)];
  }

  /** Empty lines at the end of an unclosed fence are stripped from its block. */
  lemma {:induction false} UnclosedLines(lines: seq<string>)
    requires SingleLines(lines) && lines != [] && lines[0] != ""
    ensures UsedLines(lines) > 0
    ensures SplitLines(StripNewlines(Join("\n", lines)), false) == lines[..UsedLines(lines)]
  {
    var last := |lines| - 1;
    if lines[last] != "" {
      BlockLines(lines);
      assert lines[..|lines|] == lines;
    } else {
      var shorter := lines[..last];
      assert lines == shorter + [""];
      JoinSnocEmpty(shorter);
      JoinFirstCharacter(shorter);
      StripTrailingNewline(Join("\n", shorter));
      UnclosedLines(shorter);
      assert lines[..UsedLines(lines)] == shorter[..UsedLines(shorter)];
    }
  }

  lemma JoinFirstCharacter(lines: seq<string>)
    requires SingleLines(lines) && lines != [] && lines[0] != ""
    ensures var s := Join("\n", lines); s != "" && s[0] != '\n'
  {
  }

  lemma {:induction false} ProseAt(lines: seq<string>, i: nat, j: nat, k: nat)
    requires i <= k < j <= |lines| && AllProse(lines, i, j)
    ensures IsProse(lines, k)
  {
    if k < j - 1 {
      ProseAt(lines, i, j - 1, k);
    }
  }

  lemma {:induction false} OpenAt(lines: seq<string>, i: nat, j: nat, k: nat)
    requires i < k <= j <= |lines| && OpensThrough(lines, i, j)
    ensures FenceBefore(lines, k) == MatchFence(lines[i]) && MatchFence(lines[i]).Some?
    ensures FenceBefore(lines, i).None?
    decreases j, k
  {
    if k < j {
      OpenAt(lines, i, j - 1, k);
    } else if j > i + 1 {
      OpenAt(lines, i, j - 1, j - 1);
    }
  }

  /** A fence that is open before a line is closed by it exactly when the line is a closing fence. */
  lemma ClosedByLine(lines: seq<string>, k: nat)
    requires k < |lines| && FenceBefore(lines, k).Some?
    ensures FenceBefore(lines, k + 1).None? <==>
      MatchFence(lines[k]).Some? && Closes(MatchFence(lines[k]).value, FenceBefore(lines, k).value)
  {
    hide MatchFence, Closes;
    FenceBeforeNext(lines, k);
  }

  lemma FenceBeforeNext(lines: seq<string>, k: nat)
    requires k < |lines|
    ensures FenceBefore(lines, k + 1) == FenceStep(FenceBefore(lines, k), lines[k])
  {
    hide MatchFence, Closes, FenceStep;
    assert lines[..k + 1][..k] == lines[..k];
  }

  /** The lines of a block decide whether it is fenced. */
  predicate FencedLines(own: seq<string>) {
    && |own| >= 2
    && MatchFence(own[0]).Some? && MatchFence(own[|own| - 1]).Some?
    && Closes(MatchFence(own[|own| - 1]).value, MatchFence(own[0]).value)
  }

  lemma FencedByLines(block: string, own: seq<string>)
    requires SplitLines(block, false) == own
    ensures IsFencedCodeBlock(block) <==> FencedLines(own)
  {
    hide SplitLines, MatchFence, Closes;
  }

  lemma SliceIsSingle(lines: seq<string>, i: nat, j: nat)
    requires SingleLines(lines) && i <= j <= |lines|
    ensures SingleLines(lines[i..j])
  {
    hide OneLine;
  }

  /** A stretch of lines with text at both ends is fenced if its outer lines are. */
  lemma StretchFenced(lines: seq<string>, s: Source)
    requires SingleLines(lines) && s.start < s.end <= |lines|
    requires lines[s.start] != "" && lines[s.end - 1] != ""
    ensures IsFencedCodeBlock(SourceText(lines, s)) <==> FencedLines(lines[s.start..s.end])
  {
    var own := lines[s.start..s.end];
    assert own[0] == lines[s.start] && own[|own| - 1] == lines[s.end - 1];
    assert SourceText(lines, s) == StripNewlines(Join("\n", own));
    hide *;
    SliceIsSingle(lines, s.start, s.end);
    BlockLines(own);
    FencedByLines(SourceText(lines, s), own);
  }

  lemma ProseIsNotFenced(lines: seq<string>, i: nat, j: nat)
    requires SingleLines(lines) && i < j <= |lines| && AllProse(lines, i, j)
    ensures !IsFencedCodeBlock(SourceText(lines, Paragraph(i, j)))
  {
    hide MatchFence, SingleLines, IsFencedCodeBlock, SourceText, FenceBefore, AllProse, Closes;
    ProseAt(lines, i, j, i);
    ProseAt(lines, i, j, j - 1);
    assert lines[i] != "" && lines[j - 1] != "" && lines[i..j][0] == lines[i];
    StretchFenced(lines, Paragraph(i, j));
  }

  lemma ClosedIsFenced(lines: seq<string>, i: nat, j: nat)
    requires SingleLines(lines) && IsSource(lines, ClosedFence(i, j))
    ensures IsFencedCodeBlock(SourceText(lines, ClosedFence(i, j)))
  {
    hide MatchFence, SingleLines, IsFencedCodeBlock, SourceText, FenceBefore, OpensThrough, Closes;
    OpenAt(lines, i, j - 1, j - 1);
    ClosedByLine(lines, j - 1);
    FenceLineIsNotEmpty(lines[i]);
    FenceLineIsNotEmpty(lines[j - 1]);
    StretchFenced(lines, ClosedFence(i, j));
    assert lines[i..j][0] == lines[i] && lines[i..j][|lines[i..j]| - 1] == lines[j - 1];
  }

  /** The lines that survive of an unclosed fence. */
  lemma UnclosedFenced(lines: seq<string>, i: nat, j: nat)
    requires SingleLines(lines) && i < j <= |lines| && lines[i] != ""
    ensures 0 < UsedLines(lines[i..j])
    ensures IsFencedCodeBlock(SourceText(lines, UnclosedFence(i, j))) <==> FencedLines(lines[i..j][..UsedLines(lines[i..j])])
  {
    var own := lines[i..j];
    assert own[0] == lines[i];
    assert SourceText(lines, UnclosedFence(i, j)) == StripNewlines(Join("\n", own));
    hide *;
    SliceIsSingle(lines, i, j);
    UnclosedLines(own);
    FencedByLines(SourceText(lines, UnclosedFence(i, j)), own[..UsedLines(own)]);
  }

  lemma UnclosedIsNotFenced(lines: seq<string>, i: nat, j: nat)
    requires SingleLines(lines) && i < j <= |lines| && OpensThrough(lines, i, j)
    ensures !IsFencedCodeBlock(SourceText(lines, UnclosedFence(i, j)))
  {
    hide MatchFence, SingleLines, IsFencedCodeBlock, SourceText, FenceBefore, OpensThrough, Closes, UsedLines;
    OpenAt(lines, i, j, i + 1);
    FenceLineIsNotEmpty(lines[i]);
    UnclosedFenced(lines, i, j);
    var used := UsedLines(lines[i..j]);
    if used >= 2 {
      var last := i + used - 1;
      OpenAt(lines, i, j, last);
      OpenAt(lines, i, j, last + 1);
      ClosedByLine(lines, last);
      assert lines[i..j][..used][0] == lines[i] && lines[i..j][..used][used - 1] == lines[last];
    }
  }

  /** A block passes `_is_fenced_code_block` exactly when it was cut at a closed fence. */
  lemma FencedExactlyWhenClosed(lines: seq<string>, s: Source)
    requires SingleLines(lines) && IsSource(lines, s)
    ensures IsFencedCodeBlock(SourceText(lines, s)) <==> s.ClosedFence?
  {
    match s
    case Paragraph(i, j) => ProseIsNotFenced(lines, i, j);
    case ClosedFence(i, j) => ClosedIsFenced(lines, i, j);
    case UnclosedFence(i, j) => UnclosedIsNotFenced(lines, i, j);
  }

  lemma EachLineIsSingle(text: string)
    ensures SingleLines(SplitLines(text, false))
  {
    LinesAreSingle(text);
    forall i | 0 <= i < |SplitLines(text, false)| ensures OneLine(SplitLines(text, false)[i]) {
      assert SplitLines(text, false)[i] in SplitLines(text, false);
    }
  }

  /** A block cut from an unclosed fence needs a text that leaves a fence open. */
  lemma UnclosedBlockLeavesFenceOpen(text: string, s: Source)
    requires IsSource(SplitLines(text, false), s) && s.UnclosedFence?
    ensures OpenFence(None, text).Some?
  {
    var lines := SplitLines(text, false);
    FenceBeforeFold(lines, 0, |lines|);
    assert lines[0..|lines|] == lines;
    OpenAt(lines, s.start, s.end, s.end);
  }

  // ---------- the loop's invariants ----------

  /** The state of `_split_blocks` before line `i`; `first` is where the collected lines start. */
  datatype Cut = Cut(i: nat, first: nat, fence: Option<Marker>)

  ghost predicate Cutting(lines: seq<string>, c: Cut) {
    && c.first <= c.i <= |lines|
    && c.fence == FenceBefore(lines, c.i)
    && (c.fence.None? ==> AllProse(lines, c.first, c.i) && (c.first > 0 ==> NoProseAt(lines, c.first - 1)))
    && (c.fence.Some? ==> c.first < c.i && OpensThrough(lines, c.first, c.i))
  }

  lemma CutStart(lines: seq<string>)
    ensures Cutting(lines, Cut(0, 0, None)) && BlocksOf(lines, [], [], 0)
  {
  }

  lemma CutProse(lines: seq<string>, c: Cut)
    requires Cutting(lines, c) && c.i < |lines| && c.fence.None?
    requires MatchFence(lines[c.i]).None? && !Blank(lines[c.i])
    ensures Cutting(lines, c.(i := c.i + 1))
  {
  }

  lemma CutBlank(lines: seq<string>, c: Cut)
    requires Cutting(lines, c) && c.i < |lines| && c.fence.None?
    requires MatchFence(lines[c.i]).None? && Blank(lines[c.i])
    ensures Cutting(lines, Cut(c.i + 1, c.i + 1, None))
  {
  }

  lemma CutOpen(lines: seq<string>, c: Cut)
    requires Cutting(lines, c) && c.i < |lines| && c.fence.None?
    requires MatchFence(lines[c.i]).Some?
    ensures Cutting(lines, Cut(c.i + 1, c.i, MatchFence(lines[c.i])))
  {
  }

  lemma CutInside(lines: seq<string>, c: Cut)
    requires Cutting(lines, c) && c.i < |lines| && c.fence.Some?
    ensures FenceStep(c.fence, lines[c.i]).Some? ==>
      Cutting(lines, c.(i := c.i + 1, fence := FenceStep(c.fence, lines[c.i])))
    ensures FenceStep(c.fence, lines[c.i]).None? ==>
      && Cutting(lines, Cut(c.i + 1, c.i + 1, None))
      && IsSource(lines, ClosedFence(c.first, c.i + 1))
  {
    var next := FenceStep(c.fence, lines[c.i]);
    assert FenceBefore(lines, c.i + 1) == next;
  }

  lemma CutParagraph(lines: seq<string>, c: Cut)
    requires Cutting(lines, c) && c.fence.None? && c.first < c.i
    requires c.i < |lines| ==> MatchFence(lines[c.i]).Some? || Blank(lines[c.i])
    ensures IsSource(lines, Paragraph(c.first, c.i))
  {
  }

  lemma CutEnd(lines: seq<string>, c: Cut)
    requires Cutting(lines, c) && c.i == |lines| && c.fence.Some?
    ensures IsSource(lines, UnclosedFence(c.first, c.i))
  {
  }

  /** The tokens of the lines so far are those of the blocks and of the lines being collected. */
  ghost predicate BlocksKeep(lines: seq<string>, i: nat, blocks: seq<string>, collected: seq<string>)
    requires i <= |lines|
  {
    AllTokens(blocks) + AllTokens(collected) == AllTokens(lines[..i])
  }

  lemma KeepStart(lines: seq<string>)
    ensures BlocksKeep(lines, 0, [], [])
  {
    assert lines[..0] == [];
  }

  lemma KeepLine(lines: seq<string>, i: nat, blocks: seq<string>, collected: seq<string>)
    requires i < |lines| && BlocksKeep(lines, i, blocks, collected)
    ensures BlocksKeep(lines, i + 1, blocks, collected + [lines[i]])
  {
    assert lines[..i + 1] == lines[..i] + [lines[i]];
    AllTokensSnoc(lines[..i], lines[i]);
    AllTokensSnoc(collected, lines[i]);
  }

  lemma KeepBlank(lines: seq<string>, i: nat, blocks: seq<string>)
    requires i < |lines| && BlocksKeep(lines, i, blocks, []) && Blank(lines[i])
    ensures BlocksKeep(lines, i + 1, blocks, [])
  {
    assert lines[..i + 1] == lines[..i] + [lines[i]];
    AllTokensSnoc(lines[..i], lines[i]);
    TokensOfBlank(lines[i]);
  }

  lemma BlockTokens(collected: seq<string>)
    ensures Tokens(StripNewlines(Join("\n", collected))) == AllTokens(collected)
    ensures Blank(StripNewlines(Join("\n", collected))) <==> AllTokens(collected) == []
  {
    assert Blank("\n");
    TokensOfJoin("\n", collected);
    TokensStripNewlines(Join("\n", collected));
    TokensOfBlank(StripNewlines(Join("\n", collected)));
  }

  lemma KeepFlush(lines: seq<string>, i: nat, blocks: seq<string>, collected: seq<string>)
    requires i <= |lines| && BlocksKeep(lines, i, blocks, collected)
    ensures BlocksKeep(lines, i, blocks + [StripNewlines(Join("\n", collected))], [])
  {
    BlockTokens(collected);
    AllTokensSnoc(blocks, StripNewlines(Join("\n", collected)));
    assert AllTokens([]) == [];
  }

  lemma KeepEnd(text: string, blocks: seq<string>)
    requires BlocksKeep(SplitLines(text, false), |SplitLines(text, false)|, blocks, [])
    ensures AllTokens(blocks) == Tokens(text)
  {
    var lines := SplitLines(text, false);
    assert lines[..|lines|] == lines;
    assert AllTokens([]) == [];
    LinesKeepTokens(text, false);
  }

  lemma FirstLineIsNotBlank(lines: seq<string>, s: Source)
    requires IsSource(lines, s)
    ensures !Blank(lines[s.start])
  {
    hide Blank, IsProse, FenceBefore;
    match s
    case Paragraph(i, j) =>
      ProseAt(lines, i, j, i);
      ProseIsNotBlank(lines, i);
    case ClosedFence(i, j) =>
      OpenAt(lines, i, j - 1, i + 1);
      FenceIsNotBlank(lines[i]);
    case UnclosedFence(i, j) =>
      OpenAt(lines, i, j, i + 1);
      FenceIsNotBlank(lines[i]);
  }

  lemma ProseIsNotBlank(lines: seq<string>, i: nat)
    requires i < |lines| && IsProse(lines, i)
    ensures !Blank(lines[i])
  {
  }

  /** A block holds a token: its first line is prose or a fence marker. */
  lemma SourceIsNotBlank(lines: seq<string>, s: Source)
    requires IsSource(lines, s)
    ensures !Blank(SourceText(lines, s))
  {
    FirstLineIsNotBlank(lines, s);
    hide IsSource, Blank;
    var own := lines[s.start..s.end];
    BlockTokens(own);
    assert own[0] == lines[s.start] && AllTokens(own) == Tokens(own[0]) + AllTokens(own[1..]);
    TokensOfBlank(own[0]);
  }

  lemma {:induction false} FenceIsNotBlank(line: string)
    ensures MatchFence(line).Some? ==> !Blank(line)
  {
    if line != "" && IsSpace(line[0]) {
      FenceIsNotBlank(line[1..]);
    }
  }
}

/** `re.split(r"\n\s*\n", text)`, the cut that ignores fences. */
module BlankLineSplitting {
  import opened Common
  import opened Text

  /** End of the longest match of `\n\s*\n` whose first newline is just before `from`;
      `best` is the end of the longest match seen so far. */
  function MatchEnd(s: string, from: nat, best: Option<nat>): (end: Option<nat>)
    requires from <= |s|
    decreases |s| - from
  {
    if from == |s| || !IsSpace(s[from]) then best
    else MatchEnd(s, from + 1, if s[from] == '\n' then Some(from + 1) else best)
  }

  lemma {:induction false} MatchEndIsNewline(s: string, start: nat, from: nat, best: Option<nat>)
    requires start <= from <= |s| && Blank(s[start..from])
    requires best.Some? ==> start < best.value <= from && s[best.value - 1] == '\n'
    ensures var end := MatchEnd(s, from, best);
      end.Some? ==> start < end.value <= |s| && s[end.value - 1] == '\n' && Blank(s[start..end.value])
    decreases |s| - from
  {
    if from == |s| || !IsSpace(s[from]) {
      if best.Some? {
        assert forall k :: 0 <= k < best.value - start ==> s[start..best.value][k] == s[start..from][k];
      }
    } else {
      assert s[start..from + 1] == s[start..from] + [s[from]];
      MatchEndIsNewline(s, start, from + 1, if s[from] == '\n' then Some(from + 1) else best);
    }
  }

  /** The leftmost match at or after `from`. */
  function NextMatch(s: string, from: nat): (m: Option<(nat, nat)>)
    requires from <= |s|
    decreases |s| - from
  {
    if from == |s| then None
    else if s[from] == '\n' && MatchEnd(s, from + 1, None).Some? then Some((from, MatchEnd(s, from + 1, None).value))
    else NextMatch(s, from + 1)
  }

  lemma {:induction false} NextMatchIsBlank(s: string, from: nat)
    requires from <= |s|
    ensures var m := NextMatch(s, from);
      m.Some? ==> from <= m.value.0 < m.value.1 <= |s| && Blank(s[m.value.0..m.value.1])
    decreases |s| - from
  {
    if from < |s| {
      MatchEndIsNewline(s, from + 1, from + 1, None);
      NextMatchIsBlank(s, from + 1);
      var end := MatchEnd(s, from + 1, None);
      if s[from] == '\n' && end.Some? {
        assert s[from..end.value] == [s[from]] + s[from + 1..end.value];
      }
    }
  }

  /** The texts between the matches. */
  function SplitParts(s: string): seq<string>
    decreases |s|
  {
    NextMatchIsBlank(s, 0);
    match NextMatch(s, 0)
    case None => [s]
    case Some((start, end)) => [s[..start]] + SplitParts(s[end..])
  }

  /** Parts that hold a token, without newlines at their ends. */
  function Kept(parts: seq<string>): seq<string> {
    if parts == [] then []
    else (if Blank(parts[0]) then [] else [StripNewlines(parts[0])]) + Kept(parts[1..])
  }

  lemma {:induction false} KeptTokens(parts: seq<string>)
    ensures AllTokens(Kept(parts)) == AllTokens(parts)
  {
    if parts != [] {
      KeptTokens(parts[1..]);
      TokensOfBlank(parts[0]);
      TokensStripNewlines(parts[0]);
      if !Blank(parts[0]) {
        var part := StripNewlines(parts[0]);
        AllTokensAppend([part], Kept(parts[1..]));
        AllTokensSnoc([], part);
        assert [] + [part] == [part];
      } else {
        assert Kept(parts) == Kept(parts[1..]);
      }
    }
  }

  lemma {:induction false} SplitPartsTokens(s: string)
    ensures AllTokens(SplitParts(s)) == Tokens(s)
    decreases |s|
  {
    NextMatchIsBlank(s, 0);
    match NextMatch(s, 0)
    case None =>
      assert AllTokens([s][1..]) == [];
    case Some((start, end)) =>
      SplitPartsTokens(s[end..]);
      assert s == s[..start] + s[start..end] + s[end..];
      TokensOfBlank(s[start..end]);
      TokensAppend(s[..start], s[start..end]);
      TokensAppend(s[..start] + s[start..end], s[end..]);
  }

  /** The blocks of a section when fences are not preserved. */
  function BlankLineBlocks(sectionText: string): seq<string> {
    Kept(SplitParts(sectionText))
  }

  lemma BlankLineBlocksTokens(sectionText: string)
    ensures AllTokens(BlankLineBlocks(sectionText)) == Tokens(sectionText)
  {
    SplitPartsTokens(sectionText);
    KeptTokens(SplitParts(sectionText));
  }
}

/** The loop of `_split_blocks` for `preserve_code_blocks`. */
module BlockSplitting {
  import opened Common
  import opened Text
  import opened Markdown
  import opened Blocks

  /** `flush_paragraph` and `flush_code`: file the collected lines as a block unless it is blank. */
  method Flush(
    collected: seq<string>, blocks: seq<string>,
    ghost lines: seq<string>, ghost sources: seq<Source>, ghost s: Source
  )
    returns (flushed: seq<string>, ghost newSources: seq<Source>)
    requires IsSource(lines, s) && collected == lines[s.start..s.end]
    requires BlocksOf(lines, sources, blocks, s.start)
    requires BlocksKeep(lines, s.end, blocks, collected)
    ensures BlocksOf(lines, newSources, flushed, s.end)
    ensures BlocksKeep(lines, s.end, flushed, [])
  {
    hide BlocksOf, BlocksKeep;
    var block := StripNewlines(Join("\n", collected));
    SourceIsNotBlank(lines, s);
    BlocksSnoc(lines, sources, blocks, s);
    KeepFlush(lines, s.end, blocks, collected);
    if !Blank(block) {
      return blocks + [block], sources + [s];
    }
    assert false;
  }

  method SplitFencedBlocks(sectionText: string)
    returns (blocks: seq<string>, ghost sources: seq<Source>)
    ensures var lines := SplitLines(sectionText, false);
      BlocksOf(lines, sources, blocks, |lines|)
    ensures AllTokens(blocks) == Tokens(sectionText)
  {
    hide *;
    blocks, sources := [], [];
    var lines := SplitLines(sectionText, false);
    var paragraphLines: seq<string>, codeLines: seq<string> := [], [];
    var fence: Option<Marker> := None;
    ghost var first := 0;
    var i := 0;
    CutStart(lines);
    KeepStart(lines);
    while i < |lines|
      invariant first <= i <= |lines|
      invariant Cutting(lines, Cut(i, first, fence))
      invariant BlocksOf(lines, sources, blocks, first)
      invariant fence.None? ==> paragraphLines == lines[first..i] && codeLines == []
      invariant fence.Some? ==> codeLines == lines[first..i] && paragraphLines == []
      invariant BlocksKeep(lines, i, blocks, if fence.None? then paragraphLines else codeLines)
    {
      ghost var c := Cut(i, first, fence);
      var line := lines[i];
      var marker := MatchFence(line);
      SliceSnoc(lines, first, i);
      if fence.None? && marker.Some? {
        if paragraphLines != [] {
          CutParagraph(lines, c);
          blocks, sources := Flush(paragraphLines, blocks, lines, sources, Paragraph(first, i));
          paragraphLines := [];
        }
        CutOpen(lines, c);
        KeepLine(lines, i, blocks, []);
        fence, codeLines, first := marker, [line], i;
        SliceSnoc(lines, i, i);
      } else if fence.Some? {
        KeepLine(lines, i, blocks, codeLines);
        CutInside(lines, c);
        codeLines := codeLines + [line];
        fence := FenceStep(fence, line);
        if fence.None? {
          blocks, sources := Flush(codeLines, blocks, lines, sources, ClosedFence(first, i + 1));
          codeLines, first := [], i + 1;
        }
      } else if Blank(line) {
        if paragraphLines != [] {
          CutParagraph(lines, c);
          blocks, sources := Flush(paragraphLines, blocks, lines, sources, Paragraph(first, i));
          paragraphLines := [];
        }
        BlocksWiden(lines, sources, blocks, i, i + 1);
        CutBlank(lines, c);
        KeepBlank(lines, i, blocks);
        first := i + 1;
      } else {
        KeepLine(lines, i, blocks, paragraphLines);
        CutProse(lines, c);
        paragraphLines := paragraphLines + [line];
      }
      i := i + 1;
    }
    ghost var c := Cut(i, first, fence);
    if paragraphLines != [] {
      CutParagraph(lines, c);
      blocks, sources := Flush(paragraphLines, blocks, lines, sources, Paragraph(first, i));
    }
    if codeLines != [] {
      CutEnd(lines, c);
      blocks, sources := Flush(codeLines, blocks, lines, sources, UnclosedFence(first, i));
    }
    KeepEnd(sectionText, blocks);
  }
}
