/** Fences, headings and heading-scoped sections of a Markdown text. */
module Markdown {
  import opened Common
  import opened Text

  // ---------- fences ----------

  /** Length of the leading run of backticks and tildes. */
  function MarkerRun(line: string): (n: nat)
    ensures n <= |line|
  {
    if line == "" || (line[0] != '`' && line[0] != '~') then 0 else 1 + MarkerRun(line[1..])
  }

  /** Group 1 of `^\s*([`~]{3,})`. */
  function MatchFence(line: string): (marker: Option<string>)
    ensures marker.Some? ==> |marker.value| >= 3
  {
    if line != "" && IsSpace(line[0]) then MatchFence(line[1..])
    else
      var n := MarkerRun(line);
      if n >= 3 then Some(line[..n]) else None
  }

  /** Same first character and at least as long; indentation and trailing text do not matter. */
  predicate Closes(marker: string, open: string)
    requires |marker| >= 3 && |open| >= 3
  {
    marker[0] == open[0] && |marker| >= |open|
  }

  type Marker = m: string | |m| >= 3 witness "```"

  /** The open fence after one more line. */
  function FenceStep(open: Option<Marker>, line: string): Option<Marker> {
    match MatchFence(line)
    case None => open
    case Some(marker) =>
      if open.None? then Some(marker)
      else if Closes(marker, open.value) then None
      else open
  }

  /** The open fence after all of `lines`. */
  function FenceFold(open: Option<Marker>, lines: seq<string>): Option<Marker>
    decreases |lines|
  {
    if lines == [] then open else FenceFold(FenceStep(open, lines[0]), lines[1..])
  }

  lemma {:induction false} FenceFoldAppend(open: Option<Marker>, a: seq<string>, b: seq<string>)
    ensures FenceFold(open, a + b) == FenceFold(FenceFold(open, a), b)
    decreases |a|
  {
    if a == [] {
      assert a + b == b;
    } else {
      assert (a + b)[1..] == a[1..] + b;
      FenceFoldAppend(FenceStep(open, a[0]), a[1..], b);
    }
  }

  lemma FenceFoldSnoc(open: Option<Marker>, a: seq<string>, line: string)
    ensures FenceFold(open, a + [line]) == FenceStep(FenceFold(open, a), line)
  {
    FenceFoldAppend(open, a, [line]);
    assert [line][1..] == [];
  }

  /** The fence left open by a whole text. */
  function OpenFence(open: Option<Marker>, text: string): Option<Marker> {
    FenceFold(open, SplitLines(text, false))
  }

  lemma {:induction false} MarkerRunIgnoresBreak(line: string, c: char)
    requires IsSpace(c)
    ensures MarkerRun(line + [c]) == MarkerRun(line)
  {
    if line != "" {
      assert (line + [c])[1..] == line[1..] + [c];
      MarkerRunIgnoresBreak(line[1..], c);
    }
  }

  lemma {:induction false} MatchFenceIgnoresBreak(line: string, c: char)
    requires IsSpace(c)
    ensures MatchFence(line + [c]) == MatchFence(line)
  {
    if line == "" {
      assert (line + [c])[1..] == "";
    } else if IsSpace(line[0]) {
      assert (line + [c])[1..] == line[1..] + [c];
      MatchFenceIgnoresBreak(line[1..], c);
    } else {
      MarkerRunIgnoresBreak(line, c);
      var n := MarkerRun(line);
      assert (line + [c])[..n] == line[..n];
    }
  }

  lemma OpenFenceCons(open: Option<Marker>, text: string)
    requires text != ""
    ensures OpenFence(open, text) == OpenFence(FenceStep(open, text[..BreakAt(text)]), text[NextLine(text)..])
  {
    var lines := SplitLines(text, false);
    assert lines[1..] == SplitLines(text[NextLine(text)..], false);
  }

  lemma BreakOfLonger(text: string)
    ensures BreakAt(text + "\n") == BreakAt(text)
  {
    var i := BreakAt(text);
    BreakAtEnds(text);
    BreakAtUnique(text + "\n", i);
  }

  /** A newline at the end only extends the last line. */
  lemma RestOfLonger(text: string)
    requires text != "" && BreakAt(text) < |text|
    ensures var longer := text + "\n";
      || (NextLine(text) == |text| && NextLine(longer) == |longer|)
      || NextLine(longer) == NextLine(text)
  {
    BreakOfLonger(text);
    var longer, i := text + "\n", BreakAt(text);
    assert longer[i] == text[i];
    if i + 1 < |text| {
      assert longer[i + 1] == text[i + 1];
    }
  }

  lemma {:induction false} OpenFenceTrailingNewline(open: Option<Marker>, text: string)
    ensures OpenFence(open, text + "\n") == OpenFence(open, text)
    decreases |text|
  {
    var longer, i, n := text + "\n", BreakAt(text), NextLine(text);
    BreakOfLonger(text);
    OpenFenceCons(open, longer);
    assert longer[..i] == text[..i];
    if text == "" {
    } else {
      OpenFenceCons(open, text);
      if i < |text| {
        RestOfLonger(text);
        if NextLine(longer) == n {
          assert longer[n..] == text[n..] + "\n";
          OpenFenceTrailingNewline(FenceStep(open, text[..i]), text[n..]);
        }
      }
    }
  }

  lemma OpenFenceLeadingNewline(open: Option<Marker>, text: string)
    ensures OpenFence(open, "\n" + text) == OpenFence(open, text)
  {
    var longer := "\n" + text;
    assert longer[0] == '\n';
    OpenFenceCons(open, longer);
    assert BreakAt(longer) == 0 && NextLine(longer) == 1 && longer[1..] == text;
  }

  /** Removing newlines at both ends does not change which fence is open at the end. */
  lemma OpenFenceStrip(open: Option<Marker>, text: string)
    ensures OpenFence(open, StripNewlines(text)) == OpenFence(open, text)
  {
    OpenFenceStripLeft(open, text);
    var front := text[LeadingNewlines(text)..];
    OpenFenceStripRight(open, front);
  }

  lemma {:induction false} OpenFenceStripLeft(open: Option<Marker>, text: string)
    ensures OpenFence(open, text[LeadingNewlines(text)..]) == OpenFence(open, text)
  {
    if text != "" && text[0] == '\n' {
      assert text == "\n" + text[1..];
      OpenFenceLeadingNewline(open, text[1..]);
      OpenFenceStripLeft(open, text[1..]);
      assert text[LeadingNewlines(text)..] == text[1..][LeadingNewlines(text[1..])..];
    } else {
      assert text[0..] == text;
    }
  }

  lemma {:induction false} OpenFenceStripRight(open: Option<Marker>, text: string)
    ensures OpenFence(open, text[..|text| - TrailingNewlines(text)]) == OpenFence(open, text)
  {
    if text != "" && text[|text| - 1] == '\n' {
      var shorter := text[..|text| - 1];
      assert text == shorter + "\n";
      OpenFenceTrailingNewline(open, shorter);
      OpenFenceStripRight(open, shorter);
      assert text[..|text| - TrailingNewlines(text)] == shorter[..|shorter| - TrailingNewlines(shorter)];
    } else {
      assert text[..|text|] == text;
    }
  }

  // ---------- lines that keep their ends ----------

  /** A line whose only break, if it has one, is its last character. */
  ghost predicate KeptLine(line: string) {
    line != "" && OneLine(line[..|line| - 1]) && line[|line| - 1] != '\r'
  }

  /** Lines as `splitlines(keepends=True)` yields them for a text without carriage returns. */
  ghost predicate KeptLines(lines: seq<string>) {
    && (forall i :: 0 <= i < |lines| ==> KeptLine(lines[i]))
    && (forall i :: 0 <= i < |lines| - 1 ==> IsLineBreak(lines[i][|lines[i]| - 1]))
  }

  lemma FirstLineIsKept(text: string)
    requires text != "" && '\r' !in text
    ensures KeptLine(text[..NextLine(text)])
    ensures NextLine(text) < |text| ==> IsLineBreak(text[NextLine(text) - 1])
  {
    var i, n := BreakAt(text), NextLine(text);
    var line := text[..n];
    BreakAtEnds(text);
    assert forall k :: 0 <= k < n - 1 ==> line[..n - 1][k] == text[k];
    assert line[n - 1] == text[n - 1];
  }

  lemma KeptLinesCons(line: string, rest: seq<string>)
    requires KeptLine(line) && KeptLines(rest)
    requires rest != [] ==> IsLineBreak(line[|line| - 1])
    ensures KeptLines([line] + rest)
  {
  }

  lemma FlattenCons(line: string, rest: seq<string>)
    ensures Flatten([line] + rest) == line + Flatten(rest)
  {
    assert ([line] + rest)[1..] == rest;
  }

  lemma {:induction false} SplitKeepsEnds(text: string)
    requires '\r' !in text
    ensures KeptLines(SplitLines(text, true))
    ensures Flatten(SplitLines(text, true)) == text
    decreases |text|
  {
    if text != "" {
      var n := NextLine(text);
      var line, rest := text[..n], SplitLines(text[n..], true);
      assert SplitLines(text, true) == [line] + rest;
      assert text == line + text[n..];
      FlattenCons(line, rest);
      FirstLineIsKept(text);
      assert rest != [] ==> text[n..] != "";
      hide *;
      SplitKeepsEnds(text[n..]);
      KeptLinesCons(line, rest);
    }
  }

  /** Scanning the text of consecutive lines is scanning the lines. */
  lemma {:induction false} OpenFenceOfLines(open: Option<Marker>, lines: seq<string>)
    requires KeptLines(lines)
    ensures OpenFence(open, Flatten(lines)) == FenceFold(open, lines)
    decreases |lines|
  {
    if lines != [] {
      assert FenceFold(open, lines) == FenceFold(FenceStep(open, lines[0]), lines[1..]);
      assert KeptLines(lines[1..]);
      OpenFenceOfFirst(open, lines);
      hide *;
      OpenFenceOfLines(FenceStep(open, lines[0]), lines[1..]);
    }
  }

  /** Where the first of some kept lines ends in their text. */
  lemma FirstLineOfText(lines: seq<string>)
    requires KeptLines(lines) && lines != []
    ensures Flatten(lines) != "" && Flatten(lines)[NextLine(Flatten(lines))..] == Flatten(lines[1..])
    ensures var line, content := lines[0], Flatten(lines)[..BreakAt(Flatten(lines))];
      content == line || (line != "" && IsLineBreak(line[|line| - 1]) && content == line[..|line| - 1])
  {
    var line, rest, text := lines[0], Flatten(lines[1..]), Flatten(lines);
    var n := |line|;
    assert text == line + rest;
    var body := line[..n - 1];
    assert forall k :: 0 <= k < n - 1 ==> text[k] == body[k];
    assert text[n - 1] == line[n - 1];
    hide Flatten, BreakAt;
    if IsLineBreak(line[n - 1]) {
      BreakAtUnique(text, n - 1);
      assert text[..n - 1] == body && text[n..] == rest;
    } else {
      assert lines[1..] == [] && text == line by {
        assert Flatten([]) == "";
      }
      BreakAtUnique(text, n);
      assert text[..n] == line && text[n..] == rest;
    }
  }

  lemma OpenFenceOfFirst(open: Option<Marker>, lines: seq<string>)
    requires KeptLines(lines) && lines != []
    ensures OpenFence(open, Flatten(lines)) == OpenFence(FenceStep(open, lines[0]), Flatten(lines[1..]))
  {
    var line, text := lines[0], Flatten(lines);
    hide *;
    FirstLineOfText(lines);
    OpenFenceCons(open, text);
    var content := text[..BreakAt(text)];
    if content != line {
      assert line == content + [line[|line| - 1]];
      MatchFenceIgnoresBreak(content, line[|line| - 1]);
      SameFenceStep(open, content, line);
    }
  }

  lemma SameFenceStep(open: Option<Marker>, a: string, b: string)
    requires MatchFence(a) == MatchFence(b)
    ensures FenceStep(open, a) == FenceStep(open, b)
  {
    hide MatchFence;
  }

  // ---------- headings ----------

  datatype Heading = Heading(level: nat, title: string)

  function HashRun(line: string): (n: nat)
    ensures n <= |line|
  {
    if line == "" || line[0] != '#' then 0 else 1 + HashRun(line[1..])
  }

  /** `^(#{1,6})\s+(.*?)\s*$`: one to six hashes, then whitespace, then the title. */
  function ParseHeading(line: string): (h: Option<Heading>)
    ensures h.Some? ==> 1 <= h.value.level <= 6 && line != "" && line[0] == '#'
  {
    var n := HashRun(line);
    if 1 <= n <= 6 && n < |line| && IsSpace(line[n]) then Some(Heading(n, Strip(line[n..]))) else None
  }

  lemma HeadingIsNoFence(line: string)
    requires ParseHeading(line).Some?
    ensures MatchFence(line).None?
  {
    assert MarkerRun(line) == 0;
  }

  /** `heading_stack` after a series of headings. */
  function HeadingPath(hs: seq<Heading>): seq<string> {
    if hs == [] then [] else PushHeading(HeadingPath(hs[..|hs| - 1]), hs[|hs| - 1])
  }

  /** Keep the first `level - 1` titles and add the new one. */
  function PushHeading(path: seq<string>, h: Heading): seq<string> {
    path[..Min(Max(h.level - 1, 0), |path|)] + [h.title]
  }

  // ---------- sections ----------

  datatype Section = Section(headingPath: seq<string>, text: string, sectionIndex: nat)

  /** The fence open before line `i`. */
  function FenceBefore(lines: seq<string>, i: nat): Option<Marker>
    requires i <= |lines|
  {
    if i == 0 then None else FenceStep(FenceBefore(lines, i - 1), lines[i - 1])
  }

  /** A heading outside every fence. */
  predicate IsHeadingLine(lines: seq<string>, i: nat)
    requires i < |lines|
  {
    FenceBefore(lines, i).None? && ParseHeading(lines[i]).Some?
  }

  /** The first `n` lines without their unfenced headings. */
  function BodyLines(lines: seq<string>, n: nat): seq<string>
    requires n <= |lines|
  {
    if n == 0 then []
    else if IsHeadingLine(lines, n - 1) then BodyLines(lines, n - 1)
    else BodyLines(lines, n - 1) + [lines[n - 1]]
  }

  /** The unfenced headings among the first `n` lines. */
  function HeadingsBefore(lines: seq<string>, n: nat): seq<Heading>
    requires n <= |lines|
  {
    if n == 0 then []
    else if IsHeadingLine(lines, n - 1) then HeadingsBefore(lines, n - 1) + [ParseHeading(lines[n - 1]).value]
    else HeadingsBefore(lines, n - 1)
  }

  datatype Span = Span(start: nat, end: nat)

  /** None of the lines from `i` up to `j` is an unfenced heading. */
  predicate NoHeadings(lines: seq<string>, i: nat, j: nat)
    requires i <= j <= |lines|
  {
    i == j || (!IsHeadingLine(lines, j - 1) && NoHeadings(lines, i, j - 1))
  }

  /** A maximal stretch of lines without an unfenced heading. */
  ghost predicate IsStretch(lines: seq<string>, span: Span) {
    && span.start <= span.end <= |lines|
    && NoHeadings(lines, span.start, span.end)
    && (span.start == 0 || IsHeadingLine(lines, span.start - 1))
    && (span.end == |lines| || IsHeadingLine(lines, span.end))
  }

  /** `section` is the non-blank stretch `span`, filed under the headings before it. */
  ghost predicate SectionOf(lines: seq<string>, span: Span, section: Section) {
    && IsStretch(lines, span)
    && section.text == StripNewlines(Flatten(lines[span.start..span.end]))
    && !Blank(section.text)
    && section.headingPath == HeadingPath(HeadingsBefore(lines, span.start))
  }

  /** The sections are numbered stretches of `lines`, in order and apart, all ending before line `limit`. */
  ghost predicate SectionsOf(lines: seq<string>, spans: seq<Span>, sections: seq<Section>, limit: nat) {
    && |spans| == |sections|
    && (spans == [] ||
        var n := |spans| - 1;
        && SectionOf(lines, spans[n], sections[n])
        && sections[n].sectionIndex == n
        && spans[n].end < limit
        && SectionsOf(lines, spans[..n], sections[..n], spans[n].start))
  }

  function Texts(sections: seq<Section>): seq<string> {
    seq(|sections|, k requires 0 <= k < |sections| => sections[k].text)
  }

  /** The lines that `extract_sections` walks over. */
  function DocumentLines(text: string): seq<string> {
    SplitLines(NormalizeNewlines(text), true)
  }

  lemma DocumentLinesAreKept(text: string)
    ensures KeptLines(DocumentLines(text))
    ensures AllTokens(DocumentLines(text)) == Tokens(text)
  {
    NormalizeNewlinesKeepsTokens(text);
    SplitKeepsEnds(NormalizeNewlines(text));
    LinesKeepTokens(NormalizeNewlines(text), true);
  }

  lemma {:induction false} TokensOfKeptLines(lines: seq<string>)
    requires KeptLines(lines)
    ensures Tokens(Flatten(lines)) == AllTokens(lines)
  {
    if lines != [] {
      TokensOfKeptLines(lines[1..]);
      if |lines| == 1 {
        assert Flatten(lines) == lines[0] + "";
      }
      TokensAppend(lines[0], Flatten(lines[1..]));
    }
  }

  lemma HeadingPathNext(hs: seq<Heading>, h: Heading)
    ensures HeadingPath(hs + [h]) == PushHeading(HeadingPath(hs), h)
  {
    assert (hs + [h])[..|hs|] == hs;
  }

  lemma {:induction false} HeadingPathDepth(hs: seq<Heading>)
    requires forall h :: h in hs ==> h.level <= 6
    ensures |HeadingPath(hs)| <= 6
  {
    if hs != [] {
      assert hs[|hs| - 1] in hs;
    }
  }

  lemma KeptSlice(lines: seq<string>, i: nat, j: nat)
    requires KeptLines(lines) && i <= j <= |lines|
    ensures KeptLines(lines[i..j])
  {
  }

  /** Tokens of a stretch, whether or not it ends up as a section. */
  lemma StretchTokens(lines: seq<string>)
    requires KeptLines(lines)
    ensures Tokens(StripNewlines(Flatten(lines))) == AllTokens(lines)
    ensures Blank(StripNewlines(Flatten(lines))) <==> AllTokens(lines) == []
  {
    TokensOfKeptLines(lines);
    TokensStripNewlines(Flatten(lines));
    TokensOfBlank(StripNewlines(Flatten(lines)));
  }

  lemma TextsSnoc(sections: seq<Section>, section: Section)
    ensures AllTokens(Texts(sections + [section])) == AllTokens(Texts(sections)) + Tokens(section.text)
  {
    assert Texts(sections + [section]) == Texts(sections) + [section.text];
    AllTokensSnoc(Texts(sections), section.text);
  }

  // ---------- what the sections mean ----------

  /** Section `k` is a numbered stretch that starts after the end of every earlier one. */
  lemma {:induction false} SectionAt(lines: seq<string>, spans: seq<Span>, sections: seq<Section>, limit: nat, k: nat)
    requires SectionsOf(lines, spans, sections, limit) && k < |sections|
    ensures SectionOf(lines, spans[k], sections[k]) && sections[k].sectionIndex == k
    ensures spans[k].end < limit
    ensures k + 1 < |sections| ==> spans[k].end < spans[k + 1].start
  {
    var n := |spans| - 1;
    if k < n {
      SectionAt(lines, spans[..n], sections[..n], spans[n].start, k);
    }
  }

  lemma {:induction false} FenceBeforeFold(lines: seq<string>, i: nat, j: nat)
    requires i <= j <= |lines|
    ensures FenceBefore(lines, j) == FenceFold(FenceBefore(lines, i), lines[i..j])
  {
    if i < j {
      FenceBeforeFold(lines, i, j - 1);
      SliceSnoc(lines, i, j - 1);
      FenceFoldSnoc(FenceBefore(lines, i), lines[i..j - 1], lines[j - 1]);
    }
  }

  /** The chunker, reading a section alone, ends in the fence state that the parser was in. */
  lemma SectionFence(lines: seq<string>, span: Span, section: Section)
    requires KeptLines(lines) && SectionOf(lines, span, section)
    ensures OpenFence(None, section.text) == FenceBefore(lines, span.end)
  {
    var stretch := lines[span.start..span.end];
    assert FenceBefore(lines, span.start) == None by {
      if span.start > 0 {
        HeadingsAfterHeading(lines, span.start - 1);
      }
    }
    FenceBeforeFold(lines, span.start, span.end);
    KeptSlice(lines, span.start, span.end);
    OpenFenceOfLines(None, stretch);
    OpenFenceStrip(None, Flatten(stretch));
  }

  /** Every section but the last leaves no fence open; the last one is open exactly when the document is. */
  lemma SectionsCloseTheirFences(text: string, spans: seq<Span>, sections: seq<Section>, k: nat)
    requires var lines := DocumentLines(text); SectionsOf(lines, spans, sections, |lines| + 1)
    requires k < |sections|
    ensures k + 1 < |sections| ==> OpenFence(None, sections[k].text).None?
    ensures OpenFence(None, sections[k].text).Some? ==>
      OpenFence(None, sections[k].text) == FenceBefore(DocumentLines(text), |DocumentLines(text)|)
  {
    var lines := DocumentLines(text);
    DocumentLinesAreKept(text);
    SectionAt(lines, spans, sections, |lines| + 1, k);
    if k + 1 < |sections| {
      SectionAt(lines, spans, sections, |lines| + 1, k + 1);
    }
    SectionFence(lines, spans[k], sections[k]);
  }

  lemma {:induction false} HeadingLevels(lines: seq<string>, n: nat)
    requires n <= |lines|
    ensures forall h :: h in HeadingsBefore(lines, n) ==> 1 <= h.level <= 6
  {
    if n > 0 {
      HeadingLevels(lines, n - 1);
    }
  }

  lemma SectionPathDepth(lines: seq<string>, span: Span, section: Section)
    requires SectionOf(lines, span, section)
    ensures |section.headingPath| <= 6
  {
    HeadingLevels(lines, span.start);
    HeadingPathDepth(HeadingsBefore(lines, span.start));
  }

  /** The line-level state of `extract_sections` after `i` lines; `start` follows the last heading. */
  datatype Scan = Scan(i: nat, start: nat, fence: Option<Marker>, headingStack: seq<string>, firstHeading: Option<string>)

  ghost predicate Scanned(lines: seq<string>, s: Scan) {
    && s.start <= s.i <= |lines|
    && s.fence == FenceBefore(lines, s.i)
    && s.headingStack == HeadingPath(HeadingsBefore(lines, s.i))
    && s.firstHeading == FirstTitle(HeadingsBefore(lines, s.i))
    && NoHeadings(lines, s.start, s.i)
    && (s.start == 0 || IsHeadingLine(lines, s.start - 1))
  }

  /** No token of the body so far is lost: it is in a section or among the collected lines. */
  ghost predicate Conserved(lines: seq<string>, i: nat, sections: seq<Section>, current: seq<string>)
    requires i <= |lines|
  {
    AllTokens(Texts(sections)) + AllTokens(current) == AllTokens(BodyLines(lines, i))
  }

  lemma ScanStart(lines: seq<string>)
    ensures Scanned(lines, Scan(0, 0, None, [], None)) && Conserved(lines, 0, [], [])
    ensures SectionsOf(lines, [], [], 0)
  {
  }

  lemma ScanBodyLine(lines: seq<string>, s: Scan)
    requires Scanned(lines, s) && s.i < |lines|
    requires s.fence.Some? || ParseHeading(lines[s.i]).None?
    ensures Scanned(lines, s.(i := s.i + 1, fence := FenceStep(s.fence, lines[s.i])))
    ensures BodyLines(lines, s.i + 1) == BodyLines(lines, s.i) + [lines[s.i]]
  {
    hide ParseHeading, FenceStep, HeadingPath, FirstTitle;
  }

  lemma HeadingsAfterHeading(lines: seq<string>, i: nat)
    requires i < |lines| && IsHeadingLine(lines, i)
    ensures HeadingsBefore(lines, i + 1) == HeadingsBefore(lines, i) + [ParseHeading(lines[i]).value]
    ensures FenceBefore(lines, i + 1).None?
  {
    HeadingIsNoFence(lines[i]);
  }

  lemma ScanHeadingLine(lines: seq<string>, s: Scan, h: Heading)
    requires Scanned(lines, s) && s.i < |lines|
    requires s.fence.None? && ParseHeading(lines[s.i]) == Some(h)
    ensures var path := PushHeading(s.headingStack, h);
      var first := if s.firstHeading.None? then Some(h.title) else s.firstHeading;
      && Scanned(lines, Scan(s.i + 1, s.i + 1, None, path, first))
      && path == HeadingPath(HeadingsBefore(lines, s.i + 1))
    ensures BodyLines(lines, s.i + 1) == BodyLines(lines, s.i)
  {
    hide ParseHeading, FenceStep;
    HeadingsAfterHeading(lines, s.i);
    HeadingPathNext(HeadingsBefore(lines, s.i), h);
  }

  /** Up to a heading or the end, the scanned lines form a stretch. */
  lemma ScanStretch(lines: seq<string>, s: Scan)
    requires Scanned(lines, s)
    requires s.i < |lines| ==> s.fence.None? && ParseHeading(lines[s.i]).Some?
    ensures IsStretch(lines, Span(s.start, s.i))
  {
  }

  lemma ScanEnd(lines: seq<string>, s: Scan)
    requires Scanned(lines, s)
    ensures s.firstHeading == FirstTitle(HeadingsBefore(lines, s.i))
  {
  }

  lemma ConserveBodyLine(lines: seq<string>, i: nat, sections: seq<Section>, current: seq<string>)
    requires i < |lines| && Conserved(lines, i, sections, current)
    requires BodyLines(lines, i + 1) == BodyLines(lines, i) + [lines[i]]
    ensures Conserved(lines, i + 1, sections, current + [lines[i]])
  {
    AllTokensSnoc(current, lines[i]);
    AllTokensSnoc(BodyLines(lines, i), lines[i]);
  }

  lemma ConserveFlush(lines: seq<string>, i: nat, sections: seq<Section>, current: seq<string>, flushed: seq<Section>)
    requires i <= |lines| && Conserved(lines, i, sections, current)
    requires AllTokens(Texts(flushed)) == AllTokens(Texts(sections)) + AllTokens(current)
    ensures AllTokens(Texts(flushed)) == AllTokens(BodyLines(lines, i))
    ensures i < |lines| && BodyLines(lines, i + 1) == BodyLines(lines, i) ==> Conserved(lines, i + 1, flushed, [])
  {
    assert AllTokens([]) == [];
  }

  function FirstTitle(hs: seq<Heading>): Option<string> {
    if hs == [] then None else Some(hs[0].title)
  }
}

/** The loop of `extract_sections`. */
module SectionExtraction {
  import opened Common
  import opened Text
  import opened Markdown

  /** The `flush_current` closure: file the collected lines as a section unless they are blank. */
  method FlushCurrent(
    current: seq<string>, path: seq<string>, sections: seq<Section>,
    ghost lines: seq<string>, ghost spans: seq<Span>, ghost span: Span
  )
    returns (flushed: seq<Section>, ghost newSpans: seq<Span>)
    requires KeptLines(lines) && IsStretch(lines, span)
    requires SectionsOf(lines, spans, sections, span.start)
    requires current == lines[span.start..span.end]
    requires path == HeadingPath(HeadingsBefore(lines, span.start))
    ensures SectionsOf(lines, newSpans, flushed, span.end + 1)
    ensures AllTokens(Texts(flushed)) == AllTokens(Texts(sections)) + AllTokens(current)
  {
    KeptSlice(lines, span.start, span.end);
    StretchTokens(current);
    var text := StripNewlines(Flatten(current));
    if Blank(text) {
      return sections, spans;
    }
    var section := Section(path, text, |sections|);
    TextsSnoc(sections, section);
    flushed, newSpans := sections + [section], spans + [span];
    assert newSpans[..|spans|] == spans && flushed[..|spans|] == sections;
  }

  method ExtractSections(markdownText: string)
    returns (sections: seq<Section>, firstHeading: Option<string>, ghost spans: seq<Span>)
    ensures var lines := DocumentLines(markdownText);
      && SectionsOf(lines, spans, sections, |lines| + 1)
      && AllTokens(Texts(sections)) == AllTokens(BodyLines(lines, |lines|))
      && firstHeading == FirstTitle(HeadingsBefore(lines, |lines|))
  {
    hide *;
    var lines := DocumentLines(markdownText);
    DocumentLinesAreKept(markdownText);
    ScanStart(lines);
    sections, firstHeading, spans := [], None, [];
    var current: seq<string>, headingStack: seq<string>, activePath: seq<string> := [], [], [];
    var fence: Option<Marker> := None;
    ghost var start := 0;
    var i := 0;
    while i < |lines|
      invariant 0 <= start <= i <= |lines|
      invariant Scanned(lines, Scan(i, start, fence, headingStack, firstHeading))
      invariant current == lines[start..i]
      invariant activePath == HeadingPath(HeadingsBefore(lines, start))
      invariant SectionsOf(lines, spans, sections, start)
      invariant Conserved(lines, i, sections, current)
    {
      ghost var scan, filed := Scan(i, start, fence, headingStack, firstHeading), sections;
      var line := lines[i];
      SliceSnoc(lines, start, i);
      var heading := ParseHeading(line);
      if fence.None? && heading.Some? {
        ScanStretch(lines, scan);
        sections, spans := FlushCurrent(current, activePath, sections, lines, spans, Span(start, i));
        ScanHeadingLine(lines, scan, heading.value);
        ConserveFlush(lines, i, filed, current, sections);
        headingStack := PushHeading(headingStack, heading.value);
        activePath := headingStack;
        if firstHeading.None? {
          firstHeading := Some(heading.value.title);
        }
        current, start := [], i + 1;
      } else {
        ScanBodyLine(lines, scan);
        ConserveBodyLine(lines, i, sections, current);
        current := current + [line];
        fence := FenceStep(fence, line);
      }
      i := i + 1;
    }
    ghost var filed := sections;
    ScanStretch(lines, Scan(i, start, fence, headingStack, firstHeading));
    sections, spans := FlushCurrent(current, activePath, sections, lines, spans, Span(start, i));
    ConserveFlush(lines, i, filed, current, sections);
    ScanEnd(lines, Scan(i, start, fence, headingStack, firstHeading));
  }
}
