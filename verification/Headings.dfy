/** What a heading line and a fence line look like, and what the headings of a document make of its sections. */
module LineForms {
  import opened Common
  import opened Text
  import opened Markdown

  // ---------- stripping ----------

  /** No whitespace at either end. */
  predicate Trimmed(t: string) {
    t == "" || (!IsSpace(t[0]) && !IsSpace(t[|t| - 1]))
  }

  /** Whitespace around a trimmed text is what `strip` takes away. */
  lemma {:induction false} StripBetween(a: string, t: string, b: string)
    requires Blank(a) && Blank(b) && Trimmed(t)
    ensures Strip(a + t + b) == t
    decreases |a| + |b|
  {
    var s := a + t + b;
    if a != "" {
      assert s[1..] == a[1..] + t + b;
      StripBetween(a[1..], t, b);
    } else if b != "" {
      var n := |b| - 1;
      if t == "" {
        assert s == b && s[1..] == "" + t + b[1..];
        StripBetween("", t, b[1..]);
      } else {
        assert s[0] == t[0] && s[..|s| - 1] == "" + t + b[..n];
        StripBetween("", t, b[..n]);
      }
    } else {
      assert s == t;
    }
  }

  /** `strip` leaves a trimmed text and takes only whitespace away. */
  lemma {:induction false} StripSplits(s: string) returns (a: string, b: string)
    ensures s == a + Strip(s) + b && Blank(a) && Blank(b) && Trimmed(Strip(s))
    ensures s != "" && IsSpace(s[0]) ==> a != ""
    decreases |s|
  {
    a, b := "", "";
    if s == "" {
    } else if IsSpace(s[0]) {
      a, b := StripSplits(s[1..]);
      assert s == [s[0]] + s[1..];
      assert [s[0]] + (a + Strip(s[1..]) + b) == [s[0]] + a + Strip(s[1..]) + b;
      a := [s[0]] + a;
    } else if IsSpace(s[|s| - 1]) {
      var n := |s| - 1;
      a, b := StripSplits(s[..n]);
      SplitGrows(s, a, Strip(s[..n]), b);
      b := b + [s[n]];
    } else {
      assert s == "" + s + "";
    }
  }

  lemma SplitGrows(s: string, a: string, t: string, b: string)
    requires s != "" && s[..|s| - 1] == a + t + b && Blank(b) && IsSpace(s[|s| - 1])
    ensures s == a + t + (b + [s[|s| - 1]]) && Blank(b + [s[|s| - 1]])
  {
    assert s == s[..|s| - 1] + [s[|s| - 1]];
  }

  predicate OnlyNewlines(s: string) {
    forall i :: 0 <= i < |s| ==> s[i] == '\n'
  }

  lemma LeadingSplit(s: string) returns (a: string, rest: string)
    ensures s == a + rest && OnlyNewlines(a) && rest == s[LeadingNewlines(s)..]
    ensures rest != "" ==> rest[0] != '\n'
  {
    LeadingNewlinesAreNewlines(s);
    hide LeadingNewlines;
    a, rest := s[..LeadingNewlines(s)], s[LeadingNewlines(s)..];
  }

  lemma TrailingSplit(s: string) returns (t: string, b: string)
    ensures s == t + b && OnlyNewlines(b) && t == s[..|s| - TrailingNewlines(s)]
    ensures t != "" ==> t[|t| - 1] != '\n' && t[0] == s[0]
  {
    TrailingNewlinesAreNewlines(s);
    hide TrailingNewlines;
    var m := |s| - TrailingNewlines(s);
    t, b := s[..m], s[m..];
  }

  /** `strip("\n")` takes exactly the newlines at both ends. */
  lemma StripNewlinesSplits(s: string) returns (a: string, b: string)
    ensures s == a + StripNewlines(s) + b && OnlyNewlines(a) && OnlyNewlines(b)
    ensures var t := StripNewlines(s); t != "" ==> t[0] != '\n' && t[|t| - 1] != '\n'
  {
    hide OnlyNewlines, LeadingNewlines, TrailingNewlines;
    var rest, t;
    a, rest := LeadingSplit(s);
    t, b := TrailingSplit(rest);
    assert a + (t + b) == a + t + b;
  }

  // ---------- newline conventions ----------

  lemma {:induction false} NormalizePrefix(line: string, rest: string)
    requires '\r' !in line
    ensures NormalizeNewlines(line + rest) == line + NormalizeNewlines(rest)
  {
    if line == "" {
      assert line + rest == rest;
    } else {
      assert (line + rest)[1..] == line[1..] + rest;
      NormalizePrefix(line[1..], rest);
      assert [line[0]] + line[1..] == line;
    }
  }

  function NewEnd(c: char): char {
    if c == '\r' then '\n' else c
  }

  /** What normalizing makes of a break. */
  lemma NormalizeBreak(s: string)
    requires s != "" && IsLineBreak(s[0])
    ensures NormalizeNewlines(s) == [NewEnd(s[0])] + NormalizeNewlines(s[NextLine(s)..])
  {
    assert BreakAt(s) == 0;
  }

  lemma FirstBreak(s: string)
    requires BreakAt(s) < |s|
    ensures var i := BreakAt(s); var rest := s[i..];
      rest[0] == s[i] && IsLineBreak(rest[0]) && '\r' !in s[..i] && rest[NextLine(rest)..] == s[NextLine(s)..]
  {
    BreakAtEnds(s);
    var rest := s[BreakAt(s)..];
    assert BreakAt(rest) == 0;
    assert |rest| > 1 ==> rest[1] == s[BreakAt(s) + 1];
    hide BreakAt;
  }

  lemma NormalizeFirstLine(s: string)
    requires BreakAt(s) < |s|
    ensures NormalizeNewlines(s) == s[..BreakAt(s)] + [NewEnd(s[BreakAt(s)])] + NormalizeNewlines(s[NextLine(s)..])
  {
    hide *;
    FirstBreak(s);
    var line, rest := s[..BreakAt(s)], s[BreakAt(s)..];
    assert s == line + rest;
    NormalizePrefix(line, rest);
    NormalizeBreak(rest);
  }

  /** Normalizing newlines changes no line: only what ends the lines. */
  lemma {:induction false} NormalizingKeepsLines(s: string)
    ensures SplitLines(NormalizeNewlines(s), false) == SplitLines(s, false)
    decreases |s|
  {
    if s != "" {
      var i, n := BreakAt(s), NextLine(s);
      var t, rest := NormalizeNewlines(s), NormalizeNewlines(s[n..]);
      BreakAtEnds(s);
      if i == |s| {
        NormalizePrefix(s, "");
        assert s + "" == s;
      } else {
        NormalizeFirstLine(s);
        NormalizingKeepsLines(s[n..]);
        SplitAtBreak(t, s[..i], NewEnd(s[i]), rest);
      }
    }
  }

  lemma SplitAtBreak(s: string, line: string, end: char, rest: string)
    requires s == line + [end] + rest && OneLine(line) && IsLineBreak(end) && end != '\r'
    ensures SplitLines(s, false) == [line] + SplitLines(rest, false)
  {
    assert s[|line|] == end && forall k :: 0 <= k < |line| ==> s[k] == line[k];
    BreakAtUnique(s, |line|);
    assert s[..|line|] == line && s[|line| + 1..] == rest;
  }

  // ---------- heading lines ----------

  function Repeated(c: char, n: nat): (s: string)
    ensures |s| == n
  {
    seq(n, _ => c)
  }

  /** `line` starts with exactly `n` hashes. */
  predicate StartsWithHashes(line: string, n: nat) {
    n <= |line| && (forall i :: 0 <= i < n ==> line[i] == '#') && (n < |line| ==> line[n] != '#')
  }

  lemma {:induction false} HashRunCounts(line: string, n: nat)
    ensures HashRun(line) == n <==> StartsWithHashes(line, n)
  {
    if line != "" && line[0] == '#' {
      if n > 0 {
        HashRunCounts(line[1..], n - 1);
        assert forall i :: 0 < i < n && n <= |line| ==> line[i] == line[1..][i - 1];
        assert StartsWithHashes(line, n) ==> StartsWithHashes(line[1..], n - 1);
      }
    }
  }

  /** `level` hashes, whitespace, the title, whitespace. */
  ghost predicate HasHeadingForm(line: string, level: nat, title: string) {
    && 1 <= level <= 6 && Trimmed(title)
    && exists space, end :: HeadingParts(line, level, space, title, end)
  }

  predicate HeadingParts(line: string, level: nat, space: string, title: string, end: string) {
    space != "" && Blank(space) && Blank(end) && line == Repeated('#', level) + space + title + end
  }

  /** Every line of that form is that heading. */
  lemma FormIsHeading(line: string, level: nat, space: string, title: string, end: string)
    requires 1 <= level <= 6 && Trimmed(title) && HeadingParts(line, level, space, title, end)
    ensures ParseHeading(line) == Some(Heading(level, title))
  {
    assert line[level] == space[0];
    assert StartsWithHashes(line, level);
    HashRunCounts(line, level);
    assert line[level..] == space + title + end;
    StripBetween(space, title, end);
  }

  /** Every heading has that form. */
  lemma HeadingHasForm(line: string)
    requires ParseHeading(line).Some?
    ensures var h := ParseHeading(line).value; HasHeadingForm(line, h.level, h.title)
  {
    var n := HashRun(line);
    HashRunCounts(line, n);
    var rest := line[n..];
    assert rest[0] == line[n] && IsSpace(rest[0]);
    hide Strip;
    var a, b := StripSplits(rest);
    assert line == line[..n] + rest && line[..n] == Repeated('#', n);
    assert HeadingParts(line, n, a, Strip(rest), b);
  }

  /** The pattern for headings, in both directions. */
  lemma HeadingExactly(line: string, level: nat, title: string)
    ensures ParseHeading(line) == Some(Heading(level, title)) <==> HasHeadingForm(line, level, title)
  {
    if HasHeadingForm(line, level, title) {
      var space, end :| HeadingParts(line, level, space, title, end);
      FormIsHeading(line, level, space, title, end);
    }
    if ParseHeading(line) == Some(Heading(level, title)) {
      HeadingHasForm(line);
    }
  }

  /** No hash, more than six, or none followed by whitespace: then it is no heading, and only then. */
  lemma NoHeadingExactly(line: string, n: nat)
    requires StartsWithHashes(line, n)
    ensures ParseHeading(line).None? <==> n == 0 || n > 6 || n == |line| || !IsSpace(line[n])
  {
    HashRunCounts(line, n);
  }

  // ---------- fence lines ----------

  predicate IsMarker(marker: string) {
    |marker| >= 3 && forall i :: 0 <= i < |marker| ==> marker[i] == '`' || marker[i] == '~'
  }

  predicate FenceParts(line: string, space: string, marker: string, rest: string) {
    && Blank(space) && line == space + marker + rest
    && (rest != "" ==> rest[0] != '`' && rest[0] != '~')
  }

  /** Whitespace, a run of at least three backticks and tildes, and something else or nothing. */
  ghost predicate HasFenceForm(line: string, marker: string) {
    IsMarker(marker) && exists space, rest :: FenceParts(line, space, marker, rest)
  }

  lemma {:induction false} MarkerRunCounts(marker: string, rest: string)
    requires forall i :: 0 <= i < |marker| ==> marker[i] == '`' || marker[i] == '~'
    requires rest != "" ==> rest[0] != '`' && rest[0] != '~'
    ensures MarkerRun(marker + rest) == |marker|
  {
    if marker == "" {
      assert marker + rest == rest;
    } else {
      assert (marker + rest)[1..] == marker[1..] + rest;
      MarkerRunCounts(marker[1..], rest);
    }
  }

  lemma {:induction false} MarkerRunSplits(line: string)
    ensures var n := MarkerRun(line);
      && (forall i :: 0 <= i < n ==> line[i] == '`' || line[i] == '~')
      && (n < |line| ==> line[n] != '`' && line[n] != '~')
  {
    if line != "" && (line[0] == '`' || line[0] == '~') {
      MarkerRunSplits(line[1..]);
    }
  }

  lemma {:induction false} FormIsFence(line: string, space: string, marker: string, rest: string)
    requires IsMarker(marker) && FenceParts(line, space, marker, rest)
    ensures MatchFence(line) == Some(marker)
    decreases |space|
  {
    if space == "" {
      assert line == marker + rest && !IsSpace(line[0]);
      MarkerRunCounts(marker, rest);
      assert line[..|marker|] == marker;
    } else {
      assert line[0] == space[0] && line[1..] == space[1..] + marker + rest;
      FormIsFence(line[1..], space[1..], marker, rest);
    }
  }

  lemma {:induction false} FenceHasForm(line: string) returns (space: string, rest: string)
    requires MatchFence(line).Some?
    ensures IsMarker(MatchFence(line).value) && FenceParts(line, space, MatchFence(line).value, rest)
  {
    if line != "" && IsSpace(line[0]) {
      space, rest := FenceHasForm(line[1..]);
      space := [line[0]] + space;
      assert line == [line[0]] + line[1..];
    } else {
      var n := MarkerRun(line);
      MarkerRunSplits(line);
      space, rest := "", line[n..];
      assert line == "" + line[..n] + line[n..];
    }
  }

  /** The pattern for fences, in both directions. */
  lemma FenceExactly(line: string, marker: string)
    ensures MatchFence(line) == Some(marker) <==> HasFenceForm(line, marker)
  {
    if HasFenceForm(line, marker) {
      var space, rest :| FenceParts(line, space, marker, rest);
      FormIsFence(line, space, marker, rest);
    }
    if MatchFence(line) == Some(marker) {
      var space, rest := FenceHasForm(line);
    }
  }

  /** A line that closes the fence opened by `marker`: the same character, at least as often. */
  ghost predicate IsClosing(line: string, marker: string) {
    exists own :: HasFenceForm(line, own) && marker != "" && own[0] == marker[0] && |own| >= |marker|
  }

  /** Line `i` opens a fence with `marker` that no line before `j` closes. */
  ghost predicate OpenSince(lines: seq<string>, i: nat, j: nat, marker: string) {
    && i < j <= |lines|
    && FenceBefore(lines, i).None? && HasFenceForm(lines[i], marker)
    && forall k :: i < k < j ==> !IsClosing(lines[k], marker)
  }

  lemma ClosingExactly(line: string, marker: Marker)
    ensures IsClosing(line, marker) <==> MatchFence(line).Some? && Closes(MatchFence(line).value, marker)
  {
    if IsClosing(line, marker) {
      var own :| HasFenceForm(line, own) && own[0] == marker[0] && |own| >= |marker|;
      FenceExactly(line, own);
    }
    if MatchFence(line).Some? {
      FenceExactly(line, MatchFence(line).value);
    }
  }

  /** Before line `j` a fence is open exactly when some earlier line opened it and no line since has closed it. */
  lemma {:induction false} FenceIsOpenSince(lines: seq<string>, j: nat, marker: Marker)
    requires j <= |lines|
    ensures FenceBefore(lines, j) == Some(marker) <==> exists i :: OpenSince(lines, i, j, marker)
  {
    hide MatchFence, HasFenceForm, IsClosing, Closes;
    if j > 0 {
      var line := lines[j - 1];
      FenceIsOpenSince(lines, j - 1, marker);
      FenceExactly(line, marker);
      ClosingExactly(line, marker);
      if i: nat :| OpenSince(lines, i, j, marker) && i < j - 1 {
        assert OpenSince(lines, i, j - 1, marker);
      }
      if FenceBefore(lines, j) == Some(marker) {
        if FenceBefore(lines, j - 1).None? {
          assert OpenSince(lines, j - 1, j, marker);
        } else {
          var i :| OpenSince(lines, i, j - 1, marker);
          assert OpenSince(lines, i, j, marker);
        }
      }
    }
  }
}

/** The heading path of a section, read off the hashes of the document's lines. */
module SectionPaths {
  import opened Common
  import opened Text
  import opened Markdown
  import opened Outline
  import opened LineForms

  /** The unfenced heading lines among the first `n`. */
  function HeadingLines(lines: seq<string>, n: nat): seq<nat>
    requires n <= |lines|
  {
    if n == 0 then []
    else HeadingLines(lines, n - 1) + if IsHeadingLine(lines, n - 1) then [n - 1] else []
  }

  /** The hashes that each of them starts with. */
  function HashCounts(lines: seq<string>, n: nat): (levels: seq<int>)
    requires n <= |lines|
  {
    if n == 0 then []
    else HashCounts(lines, n - 1) + if IsHeadingLine(lines, n - 1) then [HashRun(lines[n - 1])] else []
  }

  ghost predicate AreHeadingLines(lines: seq<string>, n: nat, positions: seq<nat>)
    requires n <= |lines|
  {
    && (forall j :: 0 <= j < |positions| ==> positions[j] < n && IsHeadingLine(lines, positions[j]))
    && (forall j, k :: 0 <= j < k < |positions| ==> positions[j] < positions[k])
    && (forall i :: 0 <= i < n && IsHeadingLine(lines, i) ==> i in positions)
  }

  lemma {:induction false} HeadingLinesAre(lines: seq<string>, n: nat)
    requires n <= |lines|
    ensures AreHeadingLines(lines, n, HeadingLines(lines, n))
  {
    if n > 0 {
      HeadingLinesAre(lines, n - 1);
      hide IsHeadingLine, AreHeadingLines;
      NextHeadingLine(lines, n - 1, HeadingLines(lines, n - 1));
    } else {
      assert AreHeadingLines(lines, 0, []);
    }
  }

  lemma NextHeadingLine(lines: seq<string>, n: nat, positions: seq<nat>)
    requires n < |lines| && AreHeadingLines(lines, n, positions)
    ensures AreHeadingLines(lines, n + 1, positions + if IsHeadingLine(lines, n) then [n] else [])
  {
    hide IsHeadingLine;
    if IsHeadingLine(lines, n) {
      var next := positions + [n];
      forall i | 0 <= i < n + 1 && IsHeadingLine(lines, i) ensures i in next {
        assert i < n ==> i in positions;
      }
    }
  }

  /** The title of the document's line `i` as a heading. */
  ghost predicate Titled(lines: seq<string>, i: nat, title: string) {
    i < |lines| && HasHeadingForm(lines[i], HashRun(lines[i]), title)
  }

  /** The headings that the parser collects are those lines, with their hashes and titles. */
  ghost predicate HeadingsAre(lines: seq<string>, positions: seq<nat>, levels: seq<int>, hs: seq<Heading>) {
    && |positions| == |levels| == |hs| && Levels(hs) == levels && Positive(levels)
    && forall j :: 0 <= j < |hs| ==> Titled(lines, positions[j], hs[j].title)
  }

  lemma HeadingsSnoc(lines: seq<string>, positions: seq<nat>, levels: seq<int>, hs: seq<Heading>, i: nat, h: Heading)
    requires HeadingsAre(lines, positions, levels, hs) && i < |lines|
    requires h.level == HashRun(lines[i]) && h.level >= 1 && Titled(lines, i, h.title)
    ensures HeadingsAre(lines, positions + [i], levels + [HashRun(lines[i])], hs + [h])
  {
    hide Titled;
  }

  lemma {:induction false} HeadingsByLines(lines: seq<string>, n: nat)
    requires n <= |lines|
    ensures HeadingsAre(lines, HeadingLines(lines, n), HashCounts(lines, n), HeadingsBefore(lines, n))
  {
    if n > 0 {
      HeadingsByLines(lines, n - 1);
      hide HeadingsAre, ParseHeading, FenceBefore, HashRun, Titled;
      if IsHeadingLine(lines, n - 1) {
        LevelIsHashes(lines[n - 1]);
        TitleOfLine(lines, n - 1);
        HeadingsSnoc(lines, HeadingLines(lines, n - 1), HashCounts(lines, n - 1), HeadingsBefore(lines, n - 1), n - 1,
                     ParseHeading(lines[n - 1]).value);
      }
    }
  }

  lemma TitleOfLine(lines: seq<string>, i: nat)
    requires i < |lines| && ParseHeading(lines[i]).Some?
    ensures Titled(lines, i, ParseHeading(lines[i]).value.title)
  {
    LevelIsHashes(lines[i]);
  }

  lemma LevelIsHashes(line: string)
    requires ParseHeading(line).Some?
    ensures ParseHeading(line).value.level == HashRun(line) && 1 <= HashRun(line) <= 6
    ensures HasHeadingForm(line, HashRun(line), ParseHeading(line).value.title)
  {
    HeadingHasForm(line);
    var h := ParseHeading(line).value;
    var space, end :| HeadingParts(line, h.level, space, h.title, end);
    assert line[h.level] == space[0];
    HashRunCounts(line, h.level);
  }

  // ---------- depths ----------

  /** How deep heading `n` ends up: as deep as its level says, but at most one below the heading before it. */
  function Depth(levels: seq<int>, n: nat): (d: nat)
    requires n < |levels|
  {
    var own := Max(levels[n] - 1, 0);
    if n == 0 then 0 else Min(own, Depth(levels, n - 1) + 1)
  }

  /** Heading `p` is the last one up to `n` at depth `d`; all after it are deeper. */
  ghost predicate LastAtDepth(levels: seq<int>, n: nat, p: nat, d: nat)
    requires n < |levels|
  {
    && p <= n && Depth(levels, p) == d
    && forall j :: p < j <= n ==> Depth(levels, j) > d
  }

  /** `stack` holds for each depth the last heading at it. */
  ghost predicate HoldsLast(levels: seq<int>, n: nat, stack: seq<nat>)
    requires n < |levels|
  {
    && |stack| == Depth(levels, n) + 1
    && forall d :: 0 <= d < |stack| ==> LastAtDepth(levels, n, stack[d], d)
  }

  lemma {:induction false} StackByDepth(levels: seq<int>, n: nat)
    requires n < |levels|
    ensures HoldsLast(levels, n, Stack(levels, n + 1))
  {
    var stack := Stack(levels, n + 1);
    if n > 0 {
      StackByDepth(levels, n - 1);
      var before := Stack(levels, n);
      assert |stack| == Depth(levels, n) + 1;
      forall d | 0 <= d < |stack| - 1 ensures LastAtDepth(levels, n, stack[d], d) {
        assert stack[d] == before[d] && LastAtDepth(levels, n - 1, before[d], d);
      }
    } else {
      assert Stack(levels, 0) == [];
    }
  }

  // ---------- sections ----------

  /** `path` has one title for each depth down to that of the last heading before line `n`, and the title at each depth
      is that of the last heading line at this depth. */
  ghost predicate PathByDepth(lines: seq<string>, n: nat, path: seq<string>)
    requires n <= |lines|
  {
    var positions, levels := HeadingLines(lines, n), HashCounts(lines, n);
    && |positions| == |levels|
    && if levels == [] then path == []
       else
         exists stack: seq<nat> ::
           && |stack| == |path| && HoldsLast(levels, |levels| - 1, stack)
           && forall d :: 0 <= d < |path| ==> Titled(lines, positions[stack[d]], path[d])
  }

  lemma SectionPathByHashes(lines: seq<string>, span: Span, section: Section)
    requires SectionOf(lines, span, section)
    ensures AreHeadingLines(lines, span.start, HeadingLines(lines, span.start))
    ensures PathByDepth(lines, span.start, section.headingPath)
  {
    var positions, levels, hs := HeadingLines(lines, span.start), HashCounts(lines, span.start), HeadingsBefore(lines, span.start);
    HeadingLinesAre(lines, span.start);
    HeadingsByLines(lines, span.start);
    HeadingPathIsStack(hs, |hs|);
    assert hs[..|hs|] == hs;
    hide HeadingLines, HashCounts, HeadingsBefore, HeadingPath, Titled, AreHeadingLines, HoldsLast, Positive;
    if levels != [] {
      var stack := Stack(levels, |levels|);
      StackByDepth(levels, |levels| - 1);
      hide Stack;
      LastsAreWithin(levels, |levels| - 1, stack);
    }
  }

  lemma LastsAreWithin(levels: seq<int>, n: nat, stack: seq<nat>)
    requires n < |levels| && HoldsLast(levels, n, stack)
    ensures forall d :: 0 <= d < |stack| ==> stack[d] <= n
  {
    hide Depth;
  }

  /** The chain of headings that enclose the last one before line `n`, and its titles. */
  ghost predicate PathIsChain(lines: seq<string>, n: nat, path: seq<string>)
    requires n <= |lines|
  {
    var positions, levels := HeadingLines(lines, n), HashCounts(lines, n);
    && |positions| == |levels| && levels != []
    && var chain := Enclosing(levels, |levels| - 1);
      && |path| == |chain| == levels[|levels| - 1]
      && forall k :: 0 <= k < |chain| ==> levels[chain[k]] == k + 1 && Titled(lines, positions[chain[k]], path[k])
  }

  /** When no level is skipped, the path names the enclosing headings, whose hashes count 1, 2, 3, ... */
  lemma SectionPathIsChain(lines: seq<string>, span: Span, section: Section)
    requires SectionOf(lines, span, section)
    requires HashCounts(lines, span.start) != [] && NoSkips(HashCounts(lines, span.start))
    ensures PathIsChain(lines, span.start, section.headingPath)
  {
    var positions, levels, hs := HeadingLines(lines, span.start), HashCounts(lines, span.start), HeadingsBefore(lines, span.start);
    assert section.headingPath == HeadingPath(hs);
    hide *;
    HeadingsByLines(lines, span.start);
    LevelsAre(lines, positions, levels, hs);
    NoSkipsHeadingPath(hs);
    NoSkipsOpenChain(levels, |levels|);
    LastChain(levels);
    ChainTitles(lines, positions, levels, hs, Enclosing(levels, |levels| - 1));
    PathIsChainFrom(lines, span.start, section.headingPath);
  }

  lemma LevelsAre(lines: seq<string>, positions: seq<nat>, levels: seq<int>, hs: seq<Heading>)
    requires HeadingsAre(lines, positions, levels, hs)
    ensures |positions| == |levels| == |hs| && Levels(hs) == levels && Positive(levels)
  {
  }

  lemma LastChain(levels: seq<int>)
    requires levels != []
    ensures OpenChain(levels, |levels|) == Enclosing(levels, |levels| - 1)
  {
  }

  ghost predicate TitlesOfChain(lines: seq<string>, positions: seq<nat>, levels: seq<int>, chain: seq<nat>, path: seq<string>) {
    && |path| == |chain| && |positions| == |levels|
    && forall k :: 0 <= k < |chain| ==>
         chain[k] < |levels| && levels[chain[k]] == k + 1 && Titled(lines, positions[chain[k]], path[k])
  }

  lemma ChainTitles(lines: seq<string>, positions: seq<nat>, levels: seq<int>, hs: seq<Heading>, chain: seq<nat>)
    requires HeadingsAre(lines, positions, levels, hs)
    requires (forall k :: 0 <= k < |chain| ==> chain[k] < |levels|) && Contiguous(levels, chain)
    ensures TitlesOfChain(lines, positions, levels, chain, Titles(hs, chain))
  {
    hide Titled;
  }

  lemma PathIsChainFrom(lines: seq<string>, n: nat, path: seq<string>)
    requires n <= |lines|
    requires var levels := HashCounts(lines, n);
      && levels != [] && |Enclosing(levels, |levels| - 1)| == levels[|levels| - 1]
      && TitlesOfChain(lines, HeadingLines(lines, n), levels, Enclosing(levels, |levels| - 1), path)
    ensures PathIsChain(lines, n, path)
  {
    hide HeadingLines, HashCounts, Titled, Enclosing;
  }

  /** The document's own title is that of its first unfenced heading, if it has one. */
  lemma DocumentTitle(lines: seq<string>)
    ensures var title, positions := FirstTitle(HeadingsBefore(lines, |lines|)), HeadingLines(lines, |lines|);
      && (title.None? <==> positions == [])
      && (title.Some? ==> Titled(lines, positions[0], title.value))
  {
    HeadingsByLines(lines, |lines|);
    hide HeadingLines, HashCounts, HeadingsBefore, Titled;
  }
}
