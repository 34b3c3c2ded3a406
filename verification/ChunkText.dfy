/** Cutting a text at blank lines and joining the pieces again. */
module BlankLineRoundTrip {
  import opened Common
  import opened Text
  import opened BlankLineSplitting

  // ---------- blank lines ----------

  /** Two newlines with nothing but whitespace from the one to the other. */
  predicate BlankLineAt(s: string, i: nat, j: nat) {
    i < j < |s| && s[i] == '\n' && s[j] == '\n' && forall k :: i < k < j ==> IsSpace(s[k])
  }

  ghost predicate NoBlankLine(s: string) {
    forall i: nat, j: nat :: !BlankLineAt(s, i, j)
  }

  predicate TextBefore(s: string, i: int) {
    exists k :: 0 <= k < i && k < |s| && !IsSpace(s[k])
  }

  predicate TextAfter(s: string, i: nat) {
    exists k :: i < k < |s| && !IsSpace(s[k])
  }

  /** No newline before the first text. */
  ghost predicate OpenStart(s: string) {
    forall i :: 0 <= i < |s| && s[i] == '\n' ==> TextBefore(s, i)
  }

  /** No newline behind the last text. */
  ghost predicate OpenEnd(s: string) {
    forall i :: 0 <= i < |s| && s[i] == '\n' ==> TextAfter(s, i)
  }

  // ---------- matches ----------

  /** Without a newline up to the next text there is no longer match. */
  lemma {:induction false} MatchEndStays(s: string, from: nat, best: Option<nat>, to: nat)
    requires from <= to <= |s| && (forall k :: from <= k < to ==> s[k] != '\n') && (to < |s| ==> !IsSpace(s[to]))
    ensures MatchEnd(s, from, best) == best
    decreases |s| - from
  {
    if from < to && IsSpace(s[from]) {
      MatchEndStays(s, from + 1, best, to);
    }
  }

  lemma {:induction false} MatchEndKeeps(s: string, from: nat, best: Option<nat>)
    requires from <= |s| && best.Some? && best.value <= from
    ensures MatchEnd(s, from, best).Some? && MatchEnd(s, from, best).value >= best.value
    decreases |s| - from
  {
    if from < |s| && IsSpace(s[from]) {
      MatchEndKeeps(s, from + 1, if s[from] == '\n' then Some(from + 1) else best);
    }
  }

  /** A newline that only whitespace separates from here is a match. */
  lemma {:induction false} MatchEndFinds(s: string, from: nat, best: Option<nat>, p: nat)
    requires from <= p < |s| && s[p] == '\n' && forall k :: from <= k < p ==> IsSpace(s[k])
    ensures MatchEnd(s, from, best).Some?
    decreases |s| - from
  {
    if from == p {
      MatchEndKeeps(s, from + 1, Some(from + 1));
    } else {
      MatchEndFinds(s, from + 1, if s[from] == '\n' then Some(from + 1) else best, p);
    }
  }

  /** The match is as long as can be: behind it no newline comes before the next text. */
  lemma {:induction false} MatchEndIsLast(s: string, from: nat, best: Option<nat>, p: nat)
    requires from <= |s| && MatchEnd(s, from, best).Some? && (best.Some? ==> best.value <= from)
    requires MatchEnd(s, from, best).value <= p < |s| && from <= p && s[p] == '\n'
    ensures exists k :: from <= k < p && MatchEnd(s, from, best).value <= k && !IsSpace(s[k])
    decreases |s| - from
  {
    if from == p {
      MatchEndKeeps(s, from + 1, Some(from + 1));
      assert false;
    } else if IsSpace(s[from]) {
      MatchEndIsLast(s, from + 1, if s[from] == '\n' then Some(from + 1) else best, p);
    }
  }

  /** The next match is the leftmost one: no newline before it starts one. */
  lemma {:induction false} NextMatchIsFirst(s: string, from: nat, i: nat)
    requires from <= i < |s| && s[i] == '\n'
    requires NextMatch(s, from).Some? ==> i < NextMatch(s, from).value.0
    ensures MatchEnd(s, i + 1, None).None?
    decreases |s| - from
  {
    if from < i && !(s[from] == '\n' && MatchEnd(s, from + 1, None).Some?) {
      NextMatchIsFirst(s, from + 1, i);
    }
  }

  /** Before the next match there is no blank line, and behind the last text before it no newline. */
  lemma BeforeMatch(s: string, start: nat)
    requires start <= |s| && (if NextMatch(s, 0).Some? then start == NextMatch(s, 0).value.0 else start == |s|)
    ensures NoBlankLine(s[..start])
    ensures start < |s| && s[start] == '\n' ==> OpenEnd(s[..start])
  {
    hide MatchEnd, NextMatch;
    var t := s[..start];
    forall i: nat, j: nat ensures !BlankLineAt(t, i, j) {
      if BlankLineAt(t, i, j) {
        NextMatchIsFirst(s, 0, i);
        assert forall k :: i < k < j ==> s[k] == t[k];
        MatchEndFinds(s, i + 1, None, j);
        assert false;
      }
    }
    if start < |s| && s[start] == '\n' {
      forall i | 0 <= i < |t| && t[i] == '\n' ensures TextAfter(t, i) {
        if !TextAfter(t, i) {
          NextMatchIsFirst(s, 0, i);
          assert forall k :: i < k < start ==> s[k] == t[k] && IsSpace(t[k]);
          MatchEndFinds(s, i + 1, None, start);
          assert false;
        }
      }
    }
  }

  lemma {:induction false} MatchStarts(s: string, from: nat)
    requires from <= |s| && NextMatch(s, from).Some?
    ensures var m := NextMatch(s, from).value;
      from <= m.0 < |s| && s[m.0] == '\n' && MatchEnd(s, m.0 + 1, None) == Some(m.1)
    decreases |s| - from
  {
    if !(s[from] == '\n' && MatchEnd(s, from + 1, None).Some?) {
      MatchStarts(s, from + 1);
    }
  }

  /** Behind a match there is no newline before the next text. */
  lemma AfterMatch(s: string)
    requires NextMatch(s, 0).Some?
    ensures NextMatch(s, 0).value.1 <= |s| && OpenStart(s[NextMatch(s, 0).value.1..])
  {
    NextMatchIsBlank(s, 0);
    MatchStarts(s, 0);
    var (start, end) := NextMatch(s, 0).value;
    hide MatchEnd, NextMatch;
    var t := s[end..];
    forall i | 0 <= i < |t| && t[i] == '\n' ensures TextBefore(t, i) {
      MatchEndIsLast(s, start + 1, None, end + i);
      var k :| start + 1 <= k < end + i && end <= k && !IsSpace(s[k]);
      assert t[k - end] == s[k];
    }
  }

  // ---------- the pieces ----------

  /** Pieces of a text cut at its blank lines. */
  ghost predicate Pieces(parts: seq<string>) {
    && (forall k :: 0 <= k < |parts| ==> NoBlankLine(parts[k]))
    && (forall k :: 0 < k < |parts| ==> OpenStart(parts[k]))
    && (forall k :: 0 <= k < |parts| - 1 ==> OpenEnd(parts[k]))
  }

  lemma PiecesCons(part: string, rest: seq<string>)
    requires NoBlankLine(part) && Pieces(rest) && (rest != [] ==> OpenEnd(part) && OpenStart(rest[0]))
    ensures Pieces([part] + rest)
  {
    hide NoBlankLine, OpenStart, OpenEnd;
  }

  lemma PiecesTail(parts: seq<string>)
    requires Pieces(parts) && parts != []
    ensures Pieces(parts[1..]) && NoBlankLine(parts[0])
    ensures |parts| > 1 ==> OpenEnd(parts[0]) && OpenStart(parts[1])
  {
    hide NoBlankLine, OpenStart, OpenEnd;
  }

  lemma {:induction false} SplitPartsShape(s: string)
    ensures var parts := SplitParts(s);
      parts != [] && Pieces(parts) && (OpenStart(s) ==> OpenStart(parts[0]))
    decreases |s|
  {
    NextMatchIsBlank(s, 0);
    match NextMatch(s, 0)
    case None =>
      BeforeMatch(s, |s|);
      assert s[..|s|] == s;
    case Some((start, end)) =>
      MatchStarts(s, 0);
      BeforeMatch(s, start);
      AfterMatch(s);
      hide NextMatch, MatchEnd;
      SplitPartsShape(s[end..]);
      if OpenStart(s) {
        OpenPrefix(s, start);
      }
      hide NoBlankLine, OpenStart, OpenEnd, Pieces;
      PiecesCons(s[..start], SplitParts(s[end..]));
  }

  lemma OpenPrefix(s: string, n: nat)
    requires n <= |s| && OpenStart(s)
    ensures OpenStart(s[..n])
  {
    var t := s[..n];
    forall i | 0 <= i < |t| && t[i] == '\n' ensures TextBefore(t, i) {
      assert TextBefore(s, i);
      var k :| 0 <= k < i && !IsSpace(s[k]);
      assert t[k] == s[k];
    }
  }

  // ---------- blocks ----------

  /** A piece with text and without newlines at its ends. */
  predicate Solid(part: string) {
    part != "" && !Blank(part) && part[0] != '\n' && part[|part| - 1] != '\n'
  }

  ghost predicate AllSolid(parts: seq<string>) {
    forall k :: 0 <= k < |parts| ==> Solid(parts[k])
  }

  lemma StripIsSlice(s: string) returns (i: nat, j: nat)
    ensures i <= j <= |s| && StripNewlines(s) == s[i..j]
    ensures (forall k :: 0 <= k < i ==> s[k] == '\n') && (forall k :: j <= k < |s| ==> s[k] == '\n')
    ensures i < j ==> s[i] != '\n' && s[j - 1] != '\n'
  {
    i := LeadingNewlines(s);
    LeadingNewlinesAreNewlines(s);
    TrailingNewlinesAreNewlines(s[i..]);
    hide LeadingNewlines, TrailingNewlines;
    j := |s| - TrailingNewlines(s[i..]);
    var front := s[i..];
    assert forall k :: i <= k < |s| ==> s[k] == front[k - i];
  }

  lemma BlankLineOfSlice(s: string, i: nat, j: nat, a: nat, b: nat)
    requires i <= j <= |s| && BlankLineAt(s[i..j], a, b)
    ensures BlankLineAt(s, a + i, b + i)
  {
    var t := s[i..j];
    forall k | a + i < k < b + i ensures IsSpace(s[k]) {
      assert t[k - i] == s[k];
    }
  }

  /** Stripping newlines makes a piece with text solid and spoils nothing. */
  lemma StrippedPiece(part: string)
    requires !Blank(part) && NoBlankLine(part)
    ensures var t := StripNewlines(part);
      && Solid(t) && NoBlankLine(t)
      && (OpenStart(part) ==> OpenStart(t)) && (OpenEnd(part) ==> OpenEnd(t))
  {
    var i, j := StripIsSlice(part);
    hide StripNewlines;
    var t := part[i..j];
    var x :| 0 <= x < |part| && !IsSpace(part[x]);
    assert i <= x < j && t[x - i] == part[x];
    forall a: nat, b: nat ensures !BlankLineAt(t, a, b) {
      if BlankLineAt(t, a, b) {
        BlankLineOfSlice(part, i, j, a, b);
        assert false;
      }
    }
    if OpenStart(part) {
      OpenStartSlice(part, i, j);
    }
    if OpenEnd(part) {
      OpenEndSlice(part, i, j);
    }
  }

  lemma OpenStartSlice(s: string, i: nat, j: nat)
    requires OpenStart(s) && i <= j <= |s| && forall k :: 0 <= k < i ==> s[k] == '\n'
    ensures OpenStart(s[i..j])
  {
    var t := s[i..j];
    forall a | 0 <= a < |t| && t[a] == '\n' ensures TextBefore(t, a) {
      assert TextBefore(s, a + i);
      var k :| 0 <= k < a + i && !IsSpace(s[k]);
      assert k >= i && t[k - i] == s[k];
    }
  }

  lemma OpenEndSlice(s: string, i: nat, j: nat)
    requires OpenEnd(s) && i <= j <= |s| && forall k :: j <= k < |s| ==> s[k] == '\n'
    ensures OpenEnd(s[i..j])
  {
    var t := s[i..j];
    forall a | 0 <= a < |t| && t[a] == '\n' ensures TextAfter(t, a) {
      assert TextAfter(s, a + i);
      var k :| a + i < k < |s| && !IsSpace(s[k]);
      assert k < j && t[k - i] == s[k];
    }
  }

  lemma {:induction false} KeptShape(parts: seq<string>)
    requires Pieces(parts)
    ensures Pieces(Kept(parts)) && AllSolid(Kept(parts))
    ensures parts != [] && OpenStart(parts[0]) && Kept(parts) != [] ==> OpenStart(Kept(parts)[0])
  {
    hide NoBlankLine, OpenStart, OpenEnd, Pieces, Solid, Blank, StripNewlines;
    if parts == [] {
      NoPieces();
    } else {
      PiecesTail(parts);
      KeptShape(parts[1..]);
      if !Blank(parts[0]) {
        StrippedPiece(parts[0]);
        assert Kept(parts[1..]) != [] ==> |parts| > 1 && parts[1..][0] == parts[1];
        PiecesCons(StripNewlines(parts[0]), Kept(parts[1..]));
      } else {
        assert Kept(parts) == Kept(parts[1..]);
        assert Kept(parts) != [] ==> |parts| > 1 && parts[1..][0] == parts[1];
      }
    }
  }

  lemma NoPieces()
    ensures Pieces([])
  {
  }

  /** The blocks of a section that is cut at blank lines. */
  lemma BlocksAreSolidPieces(sectionText: string)
    ensures Pieces(BlankLineBlocks(sectionText)) && AllSolid(BlankLineBlocks(sectionText))
  {
    SplitPartsShape(sectionText);
    KeptShape(SplitParts(sectionText));
    hide *;
  }

  // ---------- joining and cutting again ----------

  lemma {:induction false} NextMatchFrom(s: string, from: nat, start: nat)
    requires from <= start <= |s|
    requires forall i :: from <= i < start && s[i] == '\n' ==> MatchEnd(s, i + 1, None).None?
    ensures NextMatch(s, from) == NextMatch(s, start)
    decreases |s| - from
  {
    if from < start {
      NextMatchFrom(s, from + 1, start);
    }
  }

  /** Up to its own end no newline of `a` starts a match. */
  lemma NoMatchWithin(a: string, s: string, i: nat)
    requires a <= s && i < |a| && a[i] == '\n' && NoBlankLine(a) && TextAfter(a, i)
    ensures MatchEnd(s, i + 1, None).None?
  {
    var k := FirstText(a, i + 1);
    assert forall x :: 0 <= x < |a| ==> s[x] == a[x];
    forall x | i + 1 <= x < k ensures s[x] != '\n' {
      assert !BlankLineAt(a, i, x);
    }
    MatchEndStays(s, i + 1, None, k);
  }

  lemma {:induction false} FirstText(s: string, from: nat) returns (k: nat)
    requires from <= |s| && exists x :: from <= x < |s| && !IsSpace(s[x])
    ensures from <= k < |s| && !IsSpace(s[k]) && forall x :: from <= x < k ==> IsSpace(s[x])
    decreases |s| - from
  {
    k := from;
    if IsSpace(s[from]) {
      k := FirstText(s, from + 1);
    }
  }

  /** The empty line is the match. */
  lemma EmptyLineMatches(s: string, n: nat, b: string)
    requires n + 2 <= |s| && s[n] == '\n' && s[n + 1] == '\n' && s[n + 2..] == b && OpenStart(b) && !Blank(b)
    ensures MatchEnd(s, n + 1, None) == Some(n + 2)
  {
    var k := FirstText(b, 0);
    forall x | n + 2 <= x < n + 2 + k ensures s[x] != '\n' {
      assert s[x] == b[x - n - 2];
      assert b[x - n - 2] == '\n' ==> TextBefore(b, x - n - 2);
    }
    assert s[n + 2 + k] == b[k];
    MatchEndStays(s, n + 2, Some(n + 2), n + 2 + k);
  }

  lemma CutAt(s: string, n: nat)
    requires n < |s| && s[n] == '\n' && n + 2 <= |s| && MatchEnd(s, n + 1, None) == Some(n + 2)
    requires forall i :: 0 <= i < n && s[i] == '\n' ==> MatchEnd(s, i + 1, None).None?
    ensures SplitParts(s) == [s[..n]] + SplitParts(s[n + 2..])
  {
    NextMatchFrom(s, 0, n);
    hide MatchEnd;
  }

  /** A piece, an empty line, and a text that starts without a newline: the cut goes through the empty line. */
  lemma CutAtEmptyLine(a: string, b: string)
    requires NoBlankLine(a) && OpenEnd(a) && OpenStart(b) && !Blank(b)
    ensures SplitParts(a + "\n\n" + b) == [a] + SplitParts(b)
  {
    hide MatchEnd, SplitParts, NoBlankLine, OpenStart, Blank;
    var s := a + "\n\n" + b;
    var n := |a|;
    assert a <= s && s[n] == '\n' && s[n + 1] == '\n' && s[n + 2..] == b && s[..n] == a;
    forall i | 0 <= i < n && s[i] == '\n' ensures MatchEnd(s, i + 1, None).None? {
      assert a[i] == s[i] && TextAfter(a, i);
      NoMatchWithin(a, s, i);
    }
    hide OpenEnd;
    EmptyLineMatches(s, n, b);
    CutAt(s, n);
  }

  lemma NotCut(a: string)
    requires NoBlankLine(a)
    ensures SplitParts(a) == [a]
  {
    if NextMatch(a, 0).Some? {
      NextMatchIsBlank(a, 0);
      MatchStarts(a, 0);
      var (start, end) := NextMatch(a, 0).value;
      MatchEndIsNewline(a, start + 1, start + 1, None);
      assert a[end - 1] == '\n';
      assert forall k :: start < k < end ==> a[k] == a[start..end][k - start];
      assert BlankLineAt(a, start, end - 1);
    }
  }

  lemma JoinStarts(parts: seq<string>)
    requires parts != [] && OpenStart(parts[0]) && !Blank(parts[0])
    ensures OpenStart(Join("\n\n", parts)) && !Blank(Join("\n\n", parts))
  {
    var p, s := parts[0], Join("\n\n", parts);
    assert p <= s;
    var x :| 0 <= x < |p| && !IsSpace(p[x]);
    assert s[x] == p[x];
    forall i | 0 <= i < |s| && s[i] == '\n' ensures TextBefore(s, i) {
      if i < |p| {
        assert s[i] == p[i] && TextBefore(p, i);
        var k :| 0 <= k < i && k < |p| && !IsSpace(p[k]);
        assert s[k] == p[k];
      }
    }
  }

  /** Cutting undoes joining. */
  lemma {:induction false} CutUndoesJoin(parts: seq<string>)
    requires Pieces(parts) && AllSolid(parts) && parts != []
    ensures SplitParts(Join("\n\n", parts)) == parts
  {
    PiecesTail(parts);
    if |parts| == 1 {
      NotCut(parts[0]);
    } else {
      assert AllSolid(parts[1..]) && Solid(parts[1]);
      CutUndoesJoin(parts[1..]);
      hide NoBlankLine, OpenStart, OpenEnd, Pieces, SplitParts, Blank;
      JoinStarts(parts[1..]);
      CutAtEmptyLine(parts[0], Join("\n\n", parts[1..]));
      assert parts == [parts[0]] + parts[1..];
    }
  }

  lemma {:induction false} KeptSolid(parts: seq<string>)
    requires AllSolid(parts)
    ensures Kept(parts) == parts
  {
    hide Blank, StripNewlines;
    if parts != [] {
      assert Solid(parts[0]) && AllSolid(parts[1..]);
      KeptSolid(parts[1..]);
      StripNewlinesIdentity(parts[0]);
    }
  }

  /** Solid pieces joined by empty lines come back as they were. */
  lemma BlocksComeBack(parts: seq<string>)
    requires Pieces(parts) && AllSolid(parts) && parts != []
    ensures BlankLineBlocks(Join("\n\n", parts)) == parts
  {
    CutUndoesJoin(parts);
    KeptSolid(parts);
    hide *;
  }
}

/** What a packed chunk looks like: its blocks, apart by empty lines. */
module ChunkTexts {
  import opened Common
  import opened Text
  import opened Markdown
  import opened Blocks
  import opened Packing
  import opened Chunking
  import opened BlankLineRoundTrip
  import BlankLineSplitting

  // ---------- lines of joined texts ----------

  /** A text that starts without a newline and ends without a line break. */
  predicate Firm(part: string) {
    part != "" && part[0] != '\n' && !IsLineBreak(part[|part| - 1])
  }

  ghost predicate AllFirm(parts: seq<string>) {
    forall k :: 0 <= k < |parts| ==> Firm(parts[k])
  }

  /** The lines of all parts, with exactly one empty line between neighbours. */
  function SpacedLines(parts: seq<string>): seq<string> {
    if parts == [] then []
    else if |parts| == 1 then SplitLines(parts[0], false)
    else SplitLines(parts[0], false) + [""] + SpacedLines(parts[1..])
  }

  lemma FirstOfLonger(a: string, b: string)
    requires a != "" && !IsLineBreak(a[|a| - 1])
    ensures var s := a + "\n\n" + b;
      if BreakAt(a) == |a| then SplitLines(s, false) == [a, ""] + SplitLines(b, false) && SplitLines(a, false) == [a]
      else
        var n := NextLine(a);
        && n < |a| && SplitLines(s, false) == [a[..BreakAt(a)]] + SplitLines(a[n..] + "\n\n" + b, false)
        && SplitLines(a, false) == [a[..BreakAt(a)]] + SplitLines(a[n..], false)
  {
    var s, i := a + "\n\n" + b, BreakAt(a);
    BreakAtEnds(a);
    assert forall k :: 0 <= k < |a| ==> s[k] == a[k];
    assert s[|a|] == '\n' && s[|a| + 1] == '\n';
    BreakAtUnique(s, i);
    if i == |a| {
      WholeLine(a, b);
    } else {
      assert NextLine(s) == NextLine(a) < |a|;
      assert s[NextLine(a)..] == a[NextLine(a)..] + "\n\n" + b && s[..i] == a[..i];
    }
  }

  lemma WholeLine(a: string, b: string)
    requires a != "" && OneLine(a)
    ensures SplitLines(a + "\n\n" + b, false) == [a, ""] + SplitLines(b, false)
    ensures SplitLines(a, false) == [a]
  {
    OneLineAlone(a);
    hide *;
    Regroup(a, b);
    NothingIsOneLine();
    SplitFirstLine(a, "\n" + b);
    SplitFirstLine("", b);
  }

  lemma NothingIsOneLine()
    ensures OneLine("")
  {
  }

  lemma Regroup(a: string, b: string)
    ensures a + "\n" + ("\n" + b) == a + "\n\n" + b && "" + "\n" + b == "\n" + b
  {
  }

  lemma OneLineAlone(a: string)
    requires a != "" && OneLine(a)
    ensures SplitLines(a, false) == [a]
  {
    BreakAtUnique(a, |a|);
    assert a[..|a|] == a && a[|a|..] == "" && SplitLines("", false) == [];
  }

  lemma {:induction false} SplitAround(a: string, b: string)
    requires a != "" && !IsLineBreak(a[|a| - 1])
    ensures SplitLines(a + "\n\n" + b, false) == SplitLines(a, false) + [""] + SplitLines(b, false)
    decreases |a|
  {
    hide SplitLines;
    FirstOfLonger(a, b);
    if BreakAt(a) < |a| {
      SplitAround(a[NextLine(a)..], b);
    }
  }

  lemma {:induction false} SplitSpaced(parts: seq<string>)
    requires AllFirm(parts) && parts != []
    ensures SplitLines(Join("\n\n", parts), false) == SpacedLines(parts)
    ensures Firm(Join("\n\n", parts))
  {
    hide SplitLines;
    if |parts| > 1 {
      assert Firm(parts[0]) && AllFirm(parts[1..]);
      SplitSpaced(parts[1..]);
      SplitAround(parts[0], Join("\n\n", parts[1..]));
    }
  }

  // ---------- the blocks of a split that preserves fences ----------

  lemma {:induction false} JoinIsFirm(lines: seq<string>)
    requires SingleLines(lines) && lines != [] && lines[0] != "" && lines[|lines| - 1] != ""
    ensures Firm(Join("\n", lines))
  {
    LastOfJoin(lines);
    JoinEnds(lines);
    assert OneLine(lines[0]);
  }

  lemma {:induction false} LastOfJoin(lines: seq<string>)
    requires SingleLines(lines) && lines != [] && lines[|lines| - 1] != ""
    ensures var s := Join("\n", lines); s != "" && !IsLineBreak(s[|s| - 1])
  {
    if |lines| == 1 {
      assert OneLine(lines[0]);
    } else {
      LastOfJoin(lines[1..]);
    }
  }

  /** Stripping an unclosed fence takes away its empty lines at the end. */
  lemma {:induction false} StripUnclosed(lines: seq<string>)
    requires SingleLines(lines) && lines != [] && lines[0] != ""
    ensures UsedLines(lines) > 0
    ensures StripNewlines(Join("\n", lines)) == Join("\n", lines[..UsedLines(lines)])
  {
    var last := |lines| - 1;
    if lines[last] != "" {
      JoinEnds(lines);
      StripNewlinesIdentity(Join("\n", lines));
      assert lines[..|lines|] == lines;
    } else {
      var shorter := lines[..last];
      assert lines == shorter + [""];
      JoinSnocEmpty(shorter);
      JoinFirstCharacter(shorter);
      StripTrailingNewline(Join("\n", shorter));
      StripUnclosed(shorter);
      assert lines[..UsedLines(lines)] == shorter[..UsedLines(shorter)];
    }
  }

  /** A block is its own lines up to the last one with text, joined. */
  lemma SourceIsFirm(lines: seq<string>, s: Source)
    requires SingleLines(lines) && IsSource(lines, s)
    ensures Firm(SourceText(lines, s))
    ensures var own := lines[s.start..s.end]; SplitLines(SourceText(lines, s), false) == own[..UsedLines(own)]
  {
    FirstLineIsNotBlank(lines, s);
    var own := lines[s.start..s.end];
    assert own[0] == lines[s.start] && own[0] != "";
    hide IsSource, Blank, UsedLines;
    OwnLinesAreSingle(lines, s.start, s.end);
    StripUnclosed(own);
    UnclosedLines(own);
    UsedIsFirm(own);
  }

  lemma OwnLinesAreSingle(lines: seq<string>, i: nat, j: nat)
    requires SingleLines(lines) && i <= j <= |lines|
    ensures SingleLines(lines[i..j])
  {
  }

  lemma UsedIsFirm(own: seq<string>)
    requires SingleLines(own) && own != [] && own[0] != "" && UsedLines(own) > 0
    ensures Firm(Join("\n", own[..UsedLines(own)]))
  {
    var n := UsedLines(own);
    hide UsedLines;
    OwnLinesAreSingle(own, 0, n);
    assert own[0..n] == own[..n];
    JoinIsFirm(own[..n]);
  }

  // ---------- the carried text ----------

  lemma {:induction false} JoinedWords(words: seq<string>)
    requires words != [] && forall k :: 0 <= k < |words| ==> IsWord(words[k])
    ensures var s := Join(" ", words);
      s != "" && !IsSpace(s[0]) && !IsSpace(s[|s| - 1]) && '\n' !in s
  {
    if |words| > 1 {
      JoinedWords(words[1..]);
    }
    assert IsWord(words[0]);
  }

  /** Its whitespace is single spaces between texts. */
  ghost predicate SingleSpaced(s: string) {
    forall i :: 0 <= i < |s| && IsSpace(s[i]) ==> s[i] == ' ' && i + 1 < |s| && !IsSpace(s[i + 1])
  }

  lemma {:induction false} JoinedWordsSpacing(words: seq<string>)
    requires forall k :: 0 <= k < |words| ==> IsWord(words[k])
    ensures SingleSpaced(Join(" ", words))
  {
    if |words| > 1 {
      JoinedWordsSpacing(words[1..]);
      JoinedWords(words[1..]);
      assert IsWord(words[0]);
      SpacedWord(words[0], Join(" ", words[1..]));
    } else if |words| == 1 {
      assert IsWord(words[0]);
    }
  }

  lemma SpacedWord(word: string, rest: string)
    requires IsWord(word) && SingleSpaced(rest) && rest != "" && !IsSpace(rest[0])
    ensures SingleSpaced(word + " " + rest)
  {
    var s := word + " " + rest;
    forall i | 0 <= i < |s| && IsSpace(s[i]) ensures s[i] == ' ' && i + 1 < |s| && !IsSpace(s[i + 1]) {
      if i > |word| {
        assert s[i] == rest[i - |word| - 1];
      }
    }
  }

  /** The carried text is the last tokens of the chunk before, one space apart. */
  lemma CarryIsSpacedTokens(text: string, overlapTokens: int)
    ensures SingleSpaced(TailTokens(text, overlapTokens))
    ensures Tokens(TailTokens(text, overlapTokens)) == Tail(Tokens(text), Max(overlapTokens, 0))
  {
    TailTokensAreTokens(text, overlapTokens);
    if overlapTokens > 0 {
      var tail := Tail(Tokens(text), overlapTokens);
      TokensAreWords(text);
      forall k | 0 <= k < |tail| ensures IsWord(tail[k]) {
        assert tail[k] in Tokens(text);
      }
      JoinedWordsSpacing(tail);
    }
  }

  lemma CarryIsOneLine(text: string, overlapTokens: int)
    ensures var c := TailTokens(text, overlapTokens); c != "" ==> !IsSpace(c[0]) && !IsSpace(c[|c| - 1]) && '\n' !in c
  {
    if overlapTokens > 0 {
      var tail := Tail(Tokens(text), overlapTokens);
      TokensAreWords(text);
      forall k | 0 <= k < |tail| ensures IsWord(tail[k]) {
        assert tail[k] in Tokens(text);
      }
      if tail != [] {
        JoinedWords(tail);
      }
    }
  }

  // ---------- the packed chunks ----------

  lemma {:induction false} BlocksAreFirm(lines: seq<string>, sources: seq<Source>, blocks: seq<string>, limit: nat)
    requires SingleLines(lines) && BlocksOf(lines, sources, blocks, limit)
    ensures AllFirm(blocks)
  {
    hide *;
    LastBlock(lines, sources, blocks, limit);
    if sources != [] {
      var n := |sources| - 1;
      SourceIsFirm(lines, sources[n]);
      BlocksAreFirm(lines, sources[..n], blocks[..n], sources[n].start);
      FirmSnoc(blocks);
    } else {
      NothingIsFirm();
    }
  }

  lemma LastBlock(lines: seq<string>, sources: seq<Source>, blocks: seq<string>, limit: nat)
    requires BlocksOf(lines, sources, blocks, limit)
    ensures |sources| == |blocks|
    ensures sources != [] ==>
      var n := |sources| - 1;
      IsSource(lines, sources[n]) && blocks[n] == SourceText(lines, sources[n])
      && BlocksOf(lines, sources[..n], blocks[..n], sources[n].start)
  {
  }

  lemma FirmSnoc(parts: seq<string>)
    requires parts != [] && AllFirm(parts[..|parts| - 1]) && Firm(parts[|parts| - 1])
    ensures AllFirm(parts)
  {
    hide Firm;
    assert parts == parts[..|parts| - 1] + [parts[|parts| - 1]];
  }

  lemma NothingIsFirm()
    ensures AllFirm([])
  {
  }

  /** Each block of a preserving split is its stretch of the section's lines, up to the last one with text. */
  lemma BlockIsItsLines(cfg: Budget, sectionText: string, c: SectionChunks, m: nat)
    requires cfg.preserveCodeBlocks && ChunksOf(cfg, sectionText, c) && m < |c.blocks|
    ensures m < |c.sources| && c.sources[m].start < c.sources[m].end <= |SplitLines(sectionText, false)|
    ensures var own := SplitLines(sectionText, false)[c.sources[m].start..c.sources[m].end];
      SplitLines(c.blocks[m], false) == own[..UsedLines(own)]
  {
    var lines := SplitLines(sectionText, false);
    EachLineIsSingle(sectionText);
    assert BlocksOf(lines, c.sources, c.blocks, |lines|);
    BlockAt(lines, c.sources, c.blocks, |lines|, m);
    SourceIsFirm(lines, c.sources[m]);
  }

  /** A chunk after another one starts behind the first block. */
  lemma {:induction false} LaterPieceStartsLater(cfg: Budget, blocks: seq<string>, plan: seq<Piece>, chunks: seq<string>, upTo: nat, k: nat)
    requires PlanOf(cfg, blocks, plan, chunks, upTo) && k < |plan|
    ensures k > 0 ==> plan[k].start > 0
  {
    hide PieceText, Follows, NoneStands;
    var n := |plan| - 1;
    if k < n {
      LaterPieceStartsLater(cfg, blocks, plan[..n], chunks[..n], plan[n].start, k);
    } else if k > 0 {
      assert plan[..n][n - 1] == plan[n - 1];
    }
  }

  lemma CarriedFirm(carry: string, blocks: seq<string>, i: nat, j: nat)
    requires AllFirm(blocks) && i < j <= |blocks|
    requires carry != "" ==> !IsSpace(carry[0]) && !IsSpace(carry[|carry| - 1])
    ensures AllFirm(Carried(carry, blocks[i..j])) && Carried(carry, blocks[i..j]) != []
  {
  }

  lemma CarriedPieces(carry: string, blocks: seq<string>, i: nat, j: nat)
    requires Pieces(blocks) && AllSolid(blocks) && i < j <= |blocks|
    requires carry != "" ==> i > 0 && !IsSpace(carry[0]) && !IsSpace(carry[|carry| - 1]) && '\n' !in carry
    ensures var parts := Carried(carry, blocks[i..j]); Pieces(parts) && AllSolid(parts) && parts != []
  {
    var own := blocks[i..j];
    PiecesSlice(blocks, i, j);
    if carry != "" {
      NoNewlineNoCut(carry);
      hide NoBlankLine, OpenStart, OpenEnd, Pieces;
      PiecesCons(carry, own);
    }
  }

  lemma NoNewlineNoCut(s: string)
    requires '\n' !in s
    ensures NoBlankLine(s) && OpenStart(s) && OpenEnd(s)
  {
  }

  lemma PiecesSlice(blocks: seq<string>, i: nat, j: nat)
    requires Pieces(blocks) && AllSolid(blocks) && i < j <= |blocks|
    ensures Pieces(blocks[i..j]) && AllSolid(blocks[i..j]) && (i > 0 ==> OpenStart(blocks[i..j][0]))
  {
    hide NoBlankLine, OpenStart, OpenEnd, Solid;
  }

  lemma RenderedIsJoined(parts: seq<string>)
    requires parts != [] && (AllFirm(parts) || (Pieces(parts) && AllSolid(parts)))
    ensures Rendered(parts) == Join("\n\n", parts)
  {
    JoinedEnds(parts);
    StripNewlinesIdentity(Join("\n\n", parts));
  }

  lemma {:induction false} JoinedEnds(parts: seq<string>)
    requires parts != [] && (AllFirm(parts) || AllSolid(parts))
    ensures var s := Join("\n\n", parts); s != "" && s[0] != '\n' && s[|s| - 1] != '\n'
  {
    assert AllFirm(parts) ==> Firm(parts[0]);
    assert AllSolid(parts) ==> Solid(parts[0]);
    if |parts| > 1 {
      assert AllFirm(parts) ==> AllFirm(parts[1..]);
      assert AllSolid(parts) ==> AllSolid(parts[1..]);
      JoinedEnds(parts[1..]);
    }
  }

  /** The carried text, if there is one, and the blocks of a packed chunk. */
  function PartsOf(c: SectionChunks, k: nat): seq<string>
    requires k < |c.plan| && c.plan[k].Packed? && c.plan[k].start < c.plan[k].end <= |c.blocks|
  {
    Carried(c.plan[k].carry, c.blocks[c.plan[k].start..c.plan[k].end])
  }

  lemma PackedChunk(cfg: Budget, sectionText: string, c: SectionChunks, k: nat)
    requires ChunksOf(cfg, sectionText, c) && k < |c.plan| && c.plan[k].Packed?
    ensures k < |c.texts| && c.plan[k].start < c.plan[k].end <= |c.blocks|
    ensures c.texts[k] == Rendered(PartsOf(c, k))
    ensures var carry := c.plan[k].carry;
      carry != "" ==> c.plan[k].start > 0 && !IsSpace(carry[0]) && !IsSpace(carry[|carry| - 1]) && '\n' !in carry
  {
    assert PlanOf(cfg, c.blocks, c.plan, c.texts, |c.blocks|) && |c.plan| == |c.texts|;
    hide PlanOf, ChunksOf, NoneStands, TailTokens, TokenCount, Rendered, Follows;
    PlanAt(cfg, c.blocks, c.plan, c.texts, |c.blocks|, k);
    PlanCarry(cfg, c.blocks, c.plan, c.texts, |c.blocks|, k);
    LaterPieceStartsLater(cfg, c.blocks, c.plan, c.texts, |c.blocks|, k);
    if k > 0 {
      CarryIsOneLine(c.texts[k - 1], cfg.overlapTokens);
    }
  }

  /** With code preservation, the lines of a packed chunk are those of the carried text and of each of its blocks, in
      order, with exactly one empty line between neighbours. */
  lemma PackedChunkLines(cfg: Budget, sectionText: string, c: SectionChunks, k: nat)
    requires cfg.preserveCodeBlocks && ChunksOf(cfg, sectionText, c) && k < |c.plan| && c.plan[k].Packed?
    ensures k < |c.texts| && c.plan[k].start < c.plan[k].end <= |c.blocks|
    ensures SplitLines(c.texts[k], false) == SpacedLines(PartsOf(c, k))
  {
    var lines := SplitLines(sectionText, false);
    assert BlocksOf(lines, c.sources, c.blocks, |lines|);
    PackedChunk(cfg, sectionText, c, k);
    hide *;
    EachLineIsSingle(sectionText);
    BlocksAreFirm(lines, c.sources, c.blocks, |lines|);
    PartsAre(c, k);
    CarriedFirm(c.plan[k].carry, c.blocks, c.plan[k].start, c.plan[k].end);
    RenderedIsJoined(PartsOf(c, k));
    SplitSpaced(PartsOf(c, k));
  }

  lemma PartsAre(c: SectionChunks, k: nat)
    requires k < |c.plan| && c.plan[k].Packed? && c.plan[k].start < c.plan[k].end <= |c.blocks|
    ensures PartsOf(c, k) == Carried(c.plan[k].carry, c.blocks[c.plan[k].start..c.plan[k].end])
  {
  }

  /** Without it, cutting a packed chunk at its blank lines gives back the carried text and its blocks. */
  lemma PackedChunkParts(cfg: Budget, sectionText: string, c: SectionChunks, k: nat)
    requires !cfg.preserveCodeBlocks && ChunksOf(cfg, sectionText, c) && k < |c.plan| && c.plan[k].Packed?
    ensures k < |c.texts| && c.plan[k].start < c.plan[k].end <= |c.blocks|
    ensures BlankLineSplitting.BlankLineBlocks(c.texts[k]) == PartsOf(c, k)
  {
    assert c.blocks == BlankLineSplitting.BlankLineBlocks(sectionText);
    PackedChunk(cfg, sectionText, c, k);
    hide *;
    BlocksAreSolidPieces(sectionText);
    PartsAre(c, k);
    CarriedPieces(c.plan[k].carry, c.blocks, c.plan[k].start, c.plan[k].end);
    RenderedIsJoined(PartsOf(c, k));
    BlocksComeBack(PartsOf(c, k));
  }

  // ---------- where a chunk of the document comes from ----------

  function ChunksBefore(plans: seq<SectionChunks>, s: nat): nat
    requires s <= |plans|
  {
    if s == 0 then 0 else ChunksBefore(plans, s - 1) + |plans[s - 1].texts|
  }

  lemma {:induction false} NumberedChunkAt(section: Section, texts: seq<string>, includeHeadingPath: bool, k: nat)
    requires k < |texts|
    ensures |NumberedChunks(section, texts, includeHeadingPath)| == |texts|
    ensures NumberedChunks(section, texts, includeHeadingPath)[k] == MakeChunk(section, texts[k], k, includeHeadingPath)
  {
    hide MakeChunk;
    var n := |texts| - 1;
    if k < n {
      NumberedChunkAt(section, texts[..n], includeHeadingPath, k);
    } else if n > 0 {
      NumberedChunkAt(section, texts[..n], includeHeadingPath, n - 1);
    }
  }

  /** The chunk at a place of the document: the next text of its section, with that section's heading path and index. */
  ghost predicate ComesFrom(sections: seq<Section>, plans: seq<SectionChunks>, chunk: MarkdownChunk, k: nat, includeHeadingPath: bool,
                            s: nat, i: nat) {
    && s < |sections| && |plans| == |sections| && i < |plans[s].texts|
    && k == ChunksBefore(plans, s) + i
    && chunk.text == plans[s].texts[i] && chunk.chunkIndex == i && chunk.sectionIndex == sections[s].sectionIndex
    && chunk.headingPath == (if includeHeadingPath then sections[s].headingPath else [])
    && chunk.approximateTokenCount == |Tokens(plans[s].texts[i])|
  }

  lemma {:induction false} ChunksBeforeOfPrefix(plans: seq<SectionChunks>, n: nat, s: nat)
    requires s <= n <= |plans|
    ensures ChunksBefore(plans[..n], s) == ChunksBefore(plans, s)
  {
    if s > 0 {
      ChunksBeforeOfPrefix(plans, n, s - 1);
    }
  }

  lemma OwnChunkFrom(section: Section, texts: seq<string>, includeHeadingPath: bool, i: nat)
    requires i < |texts|
    ensures |NumberedChunks(section, texts, includeHeadingPath)| == |texts|
    ensures var chunk := NumberedChunks(section, texts, includeHeadingPath)[i];
      && chunk.text == texts[i] && chunk.chunkIndex == i && chunk.sectionIndex == section.sectionIndex
      && chunk.headingPath == (if includeHeadingPath then section.headingPath else [])
      && chunk.approximateTokenCount == |Tokens(texts[i])|
  {
    NumberedChunkAt(section, texts, includeHeadingPath, i);
    hide NumberedChunks;
  }

  lemma {:induction false} ChunkOrigin(
    cfg: Budget, sections: seq<Section>, plans: seq<SectionChunks>, chunks: seq<MarkdownChunk>, includeHeadingPath: bool, k: nat
  )
    returns (s: nat, i: nat)
    requires ChunksOfDocument(cfg, sections, plans, chunks, includeHeadingPath) && k < |chunks|
    ensures |chunks| == ChunksBefore(plans, |plans|)
    ensures ComesFrom(sections, plans, chunks[k], k, includeHeadingPath, s, i)
  {
    hide ChunksOf, NumberedChunks;
    var n := |sections| - 1;
    var own := NumberedChunks(sections[n], plans[n].texts, includeHeadingPath);
    var m := |chunks| - |own|;
    DocumentSize(cfg, sections[..n], plans[..n], chunks[..m], includeHeadingPath);
    DocumentSize(cfg, sections, plans, chunks, includeHeadingPath);
    ChunksBeforeOfPrefix(plans, n, n);
    if k < m {
      s, i := ChunkOrigin(cfg, sections[..n], plans[..n], chunks[..m], includeHeadingPath, k);
      ChunksBeforeOfPrefix(plans, n, s);
    } else {
      s, i := n, k - m;
      NumberedLength(sections[n], plans[n].texts, includeHeadingPath);
      OwnChunkFrom(sections[n], plans[n].texts, includeHeadingPath, i);
      assert chunks[k] == chunks[m..][i];
    }
  }

  lemma NumberedLength(section: Section, texts: seq<string>, includeHeadingPath: bool)
    ensures |NumberedChunks(section, texts, includeHeadingPath)| == |texts|
  {
    if texts != [] {
      NumberedChunkAt(section, texts, includeHeadingPath, 0);
    }
  }

  lemma {:induction false} DocumentSize(
    cfg: Budget, sections: seq<Section>, plans: seq<SectionChunks>, chunks: seq<MarkdownChunk>, includeHeadingPath: bool
  )
    requires ChunksOfDocument(cfg, sections, plans, chunks, includeHeadingPath)
    ensures |chunks| == ChunksBefore(plans, |plans|)
  {
    hide ChunksOf, NumberedChunks;
    if sections != [] {
      var n := |sections| - 1;
      var own := NumberedChunks(sections[n], plans[n].texts, includeHeadingPath);
      NumberedLength(sections[n], plans[n].texts, includeHeadingPath);
      DocumentSize(cfg, sections[..n], plans[..n], chunks[..|chunks| - |own|], includeHeadingPath);
      ChunksBeforeOfPrefix(plans, n, n);
    }
  }
}
