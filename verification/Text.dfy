/** Strings as the ingestion code sees them: Python's whitespace, tokens, stripping, joining and lines. */
module Text {

  // ---------- characters ----------

  /** The characters at which `str.splitlines` ends a line. */
  predicate IsLineBreak(c: char) {
    || '\n' <= c <= '\r'
    || '\U{1C}' <= c <= '\U{1E}'
    || c == '\U{85}'
    || c == '\U{2028}'
    || c == '\U{2029}'
  }

  /** The characters that `str.isspace`, `str.split` and the pattern `\s` treat as whitespace. */
  predicate IsSpace(c: char) {
    || IsLineBreak(c)
    || c == '\t'
    || c == '\U{1F}'
    || c == ' '
    || c == '\U{A0}'
    || c == '\U{1680}'
    || '\U{2000}' <= c <= '\U{200A}'
    || c == '\U{202F}'
    || c == '\U{205F}'
    || c == '\U{3000}'
  }

  predicate Blank(s: string) {
    forall i :: 0 <= i < |s| ==> IsSpace(s[i])
  }

  /** No character of `s` would end a line. */
  predicate OneLine(s: string) {
    forall i :: 0 <= i < |s| ==> !IsLineBreak(s[i])
  }

  lemma SliceSnoc<T>(s: seq<T>, i: nat, j: nat)
    requires i <= j < |s|
    ensures s[i..j + 1] == s[i..j] + [s[j]]
  {
  }

  // ---------- tokens ----------

  /** Length of the longest prefix without whitespace. */
  function WordLength(s: string): (n: nat)
    ensures n <= |s|
  {
    if s == "" || IsSpace(s[0]) then 0 else 1 + WordLength(s[1..])
  }

  lemma {:induction false} WordLengthEnds(s: string)
    ensures forall i :: 0 <= i < WordLength(s) ==> !IsSpace(s[i])
    ensures WordLength(s) < |s| ==> IsSpace(s[WordLength(s)])
  {
    if s != "" && !IsSpace(s[0]) {
      WordLengthEnds(s[1..]);
    }
  }

  lemma {:induction false} WordLengthUnique(s: string, n: nat)
    requires n <= |s|
    requires forall i :: 0 <= i < n ==> !IsSpace(s[i])
    requires n < |s| ==> IsSpace(s[n])
    ensures WordLength(s) == n
  {
    if n > 0 {
      WordLengthUnique(s[1..], n - 1);
    }
  }

  /** The maximal whitespace-free runs of `s`, in order: `str.split()`, or all matches of `\S+`. */
  function Tokens(s: string): seq<string> {
    if s == "" then []
    else if IsSpace(s[0]) then Tokens(s[1..])
    else
      var n := WordLength(s);
      [s[..n]] + Tokens(s[n..])
  }

  function TokenCount(s: string): nat {
    |Tokens(s)|
  }

  /** The tokens of several texts, one text after the other. */
  function AllTokens(parts: seq<string>): seq<string> {
    if parts == [] then [] else Tokens(parts[0]) + AllTokens(parts[1..])
  }

  /** No token can span the border between `a` and `b`. */
  predicate Separated(a: string, b: string) {
    a == "" || b == "" || IsSpace(a[|a| - 1]) || IsSpace(b[0])
  }

  /** The first word of `a` is that of `a + b`. */
  lemma FirstWordOfAppend(a: string, b: string)
    requires Separated(a, b) && a != "" && !IsSpace(a[0])
    ensures var n := WordLength(a); n > 0 && (a + b)[..n] == a[..n] && (a + b)[n..] == a[n..] + b
    ensures WordLength(a + b) == WordLength(a)
  {
    WordLengthEnds(a);
    WordLengthUnique(a + b, WordLength(a));
  }

  lemma {:induction false} TokensAppend(a: string, b: string)
    requires Separated(a, b)
    ensures Tokens(a + b) == Tokens(a) + Tokens(b)
    decreases |a|
  {
    if a == "" {
      assert a + b == b;
    } else if IsSpace(a[0]) {
      assert (a + b)[1..] == a[1..] + b;
      TokensAppend(a[1..], b);
    } else {
      var n := WordLength(a);
      FirstWordOfAppend(a, b);
      TokensAppend(a[n..], b);
    }
  }

  lemma {:induction false} TokensOfBlank(s: string)
    ensures Blank(s) <==> Tokens(s) == []
    decreases |s|
  {
    if s != "" && IsSpace(s[0]) {
      TokensOfBlank(s[1..]);
      assert s == [s[0]] + s[1..];
    }
  }

  lemma TokensDropBlankEnds(pre: string, core: string, post: string)
    requires Blank(pre) && Blank(post)
    ensures Tokens(pre + core + post) == Tokens(core)
  {
    TokensOfBlank(pre);
    TokensOfBlank(post);
    TokensAppend(pre, core);
    TokensAppend(pre + core, post);
  }

  lemma {:induction false} AllTokensAppend(a: seq<string>, b: seq<string>)
    ensures AllTokens(a + b) == AllTokens(a) + AllTokens(b)
  {
    if a == [] {
      assert a + b == b;
    } else {
      assert (a + b)[1..] == a[1..] + b;
      AllTokensAppend(a[1..], b);
    }
  }

  lemma AllTokensSnoc(a: seq<string>, s: string)
    ensures AllTokens(a + [s]) == AllTokens(a) + Tokens(s)
  {
    AllTokensAppend(a, [s]);
    assert AllTokens([s]) == Tokens(s) + AllTokens([]);
  }

  /** A word is a token on its own. */
  predicate IsWord(s: string) {
    s != "" && forall i :: 0 <= i < |s| ==> !IsSpace(s[i])
  }

  lemma {:induction false} TokensAreWords(s: string)
    ensures forall t :: t in Tokens(s) ==> IsWord(t)
    decreases |s|
  {
    if s == "" {
    } else if IsSpace(s[0]) {
      TokensAreWords(s[1..]);
    } else {
      WordLengthEnds(s);
      TokensAreWords(s[WordLength(s)..]);
    }
  }

  lemma TokenOfWord(w: string)
    requires IsWord(w)
    ensures Tokens(w) == [w]
  {
    WordLengthUnique(w, |w|);
    assert w[..|w|] == w && w[|w|..] == "";
    assert Tokens(w) == [w] + Tokens("");
  }

  lemma {:induction false} AllTokensOfWords(ws: seq<string>)
    requires forall w :: w in ws ==> IsWord(w)
    ensures AllTokens(ws) == ws
  {
    if ws != [] {
      assert ws[0] in ws;
      TokenOfWord(ws[0]);
      AllTokensOfWords(ws[1..]);
    }
  }

  // ---------- stripping ----------

  /** Number of leading newlines. */
  function LeadingNewlines(s: string): (n: nat)
    ensures n <= |s|
  {
    if s == "" || s[0] != '\n' then 0 else 1 + LeadingNewlines(s[1..])
  }

  /** Number of trailing newlines. */
  function TrailingNewlines(s: string): (n: nat)
    ensures n <= |s|
  {
    if s == "" || s[|s| - 1] != '\n' then 0 else 1 + TrailingNewlines(s[..|s| - 1])
  }

  lemma {:induction false} LeadingNewlinesAreNewlines(s: string)
    ensures forall i :: 0 <= i < LeadingNewlines(s) ==> s[i] == '\n'
    ensures LeadingNewlines(s) < |s| ==> s[LeadingNewlines(s)] != '\n'
  {
    if s != "" && s[0] == '\n' {
      LeadingNewlinesAreNewlines(s[1..]);
    }
  }

  lemma {:induction false} TrailingNewlinesAreNewlines(s: string)
    ensures forall i :: |s| - TrailingNewlines(s) <= i < |s| ==> s[i] == '\n'
    ensures TrailingNewlines(s) < |s| ==> s[|s| - TrailingNewlines(s) - 1] != '\n'
  {
    if s != "" && s[|s| - 1] == '\n' {
      TrailingNewlinesAreNewlines(s[..|s| - 1]);
    }
  }

  /** `s.strip("\n")` */
  function StripNewlines(s: string): string {
    var front := s[LeadingNewlines(s)..];
    front[..|front| - TrailingNewlines(front)]
  }

  lemma TokensStripNewlines(s: string)
    ensures Tokens(StripNewlines(s)) == Tokens(s)
  {
    var n := LeadingNewlines(s);
    var front := s[n..];
    var m := |front| - TrailingNewlines(front);
    LeadingNewlinesAreNewlines(s);
    TrailingNewlinesAreNewlines(front);
    assert s == s[..n] + front[..m] + front[m..];
    TokensDropBlankEnds(s[..n], front[..m], front[m..]);
  }

  lemma StripNewlinesIdentity(s: string)
    requires s != "" ==> s[0] != '\n' && s[|s| - 1] != '\n'
    ensures StripNewlines(s) == s
  {
    assert s[0..] == s;
  }

  /** `s.strip()` */
  function Strip(s: string): string
    decreases |s|
  {
    if s == "" then ""
    else if IsSpace(s[0]) then Strip(s[1..])
    else if IsSpace(s[|s| - 1]) then Strip(s[..|s| - 1])
    else s
  }

  // ---------- joining ----------

  /** `sep.join(parts)` */
  function Join(sep: string, parts: seq<string>): string {
    if parts == [] then ""
    else if |parts| == 1 then parts[0]
    else parts[0] + sep + Join(sep, parts[1..])
  }

  lemma {:induction false} TokensOfJoin(sep: string, parts: seq<string>)
    requires sep != "" && Blank(sep)
    ensures Tokens(Join(sep, parts)) == AllTokens(parts)
  {
    if parts == [] {
    } else if |parts| == 1 {
      assert AllTokens(parts[1..]) == [];
    } else {
      var rest := Join(sep, parts[1..]);
      TokensOfJoin(sep, parts[1..]);
      TokensOfBlank(sep);
      TokensAppend(sep, rest);
      TokensAppend(parts[0], sep + rest);
      assert parts[0] + sep + rest == parts[0] + (sep + rest);
    }
  }

  /** `"".join(parts)` */
  function Flatten(parts: seq<string>): string {
    if parts == [] then "" else parts[0] + Flatten(parts[1..])
  }

  // ---------- lines ----------

  /** Position of the first line break, or the length of `s`. */
  function BreakAt(s: string): (i: nat)
    ensures i <= |s|
  {
    if s == "" || IsLineBreak(s[0]) then 0 else 1 + BreakAt(s[1..])
  }

  lemma {:induction false} BreakAtEnds(s: string)
    ensures forall i :: 0 <= i < BreakAt(s) ==> !IsLineBreak(s[i])
    ensures BreakAt(s) < |s| ==> IsLineBreak(s[BreakAt(s)])
  {
    if s != "" && !IsLineBreak(s[0]) {
      BreakAtEnds(s[1..]);
    }
  }

  /** Where the line after the first one starts; a carriage return and a newline are one break. */
  function NextLine(s: string): (n: nat)
    ensures BreakAt(s) <= n <= |s|
    ensures s != "" ==> n > 0
  {
    var i := BreakAt(s);
    if i == |s| then i
    else if s[i] == '\r' && i + 1 < |s| && s[i + 1] == '\n' then i + 2
    else i + 1
  }

  /** `s.splitlines(keepends=keepEnds)` */
  function SplitLines(s: string, keepEnds: bool): seq<string>
    decreases |s|
  {
    if s == "" then []
    else [s[..if keepEnds then NextLine(s) else BreakAt(s)]] + SplitLines(s[NextLine(s)..], keepEnds)
  }

  lemma FirstLineTokens(s: string)
    requires s != ""
    ensures Tokens(s) == Tokens(s[..NextLine(s)]) + Tokens(s[NextLine(s)..])
    ensures Tokens(s[..NextLine(s)]) == Tokens(s[..BreakAt(s)])
  {
    var i, n := BreakAt(s), NextLine(s);
    BreakAtEnds(s);
    assert s == s[..n] + s[n..];
    TokensAppend(s[..n], s[n..]);
    assert s[..n] == "" + s[..i] + s[i..n];
    TokensDropBlankEnds("", s[..i], s[i..n]);
  }

  lemma {:induction false} LinesKeepTokens(s: string, keepEnds: bool)
    ensures AllTokens(SplitLines(s, keepEnds)) == Tokens(s)
    decreases |s|
  {
    if s != "" {
      LinesKeepTokens(s[NextLine(s)..], keepEnds);
      FirstLineTokens(s);
    }
  }

  lemma {:induction false} LinesAreSingle(s: string)
    ensures forall line :: line in SplitLines(s, false) ==> OneLine(line)
    decreases |s|
  {
    if s != "" {
      BreakAtEnds(s);
      LinesAreSingle(s[NextLine(s)..]);
    }
  }

  /** Splitting off the first line of a text that starts with a complete line. */
  lemma SplitFirstLine(line: string, rest: string)
    requires OneLine(line)
    ensures SplitLines(line + "\n" + rest, false) == [line] + SplitLines(rest, false)
  {
    var s := line + "\n" + rest;
    assert s[|line|] == '\n';
    assert forall k :: 0 <= k < |line| ==> s[k] == line[k];
    BreakAtUnique(s, |line|);
    assert s[..|line|] == line;
    assert s[|line| + 1..] == rest;
  }

  lemma {:induction false} BreakAtUnique(s: string, i: nat)
    requires i <= |s| && (forall k :: 0 <= k < i ==> !IsLineBreak(s[k]))
    requires i < |s| ==> IsLineBreak(s[i])
    ensures BreakAt(s) == i
  {
    if i > 0 {
      BreakAtUnique(s[1..], i - 1);
    }
  }

  /** Splitting undoes joining, provided no line holds a break and the last line is not empty. */
  lemma {:induction false} SplitJoinedLines(lines: seq<string>)
    requires forall line :: line in lines ==> OneLine(line)
    requires lines != [] ==> lines[|lines| - 1] != ""
    ensures SplitLines(Join("\n", lines), false) == lines
  {
    if lines == [] {
    } else if |lines| == 1 {
      var s := lines[0];
      assert s in lines;
      BreakAtUnique(s, |s|);
      assert s[..|s|] == s && s[|s|..] == "";
      assert SplitLines("", false) == [];
    } else {
      assert lines[0] in lines;
      SplitJoinedLines(lines[1..]);
      SplitFirstLine(lines[0], Join("\n", lines[1..]));
    }
  }

  // ---------- newline normalisation ----------

  /** Both replacements of `_normalize_newlines` in one pass: CR LF and a lone CR become LF. */
  function NormalizeNewlines(s: string): string
    decreases |s|
  {
    if s == "" then ""
    else if s[0] != '\r' then [s[0]] + NormalizeNewlines(s[1..])
    else if |s| > 1 && s[1] == '\n' then "\n" + NormalizeNewlines(s[2..])
    else "\n" + NormalizeNewlines(s[1..])
  }

  lemma {:induction false} NormalizeNewlinesKeepsTokens(s: string)
    ensures Tokens(NormalizeNewlines(s)) == Tokens(s)
    ensures forall c :: c in NormalizeNewlines(s) ==> c != '\r'
    decreases |s|
  {
    if s == "" {
    } else {
      var cut := if s[0] == '\r' && |s| > 1 && s[1] == '\n' then 2 else 1;
      var out := if s[0] == '\r' then "\n" else [s[0]];
      NormalizeNewlinesKeepsTokens(s[cut..]);
      assert s == s[..cut] + s[cut..];
      assert NormalizeNewlines(s) == out + NormalizeNewlines(s[cut..]);
      if s[0] == '\r' {
        TokensOfBlank(s[..cut]);
        TokensOfBlank(out);
        TokensAppend(s[..cut], s[cut..]);
        TokensAppend(out, NormalizeNewlines(s[cut..]));
      } else {
        assert s[..1] == [s[0]];
        FirstCharacterTokens(s[0], s[1..], NormalizeNewlines(s[1..]));
      }
    }
  }

  /** Prepending the same character keeps equal token sequences equal when the texts start alike. */
  lemma FirstCharacterTokens(c: char, a: string, b: string)
    requires Tokens(a) == Tokens(b)
    requires a == "" <==> b == ""
    requires a != "" ==> IsSpace(a[0]) == IsSpace(b[0])
    ensures Tokens([c] + a) == Tokens([c] + b)
  {
    if IsSpace(c) {
      TokensAppend([c], a);
      TokensAppend([c], b);
    } else if a == "" || IsSpace(a[0]) {
      TokensAppend([c], a);
      TokensAppend([c], b);
    } else {
      var n, m := WordLength(a), WordLength(b);
      WordLengthEnds(a);
      WordLengthEnds(b);
      WordLengthUnique([c] + a, n + 1);
      WordLengthUnique([c] + b, m + 1);
      assert ([c] + a)[..n + 1] == [c] + a[..n];
      assert ([c] + b)[..m + 1] == [c] + b[..m];
      assert ([c] + a)[n + 1..] == a[n..];
      assert ([c] + b)[m + 1..] == b[m..];
      assert Tokens(a)[0] == a[..n] && Tokens(b)[0] == b[..m];
      assert Tokens(a[n..]) == Tokens(a)[1..];
      assert Tokens(b[m..]) == Tokens(b)[1..];
    }
  }
}
