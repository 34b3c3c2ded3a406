/** Greedy packing of a section's blocks into chunks, with overlap. */
module Packing {
  import opened Common
  import opened Text
  import opened Blocks

  datatype Budget = Budget(maxTokens: int, overlapTokens: int, preserveCodeBlocks: bool)

  /** A block that becomes a chunk of its own. */
  predicate Stands(cfg: Budget, block: string) {
    cfg.preserveCodeBlocks && IsFencedCodeBlock(block)
  }

  /** `" ".join(text.split()[-overlap_tokens:])`, or nothing without a positive overlap. */
  function TailTokens(text: string, overlapTokens: int): string {
    if overlapTokens <= 0 then "" else Join(" ", Tail(Tokens(text), overlapTokens))
  }

  /** The last `n` members of `ts`, or all of them. */
  function Tail(ts: seq<string>, n: nat): seq<string> {
    ts[|ts| - Min(n, |ts|)..]
  }

  lemma TailTokensAreTokens(text: string, overlapTokens: int)
    ensures Tokens(TailTokens(text, overlapTokens)) == Tail(Tokens(text), Max(overlapTokens, 0))
  {
    if overlapTokens > 0 {
      var tail := Tail(Tokens(text), overlapTokens);
      TokensAreWords(text);
      assert forall w :: w in tail ==> w in Tokens(text);
      AllTokensOfWords(tail);
      assert Blank(" ");
      TokensOfJoin(" ", tail);
    }
  }

  /** What a chunk is made of: one closed fence, or the blocks from `start` up to `end`,
      headed by the tokens carried over from the chunk before. */
  datatype Piece =
    | Fenced(start: nat)
    | Packed(start: nat, end: nat, carry: string)
  {
    function End(): nat {
      if Fenced? then start + 1 else end
    }
  }

  function Carried(carry: string, blocks: seq<string>): seq<string> {
    (if carry == "" then [] else [carry]) + blocks
  }

  /** `"\n\n".join(current_blocks).strip("\n")` */
  function Rendered(current: seq<string>): string {
    StripNewlines(Join("\n\n", current))
  }

  function PieceText(blocks: seq<string>, p: Piece): string
    requires p.start < p.End() <= |blocks|
  {
    match p
    case Fenced(i) => blocks[i]
    case Packed(i, j, carry) => Rendered(Carried(carry, blocks[i..j]))
  }

  predicate NoneStands(cfg: Budget, blocks: seq<string>, i: nat, j: nat)
    requires i <= j <= |blocks|
  {
    i == j || (NoneStands(cfg, blocks, i, j - 1) && !Stands(cfg, blocks[j - 1]))
  }

  /** How a chunk relates to the one before it. After a packed chunk, its tail is carried over and the next
      block did not fit; at the start and after a fence nothing is carried. */
  predicate Follows(cfg: Budget, plan: seq<Piece>, chunks: seq<string>, carry: string, block: string) {
    if plan != [] && chunks != [] && plan[|plan| - 1].Packed? then
      var previous := chunks[|chunks| - 1];
      carry == TailTokens(previous, cfg.overlapTokens) && TokenCount(previous) + TokenCount(block) > cfg.maxTokens
    else
      carry == ""
  }

  /** `p` may come next after `plan`. */
  predicate Fits(cfg: Budget, blocks: seq<string>, plan: seq<Piece>, chunks: seq<string>, p: Piece) {
    && p.start < p.End() <= |blocks|
    && match p
       case Fenced(i) => Stands(cfg, blocks[i])
       case Packed(i, j, carry) =>
         && NoneStands(cfg, blocks, i, j)
         && Follows(cfg, plan, chunks, carry, blocks[i])
         && (j == i + 1 || TokenCount(PieceText(blocks, p)) <= cfg.maxTokens)
  }

  /** The chunks use up the first `upTo` blocks, each once and in order. */
  predicate PlanOf(cfg: Budget, blocks: seq<string>, plan: seq<Piece>, chunks: seq<string>, upTo: nat) {
    && |plan| == |chunks|
    && if plan == [] then upTo == 0
       else
         var n := |plan| - 1;
         && plan[n].End() == upTo
         && Fits(cfg, blocks, plan[..n], chunks[..n], plan[n])
         && chunks[n] == PieceText(blocks, plan[n])
         && PlanOf(cfg, blocks, plan[..n], chunks[..n], plan[n].start)
  }

  lemma PlanSnoc(cfg: Budget, blocks: seq<string>, plan: seq<Piece>, chunks: seq<string>, p: Piece)
    requires PlanOf(cfg, blocks, plan, chunks, p.start) && Fits(cfg, blocks, plan, chunks, p)
    ensures PlanOf(cfg, blocks, plan + [p], chunks + [PieceText(blocks, p)], p.End())
  {
    assert (plan + [p])[..|plan|] == plan;
    assert (chunks + [PieceText(blocks, p)])[..|chunks|] == chunks;
  }

  /** The first `k + 1` chunks of a plan are planned as well. */
  lemma {:induction false} PlanAt(cfg: Budget, blocks: seq<string>, plan: seq<Piece>, chunks: seq<string>, upTo: nat, k: nat)
    requires PlanOf(cfg, blocks, plan, chunks, upTo) && k < |plan|
    ensures Fits(cfg, blocks, plan[..k], chunks[..k], plan[k])
    ensures chunks[k] == PieceText(blocks, plan[k])
  {
    hide Fits, PieceText;
    var n := |plan| - 1;
    if k < n {
      PlanAt(cfg, blocks, plan[..n], chunks[..n], plan[n].start, k);
      assert plan[..n][..k] == plan[..k] && chunks[..n][..k] == chunks[..k];
    }
  }

  // ---------- tokens of a plan ----------

  lemma RenderedTokens(current: seq<string>)
    ensures Tokens(Rendered(current)) == AllTokens(current)
    ensures Tokens(Join("\n\n", current)) == AllTokens(current)
  {
    assert Blank("\n\n");
    TokensOfJoin("\n\n", current);
    TokensStripNewlines(Join("\n\n", current));
  }

  /** Number of leading tokens that a chunk repeats from the one before. */
  function Overlap(p: Piece): nat {
    if p.Packed? then TokenCount(p.carry) else 0
  }

  function Overlaps(plan: seq<Piece>): seq<nat> {
    seq(|plan|, k requires 0 <= k < |plan| => Overlap(plan[k]))
  }

  /** All tokens of the chunks, without the repeated ones. */
  function Fresh(chunks: seq<string>, overlaps: seq<nat>): seq<string>
    requires |chunks| == |overlaps|
  {
    if chunks == [] then []
    else
      var n := |chunks| - 1;
      Fresh(chunks[..n], overlaps[..n]) + Drop(Tokens(chunks[n]), overlaps[n])
  }

  function Drop(ts: seq<string>, n: nat): seq<string> {
    if n <= |ts| then ts[n..] else []
  }

  lemma PieceTokens(blocks: seq<string>, p: Piece)
    requires p.start < p.End() <= |blocks|
    ensures Drop(Tokens(PieceText(blocks, p)), Overlap(p)) == AllTokens(blocks[p.start..p.End()])
    ensures p.Packed? ==> Tokens(PieceText(blocks, p)) == Tokens(p.carry) + AllTokens(blocks[p.start..p.End()])
  {
    match p
    case Fenced(i) =>
      assert blocks[i..i + 1] == [] + [blocks[i]];
      AllTokensSnoc([], blocks[i]);
    case Packed(i, j, carry) =>
      RenderedTokens(Carried(carry, blocks[i..j]));
      if carry == "" {
        assert Carried(carry, blocks[i..j]) == blocks[i..j];
      } else {
        AllTokensAppend([carry], blocks[i..j]);
        AllTokensSnoc([], carry);
        assert [] + [carry] == [carry];
      }
  }

  /** Without the overlaps, a plan's chunks hold exactly the tokens of the blocks it uses. */
  lemma {:induction false} PlanTokens(cfg: Budget, blocks: seq<string>, plan: seq<Piece>, chunks: seq<string>, upTo: nat)
    requires PlanOf(cfg, blocks, plan, chunks, upTo)
    ensures upTo <= |blocks|
    ensures Fresh(chunks, Overlaps(plan)) == AllTokens(blocks[..upTo])
  {
    hide PieceText, Overlap, Stands, Follows;
    if plan != [] {
      var n := |plan| - 1;
      var p := plan[n];
      PlanTokens(cfg, blocks, plan[..n], chunks[..n], p.start);
      assert Overlaps(plan)[..n] == Overlaps(plan[..n]);
      PieceTokens(blocks, p);
      AllTokensAppend(blocks[..p.start], blocks[p.start..upTo]);
      assert blocks[..upTo] == blocks[..p.start] + blocks[p.start..upTo];
    }
  }

  /** The repeated tokens are the end of the chunk before: all of the allowed overlap between two packed
      chunks, none next to a fence. */
  lemma OverlapIsTail(cfg: Budget, blocks: seq<string>, plan: seq<Piece>, chunks: seq<string>, upTo: nat, k: nat)
    requires PlanOf(cfg, blocks, plan, chunks, upTo) && k < |plan|
    ensures Overlap(plan[k]) <= TokenCount(chunks[k])
    ensures if k > 0 && plan[k - 1].Packed? && plan[k].Packed?
      then
        var previous := Tokens(chunks[k - 1]);
        && Overlap(plan[k]) == Min(Max(cfg.overlapTokens, 0), |previous|)
        && Tokens(chunks[k])[..Overlap(plan[k])] == previous[|previous| - Overlap(plan[k])..]
      else Overlap(plan[k]) == 0
  {
    PlanAt(cfg, blocks, plan, chunks, upTo, k);
    PieceTokens(blocks, plan[k]);
    if plan[k].Packed? {
      PlanCarry(cfg, blocks, plan, chunks, upTo, k);
    }
    hide PlanOf, Fits, PieceText, TailTokens;
    if k > 0 && plan[k - 1].Packed? && plan[k].Packed? {
      TailTokensAreTokens(chunks[k - 1], cfg.overlapTokens);
    }
  }

  lemma PlanCarry(cfg: Budget, blocks: seq<string>, plan: seq<Piece>, chunks: seq<string>, upTo: nat, k: nat)
    requires PlanOf(cfg, blocks, plan, chunks, upTo) && k < |plan| && plan[k].Packed?
    ensures plan[k].carry ==
      if k > 0 && plan[k - 1].Packed? then TailTokens(chunks[k - 1], cfg.overlapTokens) else ""
  {
    assert |plan| == |chunks|;
    hide *;
    PlanAt(cfg, blocks, plan, chunks, upTo, k);
    assert k > 0 ==> plan[..k][k - 1] == plan[k - 1] && chunks[..k][k - 1] == chunks[k - 1];
    CarryOf(cfg, blocks, plan[..k], chunks[..k], plan[k]);
  }

  lemma CarryOf(cfg: Budget, blocks: seq<string>, plan: seq<Piece>, chunks: seq<string>, p: Piece)
    requires Fits(cfg, blocks, plan, chunks, p) && p.Packed? && |plan| == |chunks|
    ensures p.carry ==
      if plan != [] && plan[|plan| - 1].Packed? then TailTokens(chunks[|chunks| - 1], cfg.overlapTokens) else ""
  {
    hide NoneStands, PieceText, TailTokens, TokenCount;
  }

  /** A chunk is a closed fence verbatim, or within budget, or one block behind the overlap. */
  lemma ChunkBudget(cfg: Budget, blocks: seq<string>, plan: seq<Piece>, chunks: seq<string>, upTo: nat, k: nat)
    requires PlanOf(cfg, blocks, plan, chunks, upTo) && k < |plan|
    ensures match plan[k]
      case Fenced(i) => i < |blocks| && chunks[k] == blocks[i] && Stands(cfg, chunks[k])
      case Packed(i, j, carry) =>
        || TokenCount(chunks[k]) <= cfg.maxTokens
        || (j == i + 1 <= |blocks| && Tokens(chunks[k]) == Tokens(carry) + Tokens(blocks[i])
            && TokenCount(carry) <= Max(cfg.overlapTokens, 0))
  {
    PlanAt(cfg, blocks, plan, chunks, upTo, k);
    OverlapIsTail(cfg, blocks, plan, chunks, upTo, k);
    hide PlanOf, Follows, NoneStands;
    match plan[k]
    case Fenced(i) =>
    case Packed(i, j, carry) =>
      PieceTokens(blocks, plan[k]);
      if j == i + 1 {
        assert blocks[i..j] == [] + [blocks[i]];
        AllTokensSnoc([], blocks[i]);
      }
  }

  /** Packing is greedy: after a packed chunk, the first block of the next packed chunk did not fit. */
  lemma ChunksAreFull(cfg: Budget, blocks: seq<string>, plan: seq<Piece>, chunks: seq<string>, upTo: nat, k: nat)
    requires PlanOf(cfg, blocks, plan, chunks, upTo) && k + 1 < |plan|
    requires plan[k].Packed? && plan[k + 1].Packed?
    ensures plan[k + 1].start < |blocks|
    ensures TokenCount(chunks[k]) + TokenCount(blocks[plan[k + 1].start]) > cfg.maxTokens
  {
    assert |plan| == |chunks|;
    hide *;
    PlanAt(cfg, blocks, plan, chunks, upTo, k + 1);
    assert plan[..k + 1][k] == plan[k] && chunks[..k + 1][k] == chunks[k];
    NextDidNotFit(cfg, blocks, plan[..k + 1], chunks[..k + 1], plan[k + 1]);
  }

  lemma NextDidNotFit(cfg: Budget, blocks: seq<string>, plan: seq<Piece>, chunks: seq<string>, p: Piece)
    requires Fits(cfg, blocks, plan, chunks, p) && p.Packed? && plan != [] && chunks != [] && plan[|plan| - 1].Packed?
    ensures p.start < |blocks| && TokenCount(chunks[|chunks| - 1]) + TokenCount(blocks[p.start]) > cfg.maxTokens
  {
    hide NoneStands, PieceText, TailTokens, TokenCount;
  }

  lemma CurrentCount(current: seq<string>)
    ensures TokenCount(Join("\n\n", current)) == |AllTokens(current)|
  {
    RenderedTokens(current);
  }

  // ---------- the loop's invariant ----------

  /** The chunk being collected before block `i`: nothing, or the blocks since `start`. */
  predicate Collecting(
    cfg: Budget, blocks: seq<string>, plan: seq<Piece>, chunks: seq<string>, current: seq<string>,
    count: int, start: nat, i: nat, carry: string
  ) {
    && start <= i <= |blocks|
    && PlanOf(cfg, blocks, plan, chunks, start)
    && count == |AllTokens(current)|
    && if start == i then current == [] && carry == "" && (plan == [] || plan[|plan| - 1].Fenced?)
       else current == Carried(carry, blocks[start..i]) && Fits(cfg, blocks, plan, chunks, Packed(start, i, carry))
  }

  lemma CollectStart(cfg: Budget, blocks: seq<string>)
    ensures Collecting(cfg, blocks, [], [], [], 0, 0, 0, "")
  {
  }

  /** Closing the current chunk. */
  lemma CollectFlush(
    cfg: Budget, blocks: seq<string>, plan: seq<Piece>, chunks: seq<string>, current: seq<string>,
    count: int, start: nat, i: nat, carry: string
  )
    requires Collecting(cfg, blocks, plan, chunks, current, count, start, i, carry) && current != []
    ensures PlanOf(cfg, blocks, plan + [Packed(start, i, carry)], chunks + [Rendered(current)], i)
    ensures TokenCount(Rendered(current)) == count && |plan| == |chunks|
  {
    PlanSnoc(cfg, blocks, plan, chunks, Packed(start, i, carry));
    RenderedTokens(current);
  }

  lemma CollectNothing(
    cfg: Budget, blocks: seq<string>, plan: seq<Piece>, chunks: seq<string>, count: int, start: nat, i: nat, carry: string
  )
    requires Collecting(cfg, blocks, plan, chunks, [], count, start, i, carry)
    ensures PlanOf(cfg, blocks, plan, chunks, i)
  {
    hide PlanOf, Fits;
  }

  lemma CollectFence(cfg: Budget, blocks: seq<string>, plan: seq<Piece>, chunks: seq<string>, i: nat)
    requires i < |blocks| && PlanOf(cfg, blocks, plan, chunks, i) && Stands(cfg, blocks[i])
    ensures Collecting(cfg, blocks, plan + [Fenced(i)], chunks + [blocks[i]], [], 0, i + 1, i + 1, "")
  {
    PlanSnoc(cfg, blocks, plan, chunks, Fenced(i));
  }

  /** A block that stands back may start a chunk. */
  lemma SingleBlockFits(cfg: Budget, blocks: seq<string>, plan: seq<Piece>, chunks: seq<string>, i: nat, carry: string)
    requires i < |blocks| && !Stands(cfg, blocks[i]) && Follows(cfg, plan, chunks, carry, blocks[i])
    ensures Fits(cfg, blocks, plan, chunks, Packed(i, i + 1, carry))
  {
    hide Stands, Follows, PieceText;
    assert NoneStands(cfg, blocks, i, i);
  }

  /** Starting a chunk with the block that did not fit. */
  lemma CollectOverflow(cfg: Budget, blocks: seq<string>, plan: seq<Piece>, chunks: seq<string>, i: nat, carry: string)
    requires i < |blocks| && PlanOf(cfg, blocks, plan, chunks, i) && !Stands(cfg, blocks[i])
    requires plan != [] && chunks != [] && Follows(cfg, plan, chunks, carry, blocks[i])
    ensures var current := Carried(carry, [blocks[i]]);
      Collecting(cfg, blocks, plan, chunks, current, |AllTokens(current)|, i, i + 1, carry)
  {
    hide Fits, PlanOf, Follows, Carried, AllTokens, Stands;
    SingleBlockFits(cfg, blocks, plan, chunks, i, carry);
    assert blocks[i..i + 1] == [blocks[i]];
  }

  /** Adding a block to the current chunk, or starting the first one. */
  lemma CollectBlock(
    cfg: Budget, blocks: seq<string>, plan: seq<Piece>, chunks: seq<string>, current: seq<string>,
    count: int, start: nat, i: nat, carry: string
  )
    requires Collecting(cfg, blocks, plan, chunks, current, count, start, i, carry)
    requires i < |blocks| && !Stands(cfg, blocks[i])
    requires current == [] || count + TokenCount(blocks[i]) <= cfg.maxTokens
    ensures Collecting(cfg, blocks, plan, chunks, current + [blocks[i]], |AllTokens(current + [blocks[i]])|, start, i + 1, carry)
  {
    hide PlanOf, TailTokens, Rendered, Stands;
    var longer := current + [blocks[i]];
    AllTokensSnoc(current, blocks[i]);
    SliceSnoc(blocks, start, i);
    assert longer == Carried(carry, blocks[start..i + 1]);
    RenderedTokens(longer);
    assert NoneStands(cfg, blocks, start, start);
  }
}

/** The loops of `_chunk_section_text` and `chunk_markdown_sections`. */
module Chunking {
  import opened Common
  import opened Text
  import opened Markdown
  import opened Blocks
  import BlankLineSplitting
  import BlockSplitting
  import opened Packing

  /** Where the blocks of a section come from. */
  ghost predicate BlocksOfSection(cfg: Budget, sectionText: string, blocks: seq<string>, sources: seq<Source>) {
    if cfg.preserveCodeBlocks then
      var lines := SplitLines(sectionText, false);
      BlocksOf(lines, sources, blocks, |lines|)
    else
      blocks == BlankLineSplitting.BlankLineBlocks(sectionText)
  }

  method SplitBlocks(sectionText: string, cfg: Budget) returns (blocks: seq<string>, ghost sources: seq<Source>)
    ensures BlocksOfSection(cfg, sectionText, blocks, sources)
    ensures AllTokens(blocks) == Tokens(sectionText)
  {
    hide BlocksOf;
    if cfg.preserveCodeBlocks {
      blocks, sources := BlockSplitting.SplitFencedBlocks(sectionText);
    } else {
      BlankLineSplitting.BlankLineBlocksTokens(sectionText);
      blocks, sources := BlankLineSplitting.BlankLineBlocks(sectionText), [];
    }
  }

  /** In a preserving split, exactly the closed fences stand alone. */
  lemma ClosedFencesStand(cfg: Budget, sectionText: string, blocks: seq<string>, sources: seq<Source>, k: nat)
    requires cfg.preserveCodeBlocks && BlocksOfSection(cfg, sectionText, blocks, sources) && k < |blocks|
    ensures k < |sources| && (Stands(cfg, blocks[k]) <==> sources[k].ClosedFence?)
  {
    var lines := SplitLines(sectionText, false);
    BlockAt(lines, sources, blocks, |lines|, k);
    EachLineIsSingle(sectionText);
    FencedExactlyWhenClosed(lines, sources[k]);
  }

  /** How one section was chunked. */
  datatype SectionChunks = SectionChunks(texts: seq<string>, blocks: seq<string>, sources: seq<Source>, plan: seq<Piece>)
  {
    function Repeated(): seq<nat> {
      if plan == [] then seq(|texts|, _ => 0) else Overlaps(plan)
    }
  }

  /** A section within the budget stays whole; any other is packed from all its blocks. */
  ghost predicate ChunksOf(cfg: Budget, sectionText: string, c: SectionChunks) {
    && BlocksOfSection(cfg, sectionText, c.blocks, c.sources) && AllTokens(c.blocks) == Tokens(sectionText)
    && if TokenCount(sectionText) <= cfg.maxTokens || c.blocks == [] then c.texts == [sectionText] && c.plan == []
       else PlanOf(cfg, c.blocks, c.plan, c.texts, |c.blocks|)
  }

  method ChunkSectionText(sectionText: string, cfg: Budget)
    returns (chunks: seq<string>, ghost blocks: seq<string>, ghost sources: seq<Source>, ghost plan: seq<Piece>)
    ensures ChunksOf(cfg, sectionText, SectionChunks(chunks, blocks, sources, plan))
  {
    hide Stands, TokenCount, PlanOf, Collecting, Rendered, TailTokens, BlocksOfSection;
    var cut;
    cut, sources := SplitBlocks(sectionText, cfg);
    blocks, plan := cut, [];
    if TokenCount(sectionText) <= cfg.maxTokens || cut == [] {
      return [sectionText], blocks, sources, [];
    }
    chunks := [];
    var current: seq<string>, count := [], 0;
    ghost var start, carry := 0, "";
    CollectStart(cfg, cut);
    var i := 0;
    while i < |cut|
      invariant 0 <= i <= |cut|
      invariant Collecting(cfg, cut, plan, chunks, current, count, start, i, carry)
    {
      var block := cut[i];
      if Stands(cfg, block) {
        if current != [] {
          CollectFlush(cfg, cut, plan, chunks, current, count, start, i, carry);
          chunks, plan := chunks + [Rendered(current)], plan + [Packed(start, i, carry)];
        } else {
          CollectNothing(cfg, cut, plan, chunks, count, start, i, carry);
        }
        CollectFence(cfg, cut, plan, chunks, i);
        chunks, plan := chunks + [block], plan + [Fenced(i)];
        current, count, start, carry := [], 0, i + 1, "";
      } else {
        var projected := count + TokenCount(block);
        if current != [] && projected > cfg.maxTokens {
          CollectFlush(cfg, cut, plan, chunks, current, count, start, i, carry);
          var finalized := Rendered(current);
          chunks, plan := chunks + [finalized], plan + [Packed(start, i, carry)];
          var overlap := TailTokens(finalized, cfg.overlapTokens);
          current := Carried(overlap, [block]);
          CollectOverflow(cfg, cut, plan, chunks, i, overlap);
          start, carry := i, overlap;
        } else {
          CollectBlock(cfg, cut, plan, chunks, current, count, start, i, carry);
          current := current + [block];
        }
        CurrentCount(current);
        count := TokenCount(Join("\n\n", current));
      }
      i := i + 1;
    }
    if current != [] {
      CollectFlush(cfg, cut, plan, chunks, current, count, start, i, carry);
      chunks, plan := chunks + [Rendered(current)], plan + [Packed(start, i, carry)];
    } else {
      CollectNothing(cfg, cut, plan, chunks, count, start, i, carry);
    }
  }

  // ---------- conservation ----------

  /** Dropping from each chunk the tokens it repeats leaves the section's tokens, each once and in order. */
  lemma ChunkConservation(cfg: Budget, sectionText: string, c: SectionChunks)
    requires ChunksOf(cfg, sectionText, c)
    ensures c.texts != [] && |c.Repeated()| == |c.texts|
    ensures Fresh(c.texts, c.Repeated()) == Tokens(sectionText)
  {
    hide Fits, Tokens, AllTokens;
    if TokenCount(sectionText) <= cfg.maxTokens || c.blocks == [] {
      assert c.texts[..0] == [] && c.Repeated()[..0] == [];
      assert Fresh([], []) == [];
    } else {
      assert |c.plan| == |c.texts|;
      PlanTokens(cfg, c.blocks, c.plan, c.texts, |c.blocks|);
      assert c.blocks[..|c.blocks|] == c.blocks;
    }
  }

  /** The repeated tokens of chunk `k` are the last tokens of the chunk before, as many as allowed. */
  lemma RepeatedTokensAreATail(cfg: Budget, sectionText: string, c: SectionChunks, k: nat)
    requires ChunksOf(cfg, sectionText, c) && k < |c.texts|
    ensures |c.Repeated()| == |c.texts|
    ensures var n := c.Repeated()[k];
      n > 0 ==>
        && k > 0
        && n == Min(cfg.overlapTokens, TokenCount(c.texts[k - 1]))
        && n <= TokenCount(c.texts[k])
        && Tokens(c.texts[k])[..n] == Tokens(c.texts[k - 1])[TokenCount(c.texts[k - 1]) - n..]
  {
    hide Fits, Tokens, AllTokens;
    if c.plan != [] {
      OverlapIsTail(cfg, c.blocks, c.plan, c.texts, |c.blocks|, k);
    }
  }

  lemma PackedIsProse(cfg: Budget, blocks: seq<string>, plan: seq<Piece>, chunks: seq<string>, upTo: nat, k: nat)
    requires PlanOf(cfg, blocks, plan, chunks, upTo) && k < |plan| && plan[k].Packed?
    ensures var p := plan[k]; p.start < p.end <= |blocks| && NoneStands(cfg, blocks, p.start, p.end)
  {
    hide PlanOf, NoneStands, Follows, PieceText;
    PlanAt(cfg, blocks, plan, chunks, upTo, k);
  }

  /** No tokens are carried over into or out of a closed fence. */
  lemma OverlapStopsAtFences(cfg: Budget, sectionText: string, c: SectionChunks, k: nat)
    requires ChunksOf(cfg, sectionText, c) && k < |c.texts| && c.Repeated()[k] > 0
    ensures k > 0 && k < |c.plan|
    ensures c.plan[k].Packed? && c.plan[k - 1].Packed?
    ensures var p := c.plan[k]; p.start < p.end <= |c.blocks| && NoneStands(cfg, c.blocks, p.start, p.end)
    ensures var p := c.plan[k - 1]; p.start < p.end <= |c.blocks| && NoneStands(cfg, c.blocks, p.start, p.end)
  {
    hide BlocksOfSection;
    assert PlanOf(cfg, c.blocks, c.plan, c.texts, |c.blocks|) && |c.plan| == |c.texts| && Overlap(c.plan[k]) > 0;
    OverlapIsTail(cfg, c.blocks, c.plan, c.texts, |c.blocks|, k);
    hide *;
    PackedIsProse(cfg, c.blocks, c.plan, c.texts, |c.blocks|, k);
    PackedIsProse(cfg, c.blocks, c.plan, c.texts, |c.blocks|, k - 1);
  }

  // ---------- all sections ----------

  datatype MarkdownChunk = MarkdownChunk(
    headingPath: seq<string>, chunkIndex: nat, sectionIndex: nat, text: string, approximateTokenCount: nat
  )

  function MakeChunk(section: Section, text: string, chunkIndex: nat, includeHeadingPath: bool): MarkdownChunk {
    MarkdownChunk(if includeHeadingPath then section.headingPath else [], chunkIndex, section.sectionIndex, text, TokenCount(text))
  }

  /** The numbered chunks of one section. */
  function NumberedChunks(section: Section, texts: seq<string>, includeHeadingPath: bool): seq<MarkdownChunk> {
    if texts == [] then []
    else
      var n := |texts| - 1;
      NumberedChunks(section, texts[..n], includeHeadingPath) + [MakeChunk(section, texts[n], n, includeHeadingPath)]
  }

  /** The chunks of all sections, in order; `plans` says how each section was cut. */
  ghost predicate ChunksOfDocument(
    cfg: Budget, sections: seq<Section>, plans: seq<SectionChunks>, chunks: seq<MarkdownChunk>, includeHeadingPath: bool
  ) {
    && |plans| == |sections|
    && if sections == [] then chunks == []
       else
         var n := |sections| - 1;
         var own := NumberedChunks(sections[n], plans[n].texts, includeHeadingPath);
         && ChunksOf(cfg, sections[n].text, plans[n])
         && |own| <= |chunks|
         && chunks[|chunks| - |own|..] == own
         && ChunksOfDocument(cfg, sections[..n], plans[..n], chunks[..|chunks| - |own|], includeHeadingPath)
  }

  lemma DocumentSnoc(
    cfg: Budget, sections: seq<Section>, plans: seq<SectionChunks>, chunks: seq<MarkdownChunk>, includeHeadingPath: bool,
    section: Section, plan: SectionChunks
  )
    requires ChunksOfDocument(cfg, sections, plans, chunks, includeHeadingPath)
    requires ChunksOf(cfg, section.text, plan)
    ensures ChunksOfDocument(cfg, sections + [section], plans + [plan],
      chunks + NumberedChunks(section, plan.texts, includeHeadingPath), includeHeadingPath)
  {
    hide ChunksOf;
    var own := NumberedChunks(section, plan.texts, includeHeadingPath);
    assert (sections + [section])[..|sections|] == sections && (plans + [plan])[..|plans|] == plans;
    assert (chunks + own)[|chunks|..] == own && (chunks + own)[..|chunks|] == chunks;
  }

  method ChunkMarkdownSections(sections: seq<Section>, strategy: string, cfg: Budget, includeHeadingPath: bool)
    returns (r: Result<seq<MarkdownChunk>>, ghost plans: seq<SectionChunks>)
    ensures strategy != "markdown_section" ==> r == Err(IngestionError)
    ensures strategy == "markdown_section" ==>
      r.Ok? && ChunksOfDocument(cfg, sections, plans, r.value, includeHeadingPath)
  {
    hide *;
    plans := [];
    if strategy != "markdown_section" {
      return Err(IngestionError), plans;
    }
    var chunks: seq<MarkdownChunk> := [];
    NoSectionsNoChunks(cfg, includeHeadingPath);
    var i := 0;
    while i < |sections|
      invariant 0 <= i <= |sections|
      invariant ChunksOfDocument(cfg, sections[..i], plans, chunks, includeHeadingPath)
    {
      var section := sections[i];
      ghost var before := chunks;
      var texts;
      ghost var blocks, sources, plan;
      texts, blocks, sources, plan := ChunkSectionText(section.text, cfg);
      var k := 0;
      NumberNothing(section, texts, includeHeadingPath);
      while k < |texts|
        invariant 0 <= k <= |texts|
        invariant chunks == before + NumberedChunks(section, texts[..k], includeHeadingPath)
      {
        NumberNext(section, texts, k, includeHeadingPath);
        chunks := chunks + [MakeChunk(section, texts[k], k, includeHeadingPath)];
        k := k + 1;
      }
      assert texts[..|texts|] == texts;
      DocumentSnoc(cfg, sections[..i], plans, before, includeHeadingPath, section, SectionChunks(texts, blocks, sources, plan));
      assert sections[..i + 1] == sections[..i] + [section];
      plans := plans + [SectionChunks(texts, blocks, sources, plan)];
      i := i + 1;
    }
    assert sections[..|sections|] == sections;
    r := Ok(chunks);
  }

  lemma NoSectionsNoChunks(cfg: Budget, includeHeadingPath: bool)
    ensures ChunksOfDocument(cfg, [], [], [], includeHeadingPath)
  {
  }

  lemma NumberNothing(section: Section, texts: seq<string>, includeHeadingPath: bool)
    ensures NumberedChunks(section, texts[..0], includeHeadingPath) == []
  {
  }

  lemma NumberNext(section: Section, texts: seq<string>, k: nat, includeHeadingPath: bool)
    requires k < |texts|
    ensures NumberedChunks(section, texts[..k + 1], includeHeadingPath)
      == NumberedChunks(section, texts[..k], includeHeadingPath) + [MakeChunk(section, texts[k], k, includeHeadingPath)]
  {
    assert texts[..k + 1][..k] == texts[..k];
  }

  /** The tokens of all chunks without the repeated ones, section by section. */
  function FreshDocument(plans: seq<SectionChunks>): seq<string>
    requires forall s :: 0 <= s < |plans| ==> |plans[s].Repeated()| == |plans[s].texts|
  {
    if plans == [] then []
    else FreshDocument(plans[..|plans| - 1]) + Fresh(plans[|plans| - 1].texts, plans[|plans| - 1].Repeated())
  }

  /** Chunking a document keeps every token of its sections, each once and in order. */
  lemma {:induction false} DocumentConservation(
    cfg: Budget, sections: seq<Section>, plans: seq<SectionChunks>, chunks: seq<MarkdownChunk>, includeHeadingPath: bool
  )
    requires ChunksOfDocument(cfg, sections, plans, chunks, includeHeadingPath)
    ensures forall s :: 0 <= s < |plans| ==> |plans[s].Repeated()| == |plans[s].texts|
    ensures FreshDocument(plans) == AllTokens(Texts(sections))
  {
    hide ChunksOf, NumberedChunks, Fresh, Tokens;
    if sections != [] {
      var n := |sections| - 1;
      var own := NumberedChunks(sections[n], plans[n].texts, includeHeadingPath);
      DocumentConservation(cfg, sections[..n], plans[..n], chunks[..|chunks| - |own|], includeHeadingPath);
      ChunkConservation(cfg, sections[n].text, plans[n]);
      assert forall s :: 0 <= s < n ==> plans[..n][s] == plans[s];
      TextsSnoc(sections[..n], sections[n]);
      assert sections == sections[..n] + [sections[n]];
    }
  }
}
