/** The two sliding-window chunkers over a tokenizer. */
module Chunker {
  import opened Wrappers
  import opened Arithmetic

  /** A 64-bit machine word; every operation on it is proved to stay in range. */
  newtype usize = x: int | 0 <= x < 0x1_0000_0000_0000_0000

  /** No vector has more elements than this. */
  const MAX_LENGTH: int := 0x7FFF_FFFF_FFFF_FFFF

  datatype Tokenizer = Tokenizer(encode: string -> seq<usize>, decode: seq<usize> -> string)
  {
    ghost predicate FitsMemory() { forall text :: |encode(text)| <= MAX_LENGTH }
  }

  datatype ChunkInput = ChunkInput(blockId: Option<string>, text: string)

  datatype ChunkPiece = ChunkPiece(blockId: Option<string>, text: string, startToken: nat, endToken: nat, tokenCount: nat)

  datatype ChunkSpec = ChunkSpec(windowTokens: usize, overlapTokens: usize, minChunkTokens: usize)
  {
    predicate IsValid() { overlapTokens < windowTokens && 0 < minChunkTokens <= windowTokens }

    function Validate(): (error: Option<string>)
      ensures error.None? <==> IsValid()
      ensures error == Some("window_tokens must be > 0") <==> windowTokens == 0
      ensures error == Some("overlap_tokens must be < window_tokens") <==> 0 < windowTokens <= overlapTokens
      ensures error == Some("min_chunk_tokens must be in 1..=window_tokens")
              <==> overlapTokens < windowTokens && (minChunkTokens == 0 || minChunkTokens > windowTokens)
    {
      if windowTokens == 0 then Some("window_tokens must be > 0")
      else if overlapTokens >= windowTokens then Some("overlap_tokens must be < window_tokens")
      else if minChunkTokens == 0 || minChunkTokens > windowTokens then Some("min_chunk_tokens must be in 1..=window_tokens")
      else None
    }

    ghost function Window(): nat { windowTokens as nat }

    ghost function Overlap(): nat { overlapTokens as nat }

    ghost function MinChunk(): nat { minChunkTokens as nat }

    ghost function Step(): nat
      requires IsValid()
    {
      (windowTokens - overlapTokens) as nat
    }
  }

  // ----- the windows of a block, in closed form -----

  datatype Span = Span(start: nat, end: nat)

  /** Number of windows that n tokens take: as many steps as it takes for a window to reach the end. */
  ghost function Windows(spec: ChunkSpec, n: nat): nat
    requires spec.IsValid()
  {
    if n == 0 then 0
    else if n <= spec.Window() then 1
    else 1 + (n - spec.Window() + spec.Step() - 1) / spec.Step()
  }

  ghost function SpanAt(spec: ChunkSpec, n: nat, i: nat): Span
    requires spec.IsValid()
  {
    Span(i * spec.Step(), if i * spec.Step() + spec.Window() < n then i * spec.Step() + spec.Window() else n)
  }

  /** Whether the last window is too short to be kept; a block's only window is always kept. */
  ghost predicate DropsLast(spec: ChunkSpec, n: nat)
    requires spec.IsValid()
  {
    Windows(spec, n) > 1 && n < (Windows(spec, n) - 1) * spec.Step() + spec.MinChunk()
  }

  ghost function Spans(spec: ChunkSpec, n: nat): seq<Span>
    requires spec.IsValid()
  {
    seq(if DropsLast(spec, n) then Windows(spec, n) - 1 else Windows(spec, n), i requires i >= 0 => SpanAt(spec, n, i))
  }

  /** The window reaches the end at the last index and not before. */
  lemma ReachesEnd(spec: ChunkSpec, n: nat, i: nat)
    requires spec.IsValid() && n > 0
    ensures i * spec.Step() + spec.Window() >= n <==> i >= Windows(spec, n) - 1
  {
    var step, win := spec.Step(), spec.Window();
    if n > win {
      var c := (n - win + step - 1) / step;
      Ceiling(n - win, step, c);
      if i >= c {
        TimesMonotone(step, c, i);
      } else {
        TimesMonotone(step, i, c - 1);
      }
    }
  }

  lemma Ceiling(d: nat, step: nat, c: nat)
    requires d > 0 && step > 0 && c == (d + step - 1) / step
    ensures c > 0 && (c - 1) * step < d <= c * step
  {
    assert d + step - 1 == c * step + (d + step - 1) % step;
    assert (c - 1) * step == c * step - step;
    assert c == 0 ==> c * step == 0;
  }

  /** Every window starts inside the block, and only the last is shorter than the window size. */
  lemma SpanShape(spec: ChunkSpec, n: nat, i: nat)
    requires spec.IsValid() && i < Windows(spec, n)
    ensures var s := SpanAt(spec, n, i);
            && s.start < s.end <= n
            && (s.end == n <==> i == Windows(spec, n) - 1)
            && (i < Windows(spec, n) - 1 ==> s.end == s.start + spec.Window())
            && s.end - s.start <= spec.Window()
  {
    ReachesEnd(spec, n, i);
    if i > 0 {
      ReachesEnd(spec, n, i - 1);
      assert i * spec.Step() == (i - 1) * spec.Step() + spec.Step();
    }
  }

  // ----- what the chunkers return -----

  ghost function Slice(ids: seq<usize>, s: Span): seq<usize> {
    if s.start <= s.end <= |ids| then ids[s.start..s.end] else []
  }

  ghost function PieceOf(render: seq<usize> -> string, inp: ChunkInput, ids: seq<usize>, s: Span): ChunkPiece {
    ChunkPiece(inp.blockId, render(Slice(ids, s)), s.start, s.end, if s.start <= s.end then s.end - s.start else 0)
  }

  ghost function BlockPieces(render: seq<usize> -> string, spec: ChunkSpec, inp: ChunkInput, ids: seq<usize>): seq<ChunkPiece>
    requires spec.IsValid()
  {
    seq(|Spans(spec, |ids|)|, i requires 0 <= i < |Spans(spec, |ids|)| => PieceOf(render, inp, ids, Spans(spec, |ids|)[i]))
  }

  /** Block by block, in input order. */
  ghost function AllPieces(tokenizer: Tokenizer, render: seq<usize> -> string, spec: ChunkSpec, inputs: seq<ChunkInput>): seq<ChunkPiece>
    requires spec.IsValid()
  {
    if inputs == [] then []
    else
      var last := inputs[|inputs| - 1];
      AllPieces(tokenizer, render, spec, inputs[..|inputs| - 1]) + BlockPieces(render, spec, last, tokenizer.encode(last.text))
  }

  /** The first i windows of a block, none of them dropped yet. */
  ghost function FirstPieces(render: seq<usize> -> string, spec: ChunkSpec, inp: ChunkInput, ids: seq<usize>, i: nat): seq<ChunkPiece>
    requires spec.IsValid()
  {
    seq(i, j requires j >= 0 => PieceOf(render, inp, ids, SpanAt(spec, |ids|, j)))
  }

  lemma BeforeFirstWindow(render: seq<usize> -> string, spec: ChunkSpec, inp: ChunkInput, ids: seq<usize>)
    requires spec.IsValid()
    ensures FirstPieces(render, spec, inp, ids, 0) == []
    ensures if ids == [] then BlockPieces(render, spec, inp, ids) == [] else Windows(spec, |ids|) > 0
  {
  }

  /** The window that starts after i others ends the block or is kept. */
  lemma NextWindow(render: seq<usize> -> string, spec: ChunkSpec, inp: ChunkInput, ids: seq<usize>, i: nat)
    requires spec.IsValid() && i < Windows(spec, |ids|)
    ensures var s, first := SpanAt(spec, |ids|, i), FirstPieces(render, spec, inp, ids, i);
            && (s.end < |ids| ==> i + 1 < Windows(spec, |ids|) && s.end - s.start >= spec.MinChunk() && |ids| > spec.Window())
            && (s.end == |ids| && (s.end - s.start >= spec.MinChunk() || i == 0) ==>
                  BlockPieces(render, spec, inp, ids) == first + [PieceOf(render, inp, ids, s)])
            && (s.end == |ids| && s.end - s.start < spec.MinChunk() && i > 0 ==> BlockPieces(render, spec, inp, ids) == first)
            && FirstPieces(render, spec, inp, ids, i + 1) == first + [PieceOf(render, inp, ids, s)]
            && (i > 0 ==> spec.Window() < |ids|) && (i == 0 <==> s.start == 0)
            && (i + 1) * spec.Step() == s.start + spec.Step()
  {
    hide Windows, PieceOf;
    SpanShape(spec, |ids|, i);
    ReachesEnd(spec, |ids|, 0);
    assert (i + 1) * spec.Step() == i * spec.Step() + spec.Step();
    if i > 0 {
      TimesMonotone(spec.Step(), 1, i);
    }
  }

  /** Every piece of a block holds what the tokenizer renders between its bounds. */
  lemma BlockPiecesAre(render: seq<usize> -> string, spec: ChunkSpec, inp: ChunkInput, ids: seq<usize>)
    requires spec.IsValid()
    ensures var pieces := BlockPieces(render, spec, inp, ids);
            forall i :: 0 <= i < |pieces| ==>
              && pieces[i].blockId == inp.blockId && pieces[i].startToken < pieces[i].endToken <= |ids|
              && pieces[i].text == render(ids[pieces[i].startToken..pieces[i].endToken])
              && pieces[i].tokenCount == pieces[i].endToken - pieces[i].startToken
  {
    hide Windows;
    forall i | 0 <= i < |Spans(spec, |ids|)| ensures Spans(spec, |ids|)[i].start < Spans(spec, |ids|)[i].end <= |ids| {
      SpanShape(spec, |ids|, i);
    }
  }

  /** Every piece is from one of the inputs, in input order. */
  lemma {:induction false} PiecesAre(tokenizer: Tokenizer, render: seq<usize> -> string, spec: ChunkSpec, inputs: seq<ChunkInput>)
    returns (blocks: seq<nat>)
    requires spec.IsValid()
    ensures var pieces := AllPieces(tokenizer, render, spec, inputs);
            && |blocks| == |pieces| && (forall i, j :: 0 <= i < j < |blocks| ==> blocks[i] <= blocks[j])
            && forall i :: 0 <= i < |blocks| ==>
                 && blocks[i] < |inputs|
                 && var inp, piece := inputs[blocks[i]], pieces[i];
                    && piece.blockId == inp.blockId && piece.startToken < piece.endToken <= |tokenizer.encode(inp.text)|
                    && piece.text == render(tokenizer.encode(inp.text)[piece.startToken..piece.endToken])
                    && piece.tokenCount == piece.endToken - piece.startToken
  {
    hide BlockPieces;
    blocks := [];
    if inputs != [] {
      var n := |inputs| - 1;
      var last := inputs[n];
      var front := PiecesAre(tokenizer, render, spec, inputs[..n]);
      BlockPiecesAre(render, spec, last, tokenizer.encode(last.text));
      blocks := front + seq(|BlockPieces(render, spec, last, tokenizer.encode(last.text))|, _ => n);
    }
  }

  lemma PieceIs(render: seq<usize> -> string, inp: ChunkInput, ids: seq<usize>, start: nat, end: nat)
    requires start <= end <= |ids|
    ensures PieceOf(render, inp, ids, Span(start, end)) == ChunkPiece(inp.blockId, render(ids[start..end]), start, end, end - start)
  {
  }

  lemma Append(before: seq<ChunkPiece>, first: seq<ChunkPiece>, piece: ChunkPiece)
    ensures before + first + [piece] == before + (first + [piece])
  {
  }

  /** The pieces are those of the spans, in order. */
  ghost predicate AreSpans(pieces: seq<ChunkPiece>, spans: seq<Span>) {
    |pieces| == |spans| && forall i :: 0 <= i < |pieces| ==> pieces[i].startToken == spans[i].start && pieces[i].endToken == spans[i].end
  }

  /** What a block adds to the pieces before it. */
  lemma FromBlock(render: seq<usize> -> string, spec: ChunkSpec, inp: ChunkInput, ids: seq<usize>,
                  before: seq<ChunkPiece>, all: seq<ChunkPiece>)
    requires spec.IsValid() && all == before + BlockPieces(render, spec, inp, ids)
    ensures forall i :: |before| <= i < |all| ==>
              && all[i].blockId == inp.blockId && all[i].startToken < all[i].endToken <= |ids|
              && all[i].text == render(ids[all[i].startToken..all[i].endToken])
              && all[i].tokenCount == all[i].endToken - all[i].startToken
    ensures AreSpans(all[|before|..], Spans(spec, |ids|))
  {
    hide Spans;
    BlockPiecesAre(render, spec, inp, ids);
    assert all[|before|..] == BlockPieces(render, spec, inp, ids);
  }

  /** sliding_window.rs: counts what the block has emitted. */
  datatype SlidingWindowChunker = SlidingWindowChunker
  {
    /** `blocks` says which input each piece is from. */
    method Chunk(tokenizer: Tokenizer, inputs: seq<ChunkInput>, spec: ChunkSpec)
      returns (r: Result<seq<ChunkPiece>, string>, ghost blocks: seq<nat>)
      requires tokenizer.FitsMemory()
      ensures r == if spec.IsValid() then Ok(AllPieces(tokenizer, tokenizer.decode, spec, inputs)) else Err(spec.Validate().value)
      ensures r.Ok? ==>
                && |blocks| == |r.value| && (forall i, j :: 0 <= i < j < |blocks| ==> blocks[i] <= blocks[j])
                && forall i :: 0 <= i < |blocks| ==>
                     && blocks[i] < |inputs|
                     && var inp, piece := inputs[blocks[i]], r.value[i];
                        && piece.blockId == inp.blockId && piece.startToken < piece.endToken <= |tokenizer.encode(inp.text)|
                        && piece.text == tokenizer.decode(tokenizer.encode(inp.text)[piece.startToken..piece.endToken])
                        && piece.tokenCount == piece.endToken - piece.startToken
    {
      hide BlockPieces;
      blocks := [];
      if spec.Validate().Some? {
        return Err(spec.Validate().value), [];
      }
      var all: seq<ChunkPiece> := [];
      for b := 0 to |inputs|
        invariant all == AllPieces(tokenizer, tokenizer.decode, spec, inputs[..b])
      {
        assert inputs[..b + 1][..b] == inputs[..b];
        all := ChunkBlock(tokenizer, inputs[b], spec, all);
      }
      assert inputs[..|inputs|] == inputs;
      blocks := PiecesAre(tokenizer, tokenizer.decode, spec, inputs);
      return Ok(all), blocks;
    }

    method ChunkBlock(tokenizer: Tokenizer, inp: ChunkInput, spec: ChunkSpec, before: seq<ChunkPiece>) returns (all: seq<ChunkPiece>)
      requires tokenizer.FitsMemory() && spec.IsValid()
      ensures all == before + BlockPieces(tokenizer.decode, spec, inp, tokenizer.encode(inp.text))
      ensures |before| <= |all| && forall i :: |before| <= i < |all| ==>
                && all[i].blockId == inp.blockId && all[i].startToken < all[i].endToken <= |tokenizer.encode(inp.text)|
                && all[i].text == tokenizer.decode(tokenizer.encode(inp.text)[all[i].startToken..all[i].endToken])
                && all[i].tokenCount == all[i].endToken - all[i].startToken
      ensures AreSpans(all[|before|..], Spans(spec, |tokenizer.encode(inp.text)|))
    {
      hide Windows, DropsLast, Spans, BlockPieces, FirstPieces, PieceOf, AreSpans;
      all := before;
      var win, ovl := spec.windowTokens, spec.overlapTokens;
      var step := win - ovl;
      var minLen := spec.minChunkTokens;
      var ids := tokenizer.encode(inp.text);
      var n := |ids| as usize;
      BeforeFirstWindow(tokenizer.decode, spec, inp, ids);
      if n == 0 {
        FromBlock(tokenizer.decode, spec, inp, ids, before, all);
        return;
      }
      var start: usize, emittedForBlock: usize := 0, 0;
      ghost var i := 0;
      while start < n
        invariant 0 <= i < Windows(spec, |ids|) && start as nat == i * spec.Step() && start < n
        invariant all == before + FirstPieces(tokenizer.decode, spec, inp, ids, i)
        invariant emittedForBlock as nat == i
        decreases n - start
      {
        NextWindow(tokenizer.decode, spec, inp, ids, i);
        var end := if start + win < n then start + win else n;
        var len := end - start;
        var keep := if emittedForBlock == 0 && end == n then true else len >= minLen;
        if keep {
          var text := tokenizer.decode(ids[start..end]);
          PieceIs(tokenizer.decode, inp, ids, start as nat, end as nat);
          Append(before, FirstPieces(tokenizer.decode, spec, inp, ids, i),
                 PieceOf(tokenizer.decode, inp, ids, Span(start as nat, end as nat)));
          all := all + [ChunkPiece(inp.blockId, text, start as nat, end as nat, len as nat)];
          emittedForBlock := emittedForBlock + 1;
        }
        if end == n {
          break;
        }
        start := start + step;
        i := i + 1;
      }
      FromBlock(tokenizer.decode, spec, inp, ids, before, all);
    }
  }

  /** text.rs: looks at where the window starts and ends; optionally trims what it decodes. */
  datatype TextChunker = TextChunker(trimWhitespace: bool, trimMultiline: string -> string)
  {
    function MaybeTrim(text: string): string {
      if trimWhitespace then trimMultiline(text) else text
    }

    function Rendered(tokenizer: Tokenizer): seq<usize> -> string {
      (ids: seq<usize>) => MaybeTrim(tokenizer.decode(ids))
    }

    /** `blocks` says which input each piece is from. */
    method Chunk(tokenizer: Tokenizer, inputs: seq<ChunkInput>, spec: ChunkSpec)
      returns (r: Result<seq<ChunkPiece>, string>, ghost blocks: seq<nat>)
      requires tokenizer.FitsMemory()
      ensures r == if spec.IsValid() then Ok(AllPieces(tokenizer, Rendered(tokenizer), spec, inputs)) else Err(spec.Validate().value)
      ensures r.Ok? ==>
                && |blocks| == |r.value| && (forall i, j :: 0 <= i < j < |blocks| ==> blocks[i] <= blocks[j])
                && forall i :: 0 <= i < |blocks| ==>
                     && blocks[i] < |inputs|
                     && var inp, piece := inputs[blocks[i]], r.value[i];
                        && piece.blockId == inp.blockId && piece.startToken < piece.endToken <= |tokenizer.encode(inp.text)|
                        && (var text := tokenizer.decode(tokenizer.encode(inp.text)[piece.startToken..piece.endToken]);
                            piece.text == if trimWhitespace then trimMultiline(text) else text)
                        && piece.tokenCount == piece.endToken - piece.startToken
    {
      hide BlockPieces;
      blocks := [];
      if spec.Validate().Some? {
        return Err(spec.Validate().value), [];
      }
      var out: seq<ChunkPiece> := [];
      for b := 0 to |inputs|
        invariant out == AllPieces(tokenizer, Rendered(tokenizer), spec, inputs[..b])
      {
        assert inputs[..b + 1][..b] == inputs[..b];
        out := ChunkBlock(tokenizer, inputs[b], spec, out);
      }
      assert inputs[..|inputs|] == inputs;
      blocks := PiecesAre(tokenizer, Rendered(tokenizer), spec, inputs);
      return Ok(out), blocks;
    }

    method ChunkBlock(tokenizer: Tokenizer, inp: ChunkInput, spec: ChunkSpec, before: seq<ChunkPiece>) returns (out: seq<ChunkPiece>)
      requires tokenizer.FitsMemory() && spec.IsValid()
      ensures out == before + BlockPieces(Rendered(tokenizer), spec, inp, tokenizer.encode(inp.text))
      ensures |before| <= |out| && forall i :: |before| <= i < |out| ==>
                && out[i].blockId == inp.blockId && out[i].startToken < out[i].endToken <= |tokenizer.encode(inp.text)|
                && (var text := tokenizer.decode(tokenizer.encode(inp.text)[out[i].startToken..out[i].endToken]);
                    out[i].text == if trimWhitespace then trimMultiline(text) else text)
                && out[i].tokenCount == out[i].endToken - out[i].startToken
      ensures AreSpans(out[|before|..], Spans(spec, |tokenizer.encode(inp.text)|))
    {
      hide Windows, DropsLast, Spans, BlockPieces, FirstPieces, PieceOf, AreSpans;
      out := before;
      var step := spec.windowTokens - spec.overlapTokens;
      var ids := tokenizer.encode(inp.text);
      var n := |ids| as usize;
      BeforeFirstWindow(Rendered(tokenizer), spec, inp, ids);
      if n == 0 {
        FromBlock(Rendered(tokenizer), spec, inp, ids, before, out);
        return;
      }
      var start: usize := 0;
      ghost var i := 0;
      while start < n
        invariant 0 <= i < Windows(spec, |ids|) && start as nat == i * spec.Step() && start < n
        invariant out == before + FirstPieces(Rendered(tokenizer), spec, inp, ids, i)
        decreases n - start
      {
        NextWindow(Rendered(tokenizer), spec, inp, ids, i);
        var end := if start + spec.windowTokens < n then start + spec.windowTokens else n;
        var tokenLen := end - start;
        if tokenLen >= spec.minChunkTokens || (start == 0 && end == n) {
          var text := MaybeTrim(tokenizer.decode(ids[start..end]));
          PieceIs(Rendered(tokenizer), inp, ids, start as nat, end as nat);
          Append(before, FirstPieces(Rendered(tokenizer), spec, inp, ids, i),
                 PieceOf(Rendered(tokenizer), inp, ids, Span(start as nat, end as nat)));
          out := out + [ChunkPiece(inp.blockId, text, start as nat, end as nat, tokenLen as nat)];
        }
        if end == n {
          break;
        }
        start := start + step;
        i := i + 1;
      }
      FromBlock(Rendered(tokenizer), spec, inp, ids, before, out);
    }
  }

  // ----- the two chunkers agree -----

  datatype Located = Located(blockId: Option<string>, span: Span, tokenCount: nat)

  /** A piece without its text. */
  ghost function Places(pieces: seq<ChunkPiece>): seq<Located> {
    seq(|pieces|, i requires 0 <= i < |pieces| =>
      Located(pieces[i].blockId, Span(pieces[i].startToken, pieces[i].endToken), pieces[i].tokenCount))
  }

  /** However the text is rendered, the same spans of the same blocks come out: both chunkers keep the same windows. */
  lemma {:induction false} SamePlaces(tokenizer: Tokenizer, render: seq<usize> -> string, render': seq<usize> -> string,
                                      spec: ChunkSpec, inputs: seq<ChunkInput>)
    requires spec.IsValid()
    ensures Places(AllPieces(tokenizer, render, spec, inputs)) == Places(AllPieces(tokenizer, render', spec, inputs))
  {
    if inputs != [] {
      var front, last := inputs[..|inputs| - 1], inputs[|inputs| - 1];
      var ids := tokenizer.encode(last.text);
      SamePlaces(tokenizer, render, render', spec, front);
      PlacesConcat(AllPieces(tokenizer, render, spec, front), BlockPieces(render, spec, last, ids));
      PlacesConcat(AllPieces(tokenizer, render', spec, front), BlockPieces(render', spec, last, ids));
      assert Places(BlockPieces(render, spec, last, ids)) == Places(BlockPieces(render', spec, last, ids));
    }
  }

  /** Run on the same input, the two chunkers fail alike or emit the same spans of the same blocks. */
  method ChunkersAgree(sliding: SlidingWindowChunker, text: TextChunker, tokenizer: Tokenizer, inputs: seq<ChunkInput>, spec: ChunkSpec)
    returns (a: Result<seq<ChunkPiece>, string>, b: Result<seq<ChunkPiece>, string>)
    requires tokenizer.FitsMemory()
    ensures if spec.IsValid() then a.Ok? && b.Ok? && Places(a.value) == Places(b.value) else a.Err? && a == b
  {
    ghost var blocks;
    a, blocks := sliding.Chunk(tokenizer, inputs, spec);
    b, blocks := text.Chunk(tokenizer, inputs, spec);
    if spec.IsValid() {
      SamePlaces(tokenizer, tokenizer.decode, text.Rendered(tokenizer), spec, inputs);
    }
  }

  lemma PlacesConcat(a: seq<ChunkPiece>, b: seq<ChunkPiece>)
    ensures Places(a + b) == Places(a) + Places(b)
  {
  }

  // ----- coverage -----

  /** The last token that a kept window covers, and one more. */
  ghost function Covered(spec: ChunkSpec, n: nat): nat
    requires spec.IsValid()
  {
    var spans := Spans(spec, n);
    if spans == [] then 0 else spans[|spans| - 1].end
  }

  /** Windows start at 0, and each next one exactly the overlap before the end of the last. */
  lemma WindowsOverlap(spec: ChunkSpec, n: nat)
    requires spec.IsValid() && n > 0
    ensures Spans(spec, n) != [] && Spans(spec, n)[0].start == 0
    ensures forall i :: 0 <= i < |Spans(spec, n)| ==> Spans(spec, n)[i].start < Spans(spec, n)[i].end <= n
    ensures forall i {:trigger Spans(spec, n)[i]} :: 0 < i < |Spans(spec, n)| ==>
              Spans(spec, n)[i].start == Spans(spec, n)[i - 1].end - spec.Overlap() && Spans(spec, n)[i - 1].end < Spans(spec, n)[i].end
  {
    hide Windows;
    var spans := Spans(spec, n);
    ReachesEnd(spec, n, 0);
    HasWindow(spec, n);
    forall i | 0 <= i < |spans| ensures spans[i].start < spans[i].end <= n {
      SpanShape(spec, n, i);
    }
    forall i {:trigger spans[i]} | 0 < i < |spans| ensures spans[i].start == spans[i - 1].end - spec.Overlap() && spans[i - 1].end < spans[i].end {
      SpanShape(spec, n, i - 1);
      SpanShape(spec, n, i);
      assert i * spec.Step() == (i - 1) * spec.Step() + spec.Step();
    }
  }

  lemma HasWindow(spec: ChunkSpec, n: nat)
    requires spec.IsValid() && n > 0
    ensures Windows(spec, n) >= 1
  {
  }

  /** The kept tokens put together again, each window without what it shares with the one before. */
  ghost function Rebuilt(spec: ChunkSpec, ids: seq<usize>, spans: seq<Span>): seq<usize> {
    if spans == [] then []
    else if |spans| == 1 then Slice(ids, spans[0])
    else
      var last := spans[|spans| - 1];
      Rebuilt(spec, ids, spans[..|spans| - 1]) + Slice(ids, Span(last.start + spec.Overlap(), last.end))
  }

  /** One more window: it adds the ids from the end a of the one before to its own end b. */
  lemma RebuiltStep(spec: ChunkSpec, ids: seq<usize>, spans: seq<Span>, a: nat, b: nat)
    requires |spans| > 1 && spans[|spans| - 1].end == b && spans[|spans| - 1].start + spec.Overlap() == a
    requires a <= b <= |ids| && Rebuilt(spec, ids, spans[..|spans| - 1]) == ids[..a]
    ensures Rebuilt(spec, ids, spans) == ids[..b]
  {
    JoinSlices(ids, a, b);
    hide Slice;
  }

  lemma JoinSlices(ids: seq<usize>, a: nat, b: nat)
    requires a <= b <= |ids|
    ensures ids[..a] + Slice(ids, Span(a, b)) == ids[..b]
  {
    assert ids[..b] == ids[..a] + ids[a..b];
  }

  lemma RebuiltFirst(spec: ChunkSpec, ids: seq<usize>, s: Span)
    requires s.start == 0 && s.end <= |ids|
    ensures Rebuilt(spec, ids, [s]) == ids[..s.end]
  {
  }

  lemma {:induction false} RebuiltPrefix(spec: ChunkSpec, ids: seq<usize>, k: nat)
    requires spec.IsValid() && 0 < k <= |Spans(spec, |ids|)|
    ensures Spans(spec, |ids|)[k - 1].end <= |ids|
    ensures Rebuilt(spec, ids, Spans(spec, |ids|)[..k]) == ids[..Spans(spec, |ids|)[k - 1].end]
  {
    hide Windows, Spans, SpanAt, Slice, Rebuilt;
    var spans := Spans(spec, |ids|);
    HasTokens(spec, |ids|);
    WindowsOverlap(spec, |ids|);
    var now := spans[k - 1];
    assert now.start < now.end <= |ids|;
    if k == 1 {
      assert spans[..k] == [now];
      RebuiltFirst(spec, ids, now);
    } else {
      var before := spans[k - 2];
      RebuiltPrefix(spec, ids, k - 1);
      assert now.start == spans[k - 1 - 1].end - spec.Overlap() && before.end < now.end;
      assert spans[..k][..k - 1] == spans[..k - 1];
      RebuiltStep(spec, ids, spans[..k], before.end, now.end);
    }
  }

  lemma HasTokens(spec: ChunkSpec, n: nat)
    requires spec.IsValid() && |Spans(spec, n)| > 0
    ensures n > 0
  {
    EmptyBlock(spec);
  }

  lemma EmptyBlock(spec: ChunkSpec)
    requires spec.IsValid()
    ensures Spans(spec, 0) == []
  {
  }

  /** Together the kept windows hold the block's tokens up to the last one covered. */
  lemma RebuiltIsPrefix(spec: ChunkSpec, ids: seq<usize>)
    requires spec.IsValid()
    ensures Covered(spec, |ids|) <= |ids| && Rebuilt(spec, ids, Spans(spec, |ids|)) == ids[..Covered(spec, |ids|)]
  {
    hide Spans, Rebuilt, Slice, Windows, SpanAt;
    var spans := Spans(spec, |ids|);
    if spans == [] {
      RebuiltNone(spec, ids);
    } else {
      var k := |spans|;
      assert spans[..k] == spans;
      RebuiltPrefix(spec, ids, k);
      assert Covered(spec, |ids|) == spans[k - 1].end;
    }
  }

  lemma RebuiltNone(spec: ChunkSpec, ids: seq<usize>)
    ensures Rebuilt(spec, ids, []) == ids[..0]
  {
  }

  // ----- putting the text together again -----

  /** The text of tokens is that of its parts. */
  ghost predicate Distributes(decode: seq<usize> -> string) {
    forall a, b :: decode(a + b) == decode(a) + decode(b)
  }

  /** The first piece's text, then what each later piece adds after the overlap. */
  ghost function Rejoined(decode: seq<usize> -> string, ids: seq<usize>, overlap: nat, pieces: seq<ChunkPiece>): string {
    if pieces == [] then ""
    else if |pieces| == 1 then pieces[0].text
    else
      var last := pieces[|pieces| - 1];
      Rejoined(decode, ids, overlap, pieces[..|pieces| - 1])
      + decode(Slice(ids, Span(last.startToken + overlap, last.endToken)))
  }

  lemma {:induction false} RejoinedIsDecoded(decode: seq<usize> -> string, spec: ChunkSpec, ids: seq<usize>, pieces: seq<ChunkPiece>, k: nat)
    requires spec.IsValid() && Distributes(decode) && 0 < k <= |pieces|
    requires AreSpans(pieces, Spans(spec, |ids|)) && pieces[0].startToken <= pieces[0].endToken <= |ids|
    requires pieces[0].text == decode(ids[pieces[0].startToken..pieces[0].endToken])
    ensures Rejoined(decode, ids, spec.Overlap(), pieces[..k]) == decode(Rebuilt(spec, ids, Spans(spec, |ids|)[..k]))
  {
    hide Spans, Windows, SpanAt, Rejoined, Rebuilt, Distributes;
    var spans := Spans(spec, |ids|);
    if k > 1 {
      RejoinedIsDecoded(decode, spec, ids, pieces, k - 1);
      assert pieces[..k][..k - 1] == pieces[..k - 1] && spans[..k][..k - 1] == spans[..k - 1];
      RejoinedStep(decode, spec, ids, pieces[..k], spans[..k]);
    } else {
      assert pieces[..1] == [pieces[0]] && spans[..1] == [spans[0]];
      RejoinedFirst(decode, spec, ids, pieces[0], spans[0]);
    }
  }

  lemma RejoinedStep(decode: seq<usize> -> string, spec: ChunkSpec, ids: seq<usize>, pieces: seq<ChunkPiece>, spans: seq<Span>)
    requires Distributes(decode) && |pieces| == |spans| > 1
    requires pieces[|pieces| - 1].startToken == spans[|spans| - 1].start && pieces[|pieces| - 1].endToken == spans[|spans| - 1].end
    requires Rejoined(decode, ids, spec.Overlap(), pieces[..|pieces| - 1]) == decode(Rebuilt(spec, ids, spans[..|spans| - 1]))
    ensures Rejoined(decode, ids, spec.Overlap(), pieces) == decode(Rebuilt(spec, ids, spans))
  {
    hide Slice;
  }

  lemma RejoinedFirst(decode: seq<usize> -> string, spec: ChunkSpec, ids: seq<usize>, piece: ChunkPiece, s: Span)
    requires piece.startToken == s.start && piece.endToken == s.end && s.start <= s.end <= |ids|
    requires piece.text == decode(ids[s.start..s.end])
    ensures Rejoined(decode, ids, spec.Overlap(), [piece]) == decode(Rebuilt(spec, ids, [s]))
  {
  }

  /** Put together again, the pieces of a block are the text of its tokens up to the last one covered. */
  lemma TextRejoins(decode: seq<usize> -> string, spec: ChunkSpec, ids: seq<usize>, pieces: seq<ChunkPiece>)
    requires spec.IsValid() && Distributes(decode) && pieces != [] && AreSpans(pieces, Spans(spec, |ids|))
    requires forall i :: 0 <= i < |pieces| ==>
               pieces[i].startToken < pieces[i].endToken <= |ids| && pieces[i].text == decode(ids[pieces[i].startToken..pieces[i].endToken])
    ensures Rejoined(decode, ids, spec.Overlap(), pieces) == decode(ids[..pieces[|pieces| - 1].endToken])
  {
    hide Spans, Windows, SpanAt, Rejoined, Rebuilt, Distributes;
    var spans, k := Spans(spec, |ids|), |pieces|;
    RejoinedIsDecoded(decode, spec, ids, pieces, k);
    RebuiltIsPrefix(spec, ids);
    assert pieces[..k] == pieces && spans[..k] == spans;
  }

  /** Tokens are lost exactly when the last window is dropped, and then fewer than the minimum less the overlap. */
  lemma Loss(spec: ChunkSpec, n: nat)
    requires spec.IsValid()
    ensures n - Covered(spec, n) == if DropsLast(spec, n) then n - (Windows(spec, n) - 1) * spec.Step() - spec.Overlap() else 0
    ensures Covered(spec, n) < n <==> DropsLast(spec, n)
    ensures n - Covered(spec, n) <= if spec.MinChunk() > spec.Overlap() + 1 then spec.MinChunk() - 1 - spec.Overlap() else 0
  {
    hide Windows;
    if n > 0 {
      var k := Windows(spec, n);
      HasWindow(spec, n);
      SpanShape(spec, n, k - 1);
      if DropsLast(spec, n) {
        SpanShape(spec, n, k - 2);
        assert (k - 1) * spec.Step() == (k - 2) * spec.Step() + spec.Step();
      }
    } else {
      EmptyBlock(spec);
      assert !DropsLast(spec, 0) by { NoWindow(spec); }
    }
  }

  lemma NoWindow(spec: ChunkSpec)
    requires spec.IsValid()
    ensures Windows(spec, 0) == 0
  {
  }

  /** The bound on the loss is reached. */
  lemma LossReached(spec: ChunkSpec)
    requires spec.IsValid() && spec.MinChunk() > spec.Overlap() + 1
    ensures var n := spec.Window() + spec.MinChunk() - 1 - spec.Overlap();
            n - Covered(spec, n) == spec.MinChunk() - 1 - spec.Overlap()
  {
    var n := spec.Window() + spec.MinChunk() - 1 - spec.Overlap();
    ReachesEnd(spec, n, 1);
    ReachesEnd(spec, n, 0);
    assert Windows(spec, n) == 2;
    Loss(spec, n);
  }
}
