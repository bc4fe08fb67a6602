/**
 * The `.srt` files a writer produces, and what the tokenizer makes of them:
 * rendering a list of subtitle blocks and tokenizing the result gives back
 * exactly the blocks, as tokens, with one issue per counter discontinuity.
 */
module Rendering {
  import opened Wrappers
  import opened Strings
  import opened Lexing
  import opened Timestamps
  import opened LexerProofs

  /** One subtitle block: its counter, its time range in milliseconds and its text lines. */
  datatype Block = Block(n: nat, start: nat, end: nat, text: seq<string>)

  /** A block a writer can put in a file: a `usize` counter, two-digit hours and no empty text line. */
  predicate Renderable(b: Block)
  {
    b.n < U64_LIMIT && b.start < HOUR_LIMIT && b.end < HOUR_LIMIT
    && forall j | 0 <= j < |b.text| :: b.text[j] != ""
  }

  predicate AllRenderable(blocks: seq<Block>)
  {
    forall i | 0 <= i < |blocks| :: Renderable(blocks[i])
  }

  /** The time-range line `HH:MM:SS,mmm --> HH:MM:SS,mmm`. */
  function TimeLine(start: nat, end: nat): string
    requires start < HOUR_LIMIT && end < HOUR_LIMIT
  {
    FormatTimestamp(start) + " " + ARROW + " " + FormatTimestamp(end)
  }

  /** A block as lines: counter, time range, text, and the empty line that ends it. */
  function RenderBlock(b: Block): (r: seq<string>)
    requires Renderable(b)
    ensures |r| == |b.text| + 3
  {
    [Decimal(b.n), TimeLine(b.start, b.end)] + b.text + [""]
  }

  /** A whole file as lines. */
  function Render(blocks: seq<Block>): (r: seq<string>)
    requires AllRenderable(blocks)
    ensures blocks != [] ==> WellEnded(r)
    decreases |blocks|
  {
    if blocks == [] then [] else RenderBlock(blocks[0]) + Render(blocks[1..])
  }

  /** The tokens that describe `blocks` when the first counter is on line index `loc`. */
  function Expected(blocks: seq<Block>, loc: nat): seq<Token>
    decreases |blocks|
  {
    if blocks == [] then [Eof]
    else
      var b := blocks[0];
      [Count(b.n, loc + 1), StartTime(b.start, loc + 2), EndTime(b.end, loc + 2), Subtitle(b.text, loc + 3)]
      + Expected(blocks[1..], loc + 3 + |b.text|)
  }

  /** The counters of the blocks, in order. */
  function Counters(blocks: seq<Block>): seq<nat>
    decreases |blocks|
  {
    if blocks == [] then [] else [blocks[0].n] + Counters(blocks[1..])
  }

  // ---------------------------------------------------------------------------
  // One block
  // ---------------------------------------------------------------------------

  /** The canonical timestamp has no whitespace and no `-`. */
  lemma FormattedChars(t: nat)
    requires t < HOUR_LIMIT
    ensures forall i | 0 <= i < |FormatTimestamp(t)| :: !IsWhitespace(FormatTimestamp(t)[i]) && FormatTimestamp(t)[i] != '-'
  {
    var d := Clock(t);
    var s := FormatTimestamp(t);
    var hh, mm, ss, ms := Pad(d.0, 2), Pad(d.1, 2), Pad(d.2, 2), Pad(d.3, 3);
    assert s == hh + ":" + mm + ":" + ss + "," + ms;
    forall i | 0 <= i < |s|
      ensures IsDigit(s[i]) || s[i] == ':' || s[i] == ','
    {
      if i < 2 { assert s[i] == hh[i]; }
      else if i == 2 { }
      else if i < 5 { assert s[i] == mm[i - 3]; }
      else if i == 5 { }
      else if i < 8 { assert s[i] == ss[i - 6]; }
      else if i == 8 { }
      else { assert s[i] == ms[i - 9]; }
    }
  }

  /** The time-range line splits into the two padded timestamps, which trim and decode back. */
  lemma TimeLineTimes(start: nat, end: nat, loc: nat, strict: bool)
    requires start < HOUR_LIMIT && end < HOUR_LIMIT
    ensures Split(TimeLine(start, end), ARROW) == [FormatTimestamp(start) + " ", " " + FormatTimestamp(end)]
    ensures Trim(FormatTimestamp(start) + " ") == FormatTimestamp(start)
    ensures Trim(" " + FormatTimestamp(end)) == FormatTimestamp(end)
    ensures DecodeTime(FormatTimestamp(start), loc) == Ok(start) && DecodeTime(FormatTimestamp(end), loc) == Ok(end)
    ensures PaddingIssues(FormatTimestamp(start), strict) == 0 && PaddingIssues(FormatTimestamp(end), strict) == 0
  {
    var b, e := FormatTimestamp(start), FormatTimestamp(end);
    FormattedChars(start);
    FormattedChars(end);
    assert TimeLine(start, end) == (b + " ") + ARROW + (" " + e);
    SplitAtFirst(b + " ", " " + e, ARROW);
    SplitWhole(" " + e, ARROW);
    TrimPadded(b, false);
    TrimPadded(e, true);
    DecodeFormatted(start, loc, strict);
    DecodeFormatted(end, loc, strict);
  }

  /** A rendered block, wherever it sits in the lines, is described by its four tokens. */
  lemma RenderedBlockAt(lines: seq<string>, loc: nat, b: Block, strict: bool)
    requires Renderable(b) && loc + |b.text| + 3 <= |lines| && lines[loc..loc + |b.text| + 3] == RenderBlock(b)
    ensures BlockAt(lines, loc, [Count(b.n, loc + 1), StartTime(b.start, loc + 2), EndTime(b.end, loc + 2), Subtitle(b.text, loc + 3)])
    ensures LinePadding(lines[loc + 1], strict) == 0
  {
    hide Split, Trim, DecodeTime, PaddingIssues, ParseUnsigned, RenderBlock, TimeLine, FormatTimestamp, Decimal;
    RenderBlockLines(b);
    var r := RenderBlock(b);
    assert lines[loc] == r[0] == Decimal(b.n);
    assert lines[loc + 1] == r[1] == TimeLine(b.start, b.end);
    ParseDecimal(b.n, U64_LIMIT);
    TimeLineTimes(b.start, b.end, loc + 2, strict);
    forall j | 0 <= j < |b.text|
      ensures lines[loc + 2 + j] == b.text[j]
    {
      assert lines[loc + 2 + j] == r[2 + j];
    }
    assert lines[loc + 2..loc + 2 + |b.text|] == b.text;
    assert lines[loc + 2 + |b.text|] == r[2 + |b.text|] == "";
  }

  /** The lines of a rendered block, one by one. */
  lemma RenderBlockLines(b: Block)
    requires Renderable(b)
    ensures RenderBlock(b)[0] == Decimal(b.n) && RenderBlock(b)[1] == TimeLine(b.start, b.end)
    ensures forall j | 0 <= j < |b.text| :: RenderBlock(b)[2 + j] == b.text[j]
    ensures RenderBlock(b)[|b.text| + 2] == ""
  {
  }

  // ---------------------------------------------------------------------------
  // A whole file
  // ---------------------------------------------------------------------------

  /** Rendered blocks after any prefix of lines are described by their expected tokens, with no padding issue. */
  lemma {:induction false} RenderLexes(pre: seq<string>, blocks: seq<Block>, strict: bool)
    requires AllRenderable(blocks) && WellEnded(pre + Render(blocks))
    ensures Lexes(pre + Render(blocks), |pre|, Expected(blocks, |pre|))
    ensures PaddingTotal(pre + Render(blocks), strict, |pre|, Expected(blocks, |pre|)) == 0
    decreases |blocks|
  {
    hide BlockAt, LinePadding, RenderBlock, Render, Expected, Lexes, PaddingTotal, WellEnded, AllRenderable;
    var lines := pre + Render(blocks);
    if blocks == [] {
      RenderNil(pre, strict);
    } else {
      var b := blocks[0];
      RenderSplit(pre, blocks);
      var pre' := pre + RenderBlock(b);
      RenderLexes(pre', blocks[1..], strict);
      RenderedBlockAt(lines, |pre|, b, strict);
      var toks := Expected(blocks, |pre|);
      ExpectedCons(blocks, |pre|);
      LexesCons(lines, |pre|, toks);
      PaddingTotalBlock(lines, strict, |pre|, toks);
    }
  }

  /** The lines of a non-empty file: the first block's, then the rest's. */
  lemma RenderSplit(pre: seq<string>, blocks: seq<Block>)
    requires AllRenderable(blocks) && blocks != [] && WellEnded(pre + Render(blocks))
    ensures Renderable(blocks[0]) && AllRenderable(blocks[1..])
    ensures pre + Render(blocks) == (pre + RenderBlock(blocks[0])) + Render(blocks[1..])
    ensures WellEnded((pre + RenderBlock(blocks[0])) + Render(blocks[1..]))
    ensures |pre| + |blocks[0].text| + 3 <= |pre + Render(blocks)|
    ensures (pre + Render(blocks))[|pre|..|pre| + |blocks[0].text| + 3] == RenderBlock(blocks[0])
  {
    hide RenderBlock;
    RenderCons(blocks);
    var r := RenderBlock(blocks[0]);
    assert pre + Render(blocks) == (pre + r) + Render(blocks[1..]);
  }

  lemma RenderNil(pre: seq<string>, strict: bool)
    requires WellEnded(pre + Render([]))
    ensures Lexes(pre + Render([]), |pre|, Expected([], |pre|))
    ensures PaddingTotal(pre + Render([]), strict, |pre|, Expected([], |pre|)) == 0
  {
    assert pre + Render([]) == pre;
  }

  lemma RenderCons(blocks: seq<Block>)
    requires AllRenderable(blocks) && blocks != []
    ensures AllRenderable(blocks[1..])
    ensures Render(blocks) == RenderBlock(blocks[0]) + Render(blocks[1..])
  {
    assert AllRenderable(blocks[1..]);
  }

  lemma ExpectedCons(blocks: seq<Block>, loc: nat)
    requires blocks != []
    ensures |Expected(blocks, loc)| >= 4
    ensures Expected(blocks, loc)[..4] == [Count(blocks[0].n, loc + 1), StartTime(blocks[0].start, loc + 2),
                                           EndTime(blocks[0].end, loc + 2), Subtitle(blocks[0].text, loc + 3)]
    ensures Expected(blocks, loc)[4..] == Expected(blocks[1..], loc + 3 + |blocks[0].text|)
  {
  }

  lemma {:induction false} CountsExpected(blocks: seq<Block>, loc: nat)
    ensures Counts(Expected(blocks, loc)) == Counters(blocks)
    decreases |blocks|
  {
    if blocks != [] {
      var b := blocks[0];
      var block := [Count(b.n, loc + 1), StartTime(b.start, loc + 2), EndTime(b.end, loc + 2), Subtitle(b.text, loc + 3)];
      CountsExpected(blocks[1..], loc + 3 + |b.text|);
      CountsAppend(block, Expected(blocks[1..], loc + 3 + |b.text|));
      CountsBlock(block);
    } else {
      assert Counts([Eof]) == Counts([]);
    }
  }

  /**
   * Round trip: tokenizing a rendered file gives back its blocks as tokens,
   * tagged with their line numbers, and counts exactly the counter
   * discontinuities, in strict mode as well.  An empty file is an error.
   */
  lemma TokenizeRender(blocks: seq<Block>, strict: bool)
    requires AllRenderable(blocks)
    ensures blocks == [] ==> Tokenize(Render(blocks), strict) == Err(EmptyInput)
    ensures blocks != [] ==> Tokenize(Render(blocks), strict) == Ok((Expected(blocks, 0), Discontinuities(Counters(blocks), 0)))
  {
    hide Lexes, PaddingTotal, Run, Counts, Discontinuities, Expected;
    if blocks == [] {
      assert Render(blocks) == [];
      assert Tokenize([], strict) == Err(EmptyInput);
    } else {
      var lines := Render(blocks);
      PrepareRendered(blocks);
      RenderLexes([], blocks, strict);
      assert [] + lines == lines;
      TokenizeComplete(lines, strict, Expected(blocks, 0));
      CountsExpected(blocks, 0);
    }
  }

  /** A rendered file already ends with an empty line and has no byte-order mark. */
  lemma PrepareRendered(blocks: seq<Block>)
    requires AllRenderable(blocks) && blocks != []
    ensures Prepare(Render(blocks)) == Ok(Render(blocks))
  {
    var lines := Render(blocks);
    RenderCons(blocks);
    assert lines[0] == RenderBlock(blocks[0])[0] == Decimal(blocks[0].n);
    assert RemoveBom(lines[0]) == lines[0];
    assert lines[0 := lines[0]] == lines;
  }

  // ---------------------------------------------------------------------------
  // Examples
  // ---------------------------------------------------------------------------

  /** The five blocks whose tokens the repository's lexer test expects. */
  const TestBlocks: seq<Block> := [
    Block(1, 136612, 139376, ["Senator, we're making", "our final approach into Coruscant."]),
    Block(2, 139482, 141609, ["Very good, Lieutenant."]),
    Block(3, 193336, 195167, ["We made it."]),
    Block(4, 198608, 200371, ["I guess I was wrong."]),
    Block(5, 200476, 202671, ["There was no danger at all."])
  ]

  /** The tokens that the repository's lexer test expects. */
  const TestTokens: seq<Token> := [
    Count(1, 1), StartTime(136612, 2), EndTime(139376, 2),
    Subtitle(["Senator, we're making", "our final approach into Coruscant."], 3),
    Count(2, 6), StartTime(139482, 7), EndTime(141609, 7), Subtitle(["Very good, Lieutenant."], 8),
    Count(3, 10), StartTime(193336, 11), EndTime(195167, 11), Subtitle(["We made it."], 12),
    Count(4, 14), StartTime(198608, 15), EndTime(200371, 15), Subtitle(["I guess I was wrong."], 16),
    Count(5, 18), StartTime(200476, 19), EndTime(202671, 19), Subtitle(["There was no danger at all."], 20),
    Eof
  ]

  lemma TestExpected()
    ensures AllRenderable(TestBlocks)
    ensures Expected(TestBlocks, 0) == TestTokens
    ensures Discontinuities(Counters(TestBlocks), 0) == 0
  {
    hide Expected, Counters, Discontinuities;
    TestRenderable();
    TestTokensExpected();
    TestCounters();
  }

  lemma TestRenderable()
    ensures AllRenderable(TestBlocks)
  {
    assert Renderable(TestBlocks[0]) && Renderable(TestBlocks[1]) && Renderable(TestBlocks[2]);
    assert Renderable(TestBlocks[3]) && Renderable(TestBlocks[4]);
  }

  lemma TestTokensExpected()
    ensures Expected(TestBlocks, 0) == TestTokens
  {
    hide Expected;
    TestTail1();
    ExpectedStep(TestBlocks, 0);
    TestHead();
  }

  /** The first four test tokens are those of the first test block. */
  lemma TestHead()
    ensures TestTokens == [Count(TestBlocks[0].n, 1), StartTime(TestBlocks[0].start, 2), EndTime(TestBlocks[0].end, 2),
                           Subtitle(TestBlocks[0].text, 3)] + TestTokens[4..]
  {
    var b := TestBlocks[0];
    assert TestTokens[..4] == [Count(b.n, 1), StartTime(b.start, 2), EndTime(b.end, 2), Subtitle(b.text, 3)];
    assert TestTokens == TestTokens[..4] + TestTokens[4..];
  }

  /** The tokens of the test blocks from block `i` on are the test tokens from `4 * i` on. */
  lemma TestTail4()
    ensures Expected(TestBlocks[4..], 17) == TestTokens[16..]
  {
    hide Expected;
    ExpectedStep(TestBlocks[4..], 17);
    assert TestBlocks[4..][1..] == [];
    ExpectedNil(21);
    assert TestTokens[16..] == TestTokens[16..20] + [Eof];
  }

  lemma TestTail3()
    ensures Expected(TestBlocks[3..], 13) == TestTokens[12..]
  {
    hide Expected;
    TestTail4();
    ExpectedStep(TestBlocks[3..], 13);
    assert TestBlocks[3..][1..] == TestBlocks[4..];
    assert TestTokens[12..] == TestTokens[12..16] + TestTokens[16..];
  }

  lemma TestTail2()
    ensures Expected(TestBlocks[2..], 9) == TestTokens[8..]
  {
    hide Expected;
    TestTail3();
    ExpectedStep(TestBlocks[2..], 9);
    assert TestBlocks[2..][1..] == TestBlocks[3..];
    assert TestTokens[8..] == TestTokens[8..12] + TestTokens[12..];
  }

  lemma TestTail1()
    ensures Expected(TestBlocks[1..], 5) == TestTokens[4..]
  {
    hide Expected;
    TestTail2();
    ExpectedStep(TestBlocks[1..], 5);
    assert TestBlocks[1..][1..] == TestBlocks[2..];
    assert TestTokens[4..] == TestTokens[4..8] + TestTokens[8..];
  }

  /** The tokens of a non-empty list of blocks: the first block's four, then the rest's. */
  lemma ExpectedStep(blocks: seq<Block>, loc: nat)
    requires blocks != []
    ensures Expected(blocks, loc)
         == [Count(blocks[0].n, loc + 1), StartTime(blocks[0].start, loc + 2), EndTime(blocks[0].end, loc + 2),
             Subtitle(blocks[0].text, loc + 3)] + Expected(blocks[1..], loc + 3 + |blocks[0].text|)
  {
  }

  lemma ExpectedNil(loc: nat)
    ensures Expected([], loc) == [Eof]
  {
  }

  lemma TestCounters()
    ensures Discontinuities(Counters(TestBlocks), 0) == 0
  {
    var bs := TestBlocks;
    assert bs[1..][1..][1..][1..][1..] == [];
    assert Counters(bs) == [1, 2, 3, 4, 5];
    assert Discontinuities([1, 2, 3, 4, 5], 0) == 0;
  }

  /** Those blocks, written in canonical form, give the expected token list and no issue in strict mode. */
  lemma TestFile()
    ensures AllRenderable(TestBlocks)
    ensures Tokenize(Render(TestBlocks), true) == Ok((TestTokens, 0))
  {
    hide Tokenize, Render, Expected, Counters, Discontinuities;
    TestExpected();
    TokenizeRender(TestBlocks, true);
  }

  /** A file whose counters go down from 3 to 1. */
  const DecreasingBlocks: seq<Block> := [Block(3, 0, 1000, ["a"]), Block(1, 2000, 3000, ["b"])]

  /** Their tokens, each tagged with its line. */
  const DecreasingTokens: seq<Token> := [
    Count(3, 1), StartTime(0, 2), EndTime(1000, 2), Subtitle(["a"], 3),
    Count(1, 5), StartTime(2000, 6), EndTime(3000, 6), Subtitle(["b"], 7),
    Eof
  ]

  lemma DecreasingExpected()
    ensures AllRenderable(DecreasingBlocks)
    ensures Expected(DecreasingBlocks, 0) == DecreasingTokens
    ensures Discontinuities(Counters(DecreasingBlocks), 0) == 2
  {
    var bs := DecreasingBlocks;
    assert bs[1..][1..] == [];
    assert Expected(bs[1..], 4) == [Count(1, 5), StartTime(2000, 6), EndTime(3000, 6), Subtitle(["b"], 7), Eof];
    assert Counters(bs) == [3, 1];
    assert Discontinuities([3, 1], 0) == 2;
  }

  /**
   * The model tokenizes a file whose counters go down and counts two
   * discontinuities (the first counter is not 1, the second does not follow
   * 3), where the source's subtraction `1 - 3` panics in a debug build.
   */
  lemma DecreasingCounter(strict: bool)
    ensures AllRenderable(DecreasingBlocks)
    ensures Tokenize(Render(DecreasingBlocks), strict) == Ok((DecreasingTokens, 2))
  {
    hide Tokenize, Render, Expected, Counters, Discontinuities;
    DecreasingExpected();
    TokenizeRender(DecreasingBlocks, strict);
  }

  /**
   * The source's subtraction on the same counters: `3 - 0` is fine, `1 - 3`
   * panics in a debug build and wraps to 2^64 - 2 in a release build, which
   * is still counted as a discontinuity.
   */
  lemma DecreasingGap()
    ensures CounterGapAsWritten(3, 0, false) == Some(3)
    ensures CounterGapAsWritten(1, 3, false) == None
    ensures CounterGapAsWritten(1, 3, true) == Some(U64_LIMIT - 2)
  {
  }
}
