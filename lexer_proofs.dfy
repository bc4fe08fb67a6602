/**
 * What a successful run of the tokenizer guarantees, stated block by block
 * against the input lines, and the issue count it reports.
 */
module LexerProofs {
  import opened Wrappers
  import opened Strings
  import opened Lexing

  // ---------------------------------------------------------------------------
  // The shape of a token stream
  // ---------------------------------------------------------------------------

  /** N groups `Count, StartTime, EndTime, Subtitle`, then a single `Eof`. */
  predicate Grouped(toks: seq<Token>)
    decreases |toks|
  {
    toks == [Eof]
    || (|toks| >= 5 && toks[0].Count? && toks[1].StartTime? && toks[2].EndTime? && toks[3].Subtitle?
        && Grouped(toks[4..]))
  }

  /** The position of a token kind within its group; `Eof` has none. */
  function Kind(t: Token): nat
  {
    match t
    case Count(_, _) => 0
    case StartTime(_, _) => 1
    case EndTime(_, _) => 2
    case Subtitle(_, _) => 3
    case Eof => 4
  }

  /** A grouped stream has 4N+1 tokens, kinds cycling with period four, and `Eof` only at the end. */
  lemma {:induction false} GroupedShape(toks: seq<Token>)
    requires Grouped(toks)
    ensures |toks| % 4 == 1 && toks[|toks| - 1] == Eof
    ensures forall i | 0 <= i < |toks| - 1 :: Kind(toks[i]) == i % 4
    decreases |toks|
  {
    if toks != [Eof] {
      var rest := toks[4..];
      GroupedShape(rest);
      forall i | 0 <= i < |toks| - 1
        ensures Kind(toks[i]) == i % 4
      {
        if i >= 4 {
          assert toks[i] == rest[i - 4];
        }
      }
    }
  }

  // ---------------------------------------------------------------------------
  // Block-by-block description of a successful run
  // ---------------------------------------------------------------------------

  /** The counter line at index `loc` reads `n`. */
  predicate CounterAt(lines: seq<string>, loc: nat, n: nat)
    requires loc < |lines|
  {
    ParseUnsigned(lines[loc], U64_LIMIT) == Some(n)
  }

  /** The line at index `loc` holds two timestamps around `-->`, decoding to `b` and `e`. */
  predicate TimesAt(lines: seq<string>, loc: nat, b: nat, e: nat)
    requires loc < |lines|
  {
    var parts := Split(lines[loc], ARROW);
    |parts| == 2
    && DecodeTime(Trim(parts[0]), loc + 1) == Ok(b)
    && DecodeTime(Trim(parts[1]), loc + 1) == Ok(e)
  }

  /** From index `loc` the lines are `text`, all non-empty, and then an empty line. */
  predicate TextAt(lines: seq<string>, loc: nat, text: seq<string>)
  {
    loc + |text| < |lines|
    && lines[loc..loc + |text|] == text
    && (forall j | 0 <= j < |text| :: text[j] != "")
    && lines[loc + |text|] == ""
  }

  /**
   * The four tokens `t` describe the block whose counter is on line index
   * `loc`: the counter line parses, the next line holds two decodable
   * timestamps, the text lines follow, and each token carries its 1-based
   * line number.
   */
  predicate BlockAt(lines: seq<string>, loc: nat, t: seq<Token>)
  {
    |t| == 4 && t[0].Count? && t[1].StartTime? && t[2].EndTime? && t[3].Subtitle?
    && t[0].line == loc + 1 && t[1].line == loc + 2 && t[2].line == loc + 2 && t[3].line == loc + 3
    && loc + 2 < |lines|
    && CounterAt(lines, loc, t[0].n)
    && TimesAt(lines, loc + 1, t[1].ms, t[2].ms)
    && TextAt(lines, loc + 2, t[3].text)
  }

  /** `toks` is what the lines from index `loc` on say, block after block, up to `Eof`. */
  predicate Lexes(lines: seq<string>, loc: nat, toks: seq<Token>)
    requires WellEnded(lines) && loc <= |lines|
    decreases |lines| - loc
  {
    if loc == |lines| then toks == [Eof]
    else
      |toks| >= 4 && BlockAt(lines, loc, toks[..4])
      && Lexes(lines, loc + 3 + |toks[3].text|, toks[4..])
  }

  /** Every stream that describes the lines is grouped. */
  lemma {:induction false} LexesGrouped(lines: seq<string>, loc: nat, toks: seq<Token>)
    requires WellEnded(lines) && loc <= |lines| && Lexes(lines, loc, toks)
    ensures Grouped(toks)
    decreases |lines| - loc
  {
    hide CounterAt, TimesAt;
    if loc < |lines| {
      LexesGrouped(lines, loc + 3 + |toks[3].text|, toks[4..]);
    }
  }

  // ---------------------------------------------------------------------------
  // Counter discontinuities
  // ---------------------------------------------------------------------------

  /** The counter values of a token list, in order. */
  function Counts(toks: seq<Token>): seq<nat>
  {
    if toks == [] then []
    else (if toks[0].Count? then [toks[0].n] else []) + Counts(toks[1..])
  }

  /** How many counters in `ns` are not one more than their predecessor (`prev` before the first). */
  function Discontinuities(ns: seq<nat>, prev: nat): nat
  {
    if ns == [] then 0
    else (if IsDiscontinuity(ns[0], prev) then 1 else 0) + Discontinuities(ns[1..], ns[0])
  }

  lemma {:induction false} CountsAppend(a: seq<Token>, b: seq<Token>)
    ensures Counts(a + b) == Counts(a) + Counts(b)
    decreases |a|
  {
    if a == [] {
      assert a + b == b;
    } else {
      assert (a + b)[0] == a[0] && (a + b)[1..] == a[1..] + b;
      CountsAppend(a[1..], b);
      var head := if a[0].Count? then [a[0].n] else [];
      assert head + (Counts(a[1..]) + Counts(b)) == (head + Counts(a[1..])) + Counts(b);
    }
  }

  /**
   * Wherever the source's subtraction does not panic it flags the same
   * counters as `IsDiscontinuity`, except for the wrap from 2^64 - 1 to 0,
   * which a release build takes for a successor.
   */
  lemma CounterGapAgrees(n: nat, previous: nat, wrapping: bool)
    requires n < U64_LIMIT && previous < U64_LIMIT
    ensures CounterGapAsWritten(n, previous, wrapping).Some? ==>
              (CounterGapAsWritten(n, previous, wrapping).value != 1
               <==> IsDiscontinuity(n, previous) && !(n == 0 && previous == U64_LIMIT - 1))
  {
  }

  // ---------------------------------------------------------------------------
  // From the machine to the description
  // ---------------------------------------------------------------------------

  /** A run that takes a step emits that step's tokens before the rest. */
  lemma RunStep(lines: seq<string>, strict: bool, c: Config, out: seq<Token>, next: Config)
    requires WellEnded(lines) && c.loc < |lines|
    requires Step(lines, strict, c) == Ok((out, next))
    ensures next.loc <= |lines|
    ensures Run(lines, strict, c) == Emit(out, Run(lines, strict, next))
  {
  }

  /** The empty line that ends the input is neither a counter nor a time range. */
  lemma EmptyLine()
    ensures ParseUnsigned("", U64_LIMIT) == None
    ensures |Split("", ARROW)| == 1
  {
    SplitWhole("", ARROW);
  }

  /** What a successful `Counter` step reads and does. */
  lemma CounterStepInv(lines: seq<string>, c: Config, out: seq<Token>, next: Config)
    requires c.loc < |lines| && CounterStep(lines, c) == Ok((out, next))
    ensures lines[c.loc] != ""
    ensures |out| == 1 && out[0].Count? && out[0].line == c.loc + 1 && CounterAt(lines, c.loc, out[0].n)
    ensures next == Config(c.loc + 1, Time, c.issues + (if IsDiscontinuity(out[0].n, c.last.0) then 1 else 0),
                           (out[0].n, c.loc + 1))
  {
    hide ParseUnsigned;
  }

  /** What a successful `Time` step reads and does. */
  lemma TimeStepInv(lines: seq<string>, strict: bool, c: Config, out: seq<Token>, next: Config)
    requires c.loc < |lines| && TimeStep(lines, strict, c) == Ok((out, next))
    ensures lines[c.loc] != ""
    ensures |out| == 2 && out[0].StartTime? && out[1].EndTime? && out[0].line == c.loc + 1 && out[1].line == c.loc + 1
    ensures TimesAt(lines, c.loc, out[0].ms, out[1].ms)
    ensures next.loc == c.loc + 1 && next.state == Sub && next.last == c.last
    ensures c.issues <= next.issues <= c.issues + 2 && (!strict ==> next.issues == c.issues)
  {
    hide DecodeTime, PaddingIssues, Trim;
    EmptyLine();
  }

  /** What a `Sub` step reads and does. */
  lemma SubStepInv(lines: seq<string>, c: Config, out: seq<Token>, next: Config)
    requires WellEnded(lines) && c.loc < |lines| && SubStep(lines, c) == Ok((out, next))
    ensures |out| == 1 && out[0].Subtitle? && out[0].line == c.loc + 1 && TextAt(lines, c.loc, out[0].text)
    ensures next == Config(c.loc + |out[0].text| + 1, Counter, c.issues, c.last)
  {
  }

  /** The counters of one block. */
  lemma CountsBlock(block: seq<Token>)
    requires |block| == 4 && block[0].Count? && !block[1].Count? && !block[2].Count? && !block[3].Count?
    ensures Counts(block) == [block[0].n]
  {
    assert Counts(block[3..]) == [];
    assert block[2..][1..] == block[3..];
    assert Counts(block[2..]) == [];
    assert block[1..][1..] == block[2..];
    assert Counts(block[1..]) == [];
  }

  /**
   * Soundness of the machine: a successful run from a counter line is the
   * block-by-block description of the lines; it counts one issue per counter
   * discontinuity, plus, in strict mode only, at most two per block.
   */
  lemma {:induction false} RunLexes(lines: seq<string>, strict: bool, c: Config, toks: seq<Token>, k: nat)
    requires WellEnded(lines) && c.loc <= |lines| && c.state == Counter
    requires Run(lines, strict, c) == Ok((toks, k))
    ensures Lexes(lines, c.loc, toks)
    ensures k >= c.issues + Discontinuities(Counts(toks), c.last.0)
    ensures k <= c.issues + Discontinuities(Counts(toks), c.last.0) + 2 * (|toks| / 4)
    ensures !strict ==> k == c.issues + Discontinuities(Counts(toks), c.last.0)
    decreases |lines| - c.loc
  {
    hide CounterStep, TimeStep, SubStep, CounterAt, TimesAt, TextAt, Lexes, Counts, Discontinuities;
    if c.loc < |lines| {
      var loc := c.loc;
      // The counter line; it is not the final empty line.
      var (o1, c1) := Step(lines, strict, c).value;
      CounterStepInv(lines, c, o1, c1);
      RunStep(lines, strict, c, o1, c1);
      // The time-range line; it is not the final empty line either.
      var (o2, c2) := Step(lines, strict, c1).value;
      TimeStepInv(lines, strict, c1, o2, c2);
      RunStep(lines, strict, c1, o2, c2);
      // The text lines and the empty line after them.
      var (o3, c3) := Step(lines, strict, c2).value;
      SubStepInv(lines, c2, o3, c3);
      RunStep(lines, strict, c2, o3, c3);
      var (toks', k') := Run(lines, strict, c3).value;
      RunLexes(lines, strict, c3, toks', k');
      var block := o1 + o2 + o3;
      assert toks == block + toks';
      assert toks[..4] == block && toks[4..] == toks';
      assert BlockAt(lines, loc, block);
      LexesCons(lines, loc, toks);
      CountsAppend(block, toks');
      CountsBlock(block);
      DiscontinuitiesCons(o1[0].n, Counts(toks'), c.last.0);
    } else {
      EndOfLines(lines, c.last.0);
    }
  }

  /** At the end of the lines the description is a lone `Eof`, which holds no counter. */
  lemma EndOfLines(lines: seq<string>, prev: nat)
    requires WellEnded(lines)
    ensures Lexes(lines, |lines|, [Eof]) && Discontinuities(Counts([Eof]), prev) == 0
  {
    assert Counts([Eof]) == [] + Counts([]);
  }

  // ---------------------------------------------------------------------------
  // From the description to the machine
  // ---------------------------------------------------------------------------

  /** A counter line that parses is lexed into its `Count` token. */
  lemma CounterStepOk(lines: seq<string>, c: Config, n: nat)
    requires c.loc < |lines| && CounterAt(lines, c.loc, n)
    ensures CounterStep(lines, c) == Ok(([Count(n, c.loc + 1)],
      Config(c.loc + 1, Time, c.issues + (if IsDiscontinuity(n, c.last.0) then 1 else 0), (n, c.loc + 1))))
  {
    hide ParseUnsigned;
  }

  /** The text lines of a block are determined by the lines: they run up to the first empty line. */
  lemma CollectSubText(lines: seq<string>, loc: nat, text: seq<string>)
    requires WellEnded(lines) && TextAt(lines, loc, text)
    ensures CollectSub(lines, loc) == (text, loc + |text| + 1)
  {
    var r := CollectSub(lines, loc).0;
    assert |r| == |text|;
    forall j | 0 <= j < |r|
      ensures r[j] == text[j]
    {
      assert r[j] == lines[loc + j] == text[j];
    }
  }

  /** The `Sub` step on a block's text lines. */
  lemma SubStepOk(lines: seq<string>, c: Config, text: seq<string>)
    requires WellEnded(lines) && c.loc < |lines| && TextAt(lines, c.loc, text)
    ensures SubStep(lines, c) == Ok(([Subtitle(text, c.loc + 1)], Config(c.loc + |text| + 1, Counter, c.issues, c.last)))
  {
    hide CollectSub;
    CollectSubText(lines, c.loc, text);
  }

  /** The issues that strict mode finds in the padding of the two timestamps of a time-range line. */
  function LinePadding(line: string, strict: bool): (k: nat)
    ensures k <= 2 && (!strict ==> k == 0)
  {
    var parts := Split(line, ARROW);
    if |parts| == 2 then PaddingIssues(Trim(parts[0]), strict) + PaddingIssues(Trim(parts[1]), strict) else 0
  }

  /** The `Time` step on a line holding two decodable timestamps. */
  lemma TimeStepAt(lines: seq<string>, strict: bool, c: Config, b: nat, e: nat)
    requires c.loc < |lines| && TimesAt(lines, c.loc, b, e)
    ensures TimeStep(lines, strict, c) == Ok(([StartTime(b, c.loc + 1), EndTime(e, c.loc + 1)],
      Config(c.loc + 1, Sub, c.issues + LinePadding(lines[c.loc], strict), c.last)))
  {
    hide DecodeTime, PaddingIssues, Trim, TimeStep;
    TimeStepOk(lines, strict, c, b, e);
  }

  /** The issues that strict mode finds in the padding of the time lines that `toks` describes. */
  function PaddingTotal(lines: seq<string>, strict: bool, loc: nat, toks: seq<Token>): (k: nat)
    ensures !strict ==> k == 0
    decreases |lines| - loc
  {
    if loc + 1 < |lines| && |toks| >= 4 && toks[3].Subtitle?
    then LinePadding(lines[loc + 1], strict) + PaddingTotal(lines, strict, loc + 3 + |toks[3].text|, toks[4..])
    else 0
  }

  /** `PaddingTotal` of a stream that starts with a block. */
  lemma PaddingTotalBlock(lines: seq<string>, strict: bool, loc: nat, toks: seq<Token>)
    requires loc + 1 < |lines| && |toks| >= 4 && toks[3].Subtitle?
    ensures PaddingTotal(lines, strict, loc, toks)
         == LinePadding(lines[loc + 1], strict) + PaddingTotal(lines, strict, loc + 3 + |toks[3].text|, toks[4..])
  {
  }

  /** A description from a line that is not the last starts with a block. */
  lemma LexesBlock(lines: seq<string>, loc: nat, toks: seq<Token>)
    requires WellEnded(lines) && loc < |lines| && Lexes(lines, loc, toks)
    ensures |toks| >= 4 && BlockAt(lines, loc, toks[..4])
    ensures loc + 3 + |toks[3].text| <= |lines| && Lexes(lines, loc + 3 + |toks[3].text|, toks[4..])
  {
    hide CounterAt, TimesAt;
  }

  /** A block followed by a description of the lines after it is a description. */
  lemma LexesCons(lines: seq<string>, loc: nat, toks: seq<Token>)
    requires WellEnded(lines) && loc < |lines| && |toks| >= 4 && BlockAt(lines, loc, toks[..4])
    requires loc + 3 + |toks[3].text| <= |lines| && Lexes(lines, loc + 3 + |toks[3].text|, toks[4..])
    ensures Lexes(lines, loc, toks)
  {
    hide BlockAt;
  }

  /** At the end of the lines the description is a lone `Eof`, which is what the machine emits. */
  lemma LexesEnd(lines: seq<string>, strict: bool, c: Config, toks: seq<Token>)
    requires WellEnded(lines) && c.loc == |lines| && Lexes(lines, c.loc, toks)
    ensures Run(lines, strict, c)
         == Ok((toks, c.issues + Discontinuities(Counts(toks), c.last.0) + PaddingTotal(lines, strict, c.loc, toks)))
  {
    assert Counts(toks) == [];
  }

  /** The `Discontinuities` of a counter list that starts with `n`. */
  lemma DiscontinuitiesCons(n: nat, ns: seq<nat>, prev: nat)
    ensures Discontinuities([n] + ns, prev) == (if IsDiscontinuity(n, prev) then 1 else 0) + Discontinuities(ns, n)
  {
    assert ([n] + ns)[1..] == ns;
  }

  /**
   * Completeness of the machine: lines that the tokens describe block by block
   * are lexed into exactly those tokens, with one issue per counter
   * discontinuity plus the padding issues of strict mode.
   */
  lemma {:induction false} LexesRun(lines: seq<string>, strict: bool, c: Config, toks: seq<Token>)
    requires WellEnded(lines) && c.loc <= |lines| && c.state == Counter && Lexes(lines, c.loc, toks)
    ensures Run(lines, strict, c)
         == Ok((toks, c.issues + Discontinuities(Counts(toks), c.last.0) + PaddingTotal(lines, strict, c.loc, toks)))
    decreases |lines| - c.loc
  {
    hide CounterStep, TimeStep, SubStep, CounterAt, TimesAt, TextAt, LinePadding, Lexes, PaddingTotal, Run,
      Counts, Discontinuities;
    if c.loc == |lines| {
      LexesEnd(lines, strict, c, toks);
    } else {
      var loc := c.loc;
      LexesBlock(lines, loc, toks);
      var block, rest := toks[..4], toks[4..];
      var n, b, e, text := block[0].n, block[1].ms, block[2].ms, block[3].text;
      var o1, o2, o3 := [Count(n, loc + 1)], [StartTime(b, loc + 2), EndTime(e, loc + 2)], [Subtitle(text, loc + 3)];
      assert block == o1 + o2 + o3;
      // The counter line.
      CounterStepOk(lines, c, n);
      var c1 := Config(loc + 1, Time, c.issues + (if IsDiscontinuity(n, c.last.0) then 1 else 0), (n, loc + 1));
      RunStep(lines, strict, c, o1, c1);
      // The time-range line.
      TimeStepAt(lines, strict, c1, b, e);
      var c2 := Config(loc + 2, Sub, c1.issues + LinePadding(lines[loc + 1], strict), c1.last);
      RunStep(lines, strict, c1, o2, c2);
      // The text lines and the empty line after them.
      SubStepOk(lines, c2, text);
      var c3 := Config(loc + 3 + |text|, Counter, c2.issues, c2.last);
      RunStep(lines, strict, c2, o3, c3);
      LexesRun(lines, strict, c3, rest);
      assert toks == o1 + (o2 + (o3 + rest));
      PaddingTotalBlock(lines, strict, loc, toks);
      assert toks == block + rest;
      CountsAppend(block, rest);
      CountsBlock(block);
      DiscontinuitiesCons(n, Counts(rest), c.last.0);
    }
  }

  // ---------------------------------------------------------------------------
  // The whole tokenizer
  // ---------------------------------------------------------------------------

  /**
   * A successful run describes the prepared lines block by block, in 4N+1
   * tokens ending with the only `Eof`, and counts one issue per counter
   * discontinuity plus the padding issues of strict mode.
   */
  lemma TokenizeSound(input: seq<string>, strict: bool, toks: seq<Token>, k: nat)
    requires Tokenize(input, strict) == Ok((toks, k))
    ensures Prepare(input).Ok? && Lexes(Prepare(input).value, 0, toks)
    ensures Grouped(toks) && |toks| % 4 == 1 && toks[|toks| - 1] == Eof
    ensures forall i | 0 <= i < |toks| - 1 :: toks[i] != Eof
    ensures k == Discontinuities(Counts(toks), 0) + PaddingTotal(Prepare(input).value, strict, 0, toks)
  {
    hide Run, Lexes, PaddingTotal, Counts, Discontinuities, Grouped;
    var lines := Prepare(input).value;
    RunLexes(lines, strict, Start, toks, k);
    LexesGrouped(lines, 0, toks);
    GroupedShape(toks);
    LexesRun(lines, strict, Start, toks);
    forall i | 0 <= i < |toks| - 1
      ensures toks[i] != Eof
    {
      assert Kind(toks[i]) < 4;
    }
  }

  /** Conversely, lines that tokens describe block by block are tokenized into exactly those tokens. */
  lemma TokenizeComplete(input: seq<string>, strict: bool, toks: seq<Token>)
    requires Prepare(input).Ok? && Lexes(Prepare(input).value, 0, toks)
    ensures Tokenize(input, strict)
         == Ok((toks, Discontinuities(Counts(toks), 0) + PaddingTotal(Prepare(input).value, strict, 0, toks)))
  {
    hide Run, Lexes, PaddingTotal, Counts, Discontinuities;
    LexesRun(Prepare(input).value, strict, Start, toks);
  }
}
