/**
 * The `.srt` tokenizer (src/frontend/lexer.rs): a three-state machine
 * (Counter -> Time -> Sub -> Counter) over the lines of a file.
 *
 * `Run` and its helpers are the value-level specification of the machine;
 * the class `Lexer` is the imperative tokenizer, whose `Lex` method is proved
 * to compute exactly `Run`.  Logging is not modelled: every `print_log` call
 * is dropped, so verbosity has no observable effect.
 */
module Lexing {
  import opened Wrappers
  import opened Strings

  /** `usize` and `u64` both hold the values below 2^64 (a 64-bit target). */
  const U64_LIMIT: nat := 0x1_0000_0000_0000_0000
  const BOM: char := '\U{FEFF}'
  const ARROW: string := "-->"

  /** A token, tagged with the 1-based number of the line it was read from. */
  datatype Token =
    | Count(n: nat, line: nat)
    | StartTime(ms: nat, line: nat)
    | EndTime(ms: nat, line: nat)
    | Subtitle(text: seq<string>, line: nat)
    | Eof

  datatype LexState = Counter | Time | Sub

  /**
   * The fatal conditions.  The source reports each with an error log and
   * `ExitCode::FAILURE` (or `exit(1)`, or an index panic for `MissingMillis`);
   * all of them end the run.
   */
  datatype LexError =
    | EmptyInput
    | MalformedCounter(line: nat)
    | MalformedTimeRange(line: nat)
    | InvalidTimestamp(line: nat)
    | MissingMillis(line: nat)
    | UnparseableTimestamp(line: nat)

  // ---------------------------------------------------------------------------
  // Construction: preparing the lines
  // ---------------------------------------------------------------------------

  /** The line list ends with an empty line, which terminates the last block. */
  predicate WellEnded(lines: seq<string>)
  {
    |lines| > 0 && lines[|lines| - 1] == ""
  }

  /** `remove_bom`: drops a leading U+FEFF and nothing else. */
  function RemoveBom(s: string): (r: string)
    ensures |s| > 0 && s[0] == BOM ==> s == [BOM] + r
    ensures !(|s| > 0 && s[0] == BOM) ==> r == s
  {
    if |s| > 0 && s[0] == BOM then s[1..] else s
  }

  /**
   * What `Lexer::new` stores: it fails on an empty file, appends one empty line
   * when the last line is not empty, and strips a byte-order mark from the
   * first line only.
   */
  function Prepare(input: seq<string>): (r: Result<seq<string>, LexError>)
    ensures r.Err? <==> input == []
    ensures r.Err? ==> r.error == EmptyInput
    ensures r.Ok? ==> WellEnded(r.value)
    ensures r.Ok? ==> |r.value| == |input| + (if input[|input| - 1] == "" then 0 else 1)
    ensures r.Ok? ==> r.value[0] == RemoveBom(input[0])
    ensures r.Ok? ==> forall i | 1 <= i < |input| :: r.value[i] == input[i]
  {
    if input == [] then Err(EmptyInput)
    else
      var lines := if input[|input| - 1] == "" then input else input + [""];
      Ok(lines[0 := RemoveBom(lines[0])])
  }

  // ---------------------------------------------------------------------------
  // Timestamps: `HH:MM:SS,mmm`
  // ---------------------------------------------------------------------------

  /** The four numeric fields of a timestamp, as text. */
  datatype Dials = Dials(hh: string, mm: string, ss: string, ms: string)

  /**
   * The shape checks of `lex_time`: exactly three `:` fields, and a `,` in the
   * third.  Fields after a second comma are ignored; with no comma at all the
   * source indexes past the end of the field list and panics.
   */
  function SplitDials(time: string, line: nat): (r: Result<Dials, LexError>)
  {
    var dials := Split(time, ":");
    if |dials| != 3 then Err(InvalidTimestamp(line))
    else
      var last := Split(dials[2], ",");
      if |last| < 2 then Err(MissingMillis(line))
      else Ok(Dials(dials[0], dials[1], last[0], last[1]))
  }

  /** The canonical widths 2, 2, 2 and 3 that strict mode expects. */
  predicate Padded(d: Dials)
  {
    |d.hh| == 2 && |d.mm| == 2 && |d.ss| == 2 && |d.ms| == 3
  }

  /** Issues that strict mode counts for one timestamp: one when its shape is valid but its padding is not. */
  function PaddingIssues(time: string, strict: bool): (k: nat)
    ensures k <= 1 && (!strict ==> k == 0)
  {
    match SplitDials(time, 0)
    case Ok(d) => if strict && !Padded(d) then 1 else 0
    case Err(_) => 0
  }

  /** The arithmetic at the end of `lex_time`: hour, minute and second dials weighted in milliseconds. */
  function Millis(hh: nat, mm: nat, ss: nat, ms: nat): nat
  {
    hh * 3_600_000 + mm * 60_000 + ss * 1_000 + ms
  }

  /** The value of a timestamp whose shape is valid; each field must parse as a `u64`. */
  function DialsValue(d: Dials, line: nat): (r: Result<nat, LexError>)
    ensures r.Ok? <==> ParseUnsigned(d.hh, U64_LIMIT).Some? && ParseUnsigned(d.mm, U64_LIMIT).Some?
                       && ParseUnsigned(d.ss, U64_LIMIT).Some? && ParseUnsigned(d.ms, U64_LIMIT).Some?
    ensures r.Err? ==> r.error == UnparseableTimestamp(line)
  {
    match (ParseUnsigned(d.ms, U64_LIMIT), ParseUnsigned(d.hh, U64_LIMIT), ParseUnsigned(d.mm, U64_LIMIT), ParseUnsigned(d.ss, U64_LIMIT))
    case (Some(ms), Some(hh), Some(mm), Some(ss)) => Ok(Millis(hh, mm, ss, ms))
    case _ => Err(UnparseableTimestamp(line))
  }

  /** What `lex_time` returns for the timestamp `time` read on line `line`. */
  function DecodeTime(time: string, line: nat): (r: Result<nat, LexError>)
  {
    match SplitDials(time, line)
    case Err(e) => Err(e)
    case Ok(d) => DialsValue(d, line)
  }

  /** `DecodeTime` and `PaddingIssues` by the shape of the timestamp, in the order `lex_time` checks it. */
  lemma DecodeCases(time: string, line: nat, strict: bool)
    ensures var dials := Split(time, ":");
            |dials| != 3 ==> DecodeTime(time, line) == Err(InvalidTimestamp(line)) && PaddingIssues(time, strict) == 0
    ensures var dials := Split(time, ":");
            |dials| == 3 && |Split(dials[2], ",")| < 2
            ==> DecodeTime(time, line) == Err(MissingMillis(line)) && PaddingIssues(time, strict) == 0
    ensures var dials := Split(time, ":");
            |dials| == 3 && |Split(dials[2], ",")| >= 2
            ==> var d := Dials(dials[0], dials[1], Split(dials[2], ",")[0], Split(dials[2], ",")[1]);
                DecodeTime(time, line) == DialsValue(d, line)
                && PaddingIssues(time, strict) == if strict && !Padded(d) then 1 else 0
  {
    hide DialsValue, Split;
  }

  // ---------------------------------------------------------------------------
  // The state machine, as a value
  // ---------------------------------------------------------------------------

  /** A counter is out of sequence unless it is one more than the previous one (0 before the first). */
  predicate IsDiscontinuity(n: nat, previous: nat)
  {
    n != previous + 1
  }

  /**
   * The source's test `(result - last_count.0) != 1` as written, on `usize`:
   * a debug build panics (`None`) when the counter goes down, a release build
   * wraps the difference modulo 2^64.  The model counts with `IsDiscontinuity`.
   */
  function CounterGapAsWritten(n: nat, previous: nat, wrapping: bool): (r: Option<int>)
    ensures r.None? <==> !wrapping && n < previous
  {
    if n >= previous then Some(n - previous)
    else if wrapping then Some((n - previous) % U64_LIMIT)
    else None
  }

  /**
   * The `Sub` state from line index `loc`: the lines up to the next empty
   * line, and the index just after that empty line.
   */
  function CollectSub(lines: seq<string>, loc: nat): (r: (seq<string>, nat))
    requires WellEnded(lines) && loc < |lines|
    ensures r.1 == loc + |r.0| + 1 <= |lines|
    ensures lines[loc..loc + |r.0|] == r.0 && lines[loc + |r.0|] == ""
    ensures forall j | 0 <= j < |r.0| :: r.0[j] != ""
    decreases |lines| - loc
  {
    if lines[loc] == "" then ([], loc + 1)
    else
      var rest := CollectSub(lines, loc + 1);
      ([lines[loc]] + rest.0, rest.1)
  }

  /** One text line of a `Sub` block, followed by the rest of the block. */
  lemma CollectSubNext(lines: seq<string>, loc: nat)
    requires WellEnded(lines) && loc < |lines| && lines[loc] != ""
    ensures loc + 1 < |lines|
    ensures CollectSub(lines, loc) == ([lines[loc]] + CollectSub(lines, loc + 1).0, CollectSub(lines, loc + 1).1)
  {
  }

  /** An empty line ends the text at once. */
  lemma CollectSubEnd(lines: seq<string>, loc: nat)
    requires WellEnded(lines) && loc < |lines| && lines[loc] == ""
    ensures CollectSub(lines, loc) == ([], loc + 1)
  {
  }

  /** Prefix tokens to a successful outcome; failures pass through. */
  function Emit(ts: seq<Token>, r: Result<(seq<Token>, nat), LexError>): Result<(seq<Token>, nat), LexError>
  {
    match r
    case Ok((toks, issues)) => Ok((ts + toks, issues))
    case Err(e) => Err(e)
  }

  lemma EmitNothing(r: Result<(seq<Token>, nat), LexError>)
    ensures Emit([], r) == r
  {
    if r.Ok? {
      assert [] + r.value.0 == r.value.0;
    }
  }

  lemma EmitEmit(a: seq<Token>, b: seq<Token>, r: Result<(seq<Token>, nat), LexError>)
    ensures Emit(a, Emit(b, r)) == Emit(a + b, r)
  {
    if r.Ok? {
      assert a + (b + r.value.0) == (a + b) + r.value.0;
    }
  }

  /**
   * The machine's configuration: the cursor as a line index (`|lines|` stands
   * for the exhausted cursor `None`), the state, the issues counted so far and
   * the last counter with its line.
   */
  datatype Config = Config(loc: nat, state: LexState, issues: nat, last: (nat, nat))

  /** The `Counter` arm: one counter line. */
  function CounterStep(lines: seq<string>, c: Config): (r: Result<(seq<Token>, Config), LexError>)
    requires c.loc < |lines|
  {
    match ParseUnsigned(lines[c.loc], U64_LIMIT)
    case None => Err(MalformedCounter(c.loc + 1))
    case Some(n) =>
      var issues := if IsDiscontinuity(n, c.last.0) then c.issues + 1 else c.issues;
      Ok(([Count(n, c.loc + 1)], Config(c.loc + 1, Time, issues, (n, c.loc + 1))))
  }

  /** The `Time` arm: one time-range line, `begin --> end`. */
  function TimeStep(lines: seq<string>, strict: bool, c: Config): (r: Result<(seq<Token>, Config), LexError>)
    requires c.loc < |lines|
  {
    var times := Split(lines[c.loc], ARROW);
    if |times| != 2 then Err(MalformedTimeRange(c.loc + 1))
    else
      var begin, end := Trim(times[0]), Trim(times[1]);
      var b, e := DecodeTime(begin, c.loc + 1), DecodeTime(end, c.loc + 1);
      if b.Err? then Err(b.error)
      else if e.Err? then Err(e.error)
      else
        var issues := c.issues + PaddingIssues(begin, strict) + PaddingIssues(end, strict);
        Ok(([StartTime(b.value, c.loc + 1), EndTime(e.value, c.loc + 1)], Config(c.loc + 1, Sub, issues, c.last)))
  }

  /** `TimeStep` on a line whose two timestamps decode. */
  lemma TimeStepOk(lines: seq<string>, strict: bool, c: Config, b: nat, e: nat)
    requires c.loc < |lines|
    requires |Split(lines[c.loc], ARROW)| == 2
    requires DecodeTime(Trim(Split(lines[c.loc], ARROW)[0]), c.loc + 1) == Ok(b)
    requires DecodeTime(Trim(Split(lines[c.loc], ARROW)[1]), c.loc + 1) == Ok(e)
    ensures TimeStep(lines, strict, c) == Ok(([StartTime(b, c.loc + 1), EndTime(e, c.loc + 1)],
      Config(c.loc + 1, Sub, c.issues + PaddingIssues(Trim(Split(lines[c.loc], ARROW)[0]), strict)
                                      + PaddingIssues(Trim(Split(lines[c.loc], ARROW)[1]), strict), c.last)))
  {
    hide DecodeTime, PaddingIssues, Trim, Split;
  }

  /** The `Sub` arm: the text lines of one block and the empty line after them. */
  function SubStep(lines: seq<string>, c: Config): (r: Result<(seq<Token>, Config), LexError>)
    requires WellEnded(lines) && c.loc < |lines|
  {
    var (text, next) := CollectSub(lines, c.loc);
    Ok(([Subtitle(text, c.loc + 1)], Config(next, Counter, c.issues, c.last)))
  }

  /** One pass of the `lex` loop, from a configuration whose cursor is on a line. */
  function Step(lines: seq<string>, strict: bool, c: Config): (r: Result<(seq<Token>, Config), LexError>)
    requires WellEnded(lines) && c.loc < |lines|
    ensures r.Ok? ==> c.loc < r.value.1.loc <= |lines|
  {
    match c.state
    case Counter => CounterStep(lines, c)
    case Time => TimeStep(lines, strict, c)
    case Sub => SubStep(lines, c)
  }

  /**
   * The tokens emitted, and the final issue count, from configuration `c` to
   * the end of the input.  An exhausted cursor emits `Eof` whatever the state.
   */
  function Run(lines: seq<string>, strict: bool, c: Config): Result<(seq<Token>, nat), LexError>
    requires WellEnded(lines) && c.loc <= |lines|
    decreases |lines| - c.loc
  {
    if c.loc == |lines| then Ok(([Eof], c.issues))
    else match Step(lines, strict, c)
      case Err(e) => Err(e)
      case Ok((out, next)) => Emit(out, Run(lines, strict, next))
  }

  /** The configuration `Lexer::new` starts from. */
  const Start: Config := Config(0, Counter, 0, (0, 0))

  /** The whole tokenizer: `Lexer::new` followed by `lex`. */
  function Tokenize(input: seq<string>, strict: bool): Result<(seq<Token>, nat), LexError>
  {
    match Prepare(input)
    case Err(e) => Err(e)
    case Ok(lines) => Run(lines, strict, Start)
  }

  /** The cursor value for line index `loc` of `n` lines. */
  function Cursor(loc: nat, n: nat): Option<nat>
  {
    if loc < n then Some(loc) else None
  }

  /**
   * The value and line of the last `Count` token in `toks`, or `default` when
   * there is none: what `last_count` holds after those tokens were emitted.
   */
  function LastCounter(toks: seq<Token>, default: (nat, nat)): (nat, nat)
    decreases |toks|
  {
    if toks == [] then default
    else if toks[|toks| - 1].Count? then (toks[|toks| - 1].n, toks[|toks| - 1].line)
    else LastCounter(toks[..|toks| - 1], default)
  }

  lemma LastCounterSnoc(toks: seq<Token>, t: Token, default: (nat, nat))
    ensures LastCounter(toks + [t], default) == if t.Count? then (t.n, t.line) else LastCounter(toks, default)
  {
    assert (toks + [t])[..|toks|] == toks;
  }

  /** A step's `last` is the last counter among the tokens emitted so far. */
  lemma StepLast(lines: seq<string>, strict: bool, c: Config, toks: seq<Token>, default: (nat, nat))
    requires WellEnded(lines) && c.loc < |lines| && Step(lines, strict, c).Ok?
    requires LastCounter(toks, default) == c.last
    ensures LastCounter(toks + Step(lines, strict, c).value.0, default) == Step(lines, strict, c).value.1.last
  {
    var out := Step(lines, strict, c).value.0;
    match c.state
    case Counter =>
      LastCounterSnoc(toks, out[0], default);
      assert out == [out[0]];
    case Time =>
      LastCounterSnoc(toks, out[0], default);
      LastCounterSnoc(toks + [out[0]], out[1], default);
      assert toks + out == toks + [out[0]] + [out[1]];
    case Sub =>
      LastCounterSnoc(toks, out[0], default);
      assert out == [out[0]];
  }

  // ---------------------------------------------------------------------------
  // The tokenizer object
  // ---------------------------------------------------------------------------

  class Lexer {
    const input: seq<string>
    var curLoc: Option<nat>
    var state: LexState
    const verbose: bool
    const strict: bool
    var issues: nat
    /** The last counter value and the line it was read on. */
    var lastCount: (nat, nat)

    ghost predicate Valid()
      reads this
    {
      WellEnded(input) && (curLoc.Some? ==> curLoc.value < |input|)
    }

    /** The cursor as a line index; `|input|` once it is exhausted. */
    ghost function Loc(): nat
      reads this
      requires Valid()
    {
      if curLoc.Some? then curLoc.value else |input|
    }

    constructor Init(lines: seq<string>, verbose: bool, strict: bool)
      requires WellEnded(lines)
      ensures Valid() && input == lines && curLoc == Some(0) && state == Counter
      ensures issues == 0 && lastCount == (0, 0) && this.verbose == verbose && this.strict == strict
    {
      input := lines;
      curLoc := Some(0);
      state := Counter;
      this.verbose := verbose;
      this.strict := strict;
      issues := 0;
      lastCount := (0, 0);
    }

    /** `Lexer::new`. */
    static method New(input: seq<string>, verbose: bool, strict: bool) returns (r: Result<Lexer, LexError>)
      ensures r.Err? <==> input == []
      ensures r.Err? ==> r.error == EmptyInput
      ensures r.Ok? ==> fresh(r.value) && r.value.Valid() && r.value.input == Prepare(input).value
      ensures r.Ok? ==> r.value.curLoc == Some(0) && r.value.state == Counter && r.value.issues == 0
      ensures r.Ok? ==> r.value.lastCount == (0, 0) && r.value.verbose == verbose && r.value.strict == strict
    {
      if |input| == 0 {
        return Err(EmptyInput);
      }
      var lines := input;
      if lines[|lines| - 1] != "" {
        lines := lines + [""];
      }
      if |lines[0]| > 0 && lines[0][0] == BOM {
        lines := lines[0 := RemoveBom(lines[0])];
      }
      var lexer := new Lexer.Init(lines, verbose, strict);
      return Ok(lexer);
    }

    /** `advance`: the next line, or `None` past the last one. */
    method Advance()
      requires Valid() && curLoc.Some?
      modifies this`curLoc
      ensures Valid() && curLoc == Cursor(old(curLoc.value) + 1, |input|)
    {
      if curLoc.value + 1 < |input| {
        curLoc := Some(curLoc.value + 1);
      } else {
        curLoc := None;
      }
    }

    /** `check_time_digit_padding`: one issue unless the widths are 2, 2, 2 and 3. */
    method CheckTimeDigitPadding(hh: string, mm: string, ss: string, ms: string)
      modifies this`issues
      ensures issues == old(issues) + if Padded(Dials(hh, mm, ss, ms)) then 0 else 1
    {
      if !(|hh| == 2 && |mm| == 2 && |ss| == 2 && |ms| == 3) {
        issues := issues + 1;
      }
    }

    /** `lex_time`: decodes one timestamp of the current line. */
    method LexTime(time: string) returns (r: Result<nat, LexError>)
      requires Valid() && curLoc.Some?
      modifies this`issues
      ensures r == DecodeTime(time, curLoc.value + 1)
      ensures issues == old(issues) + PaddingIssues(time, strict)
    {
      hide DecodeTime, PaddingIssues, SplitDials, Split, ParseUnsigned;
      DecodeCases(time, curLoc.value + 1, strict);
      var line := curLoc.value + 1;
      var dials := Split(time, ":");
      if |dials| != 3 {
        return Err(InvalidTimestamp(line));
      }
      var last := Split(dials[2], ",");
      if |last| < 2 {
        return Err(MissingMillis(line));
      }
      var ms, ss := last[1], last[0];
      if strict {
        CheckTimeDigitPadding(dials[0], dials[1], ss, ms);
      }
      var msValue := ParseUnsigned(ms, U64_LIMIT);
      if msValue.None? {
        return Err(UnparseableTimestamp(line));
      }
      var fields := [dials[0], dials[1], ss];
      var values: seq<nat> := [];
      for i := 0 to 3
        invariant |values| == i
        invariant forall j | 0 <= j < i :: ParseUnsigned(fields[j], U64_LIMIT) == Some(values[j])
      {
        var value := ParseUnsigned(fields[i], U64_LIMIT);
        if value.None? {
          return Err(UnparseableTimestamp(line));
        }
        values := values + [value.value];
      }
      return Ok(Millis(values[0], values[1], values[2], msValue.value));
    }

    /** The configuration of the machine. */
    ghost function Cfg(): Config
      reads this
      requires Valid()
    {
      Config(Loc(), state, issues, lastCount)
    }

    /** The `Counter` arm of `lex`. */
    method CounterArm() returns (r: Result<seq<Token>, LexError>)
      requires Valid() && curLoc.Some? && state == Counter
      modifies this`curLoc, this`state, this`issues, this`lastCount
      ensures Valid() && (r.Ok? ==> curLoc.Some?)
      ensures r.Err? ==> old(CounterStep(input, Cfg())) == Err(r.error)
      ensures r.Ok? ==> old(CounterStep(input, Cfg())) == Ok((r.value, Cfg()))
    {
      var loc := curLoc.value;
      var num := ParseUnsigned(input[loc], U64_LIMIT);
      if num.None? {
        return Err(MalformedCounter(loc + 1));
      }
      var n := num.value;
      if IsDiscontinuity(n, lastCount.0) {
        issues := issues + 1;
      }
      // Under strictness a first counter other than 1 is only logged.
      lastCount := (n, loc + 1);
      state := Time;
      Advance();
      return Ok([Count(n, loc + 1)]);
    }

    /** The `Time` arm of `lex`. */
    method TimeArm() returns (r: Result<seq<Token>, LexError>)
      requires Valid() && curLoc.Some? && state == Time
      modifies this`curLoc, this`state, this`issues
      ensures Valid() && (r.Ok? ==> curLoc.Some?)
      ensures r.Err? ==> old(TimeStep(input, strict, Cfg())) == Err(r.error)
      ensures r.Ok? ==> old(TimeStep(input, strict, Cfg())) == Ok((r.value, Cfg()))
    {
      // The decoding functions are not needed here: `TimeStepOk` relates them to `TimeStep`.
      hide DecodeTime, PaddingIssues;
      var loc := curLoc.value;
      ghost var c := Cfg();
      var times := Split(input[loc], ARROW);
      if |times| != 2 {
        return Err(MalformedTimeRange(loc + 1));
      }
      var begin := LexTime(Trim(times[0]));
      if begin.Err? {
        return Err(begin.error);
      }
      var end := LexTime(Trim(times[1]));
      if end.Err? {
        return Err(end.error);
      }
      TimeStepOk(input, strict, c, begin.value, end.value);
      state := Sub;
      Advance();
      var out := [StartTime(begin.value, loc + 1), EndTime(end.value, loc + 1)];
      return Ok(out);
    }

    /** The `Sub` arm of `lex`: gathers text lines up to and including an empty line. */
    method SubArm() returns (r: Result<seq<Token>, LexError>)
      requires Valid() && curLoc.Some? && state == Sub
      modifies this`curLoc, this`state
      ensures Valid() && r.Ok? && state == Counter
      ensures old(SubStep(input, Cfg())) == Ok((r.value, Cfg()))
    {
      hide CollectSub;
      var loc := curLoc.value;
      var lines: seq<string> := [];
      assert lines + CollectSub(input, Loc()).0 == CollectSub(input, Loc()).0;
      while true
        invariant Valid() && curLoc.Some? && Loc() == loc + |lines|
        invariant CollectSub(input, loc) == (lines + CollectSub(input, Loc()).0, CollectSub(input, Loc()).1)
        decreases |input| - Loc()
      {
        // The trailing empty line guarantees the cursor is still on a line here.
        ghost var here := Loc();
        var line := input[curLoc.value];
        Advance();
        if line == "" {
          CollectSubEnd(input, here);
          assert lines + [] == lines;
          break;
        }
        CollectSubNext(input, here);
        assert lines + ([line] + CollectSub(input, Loc()).0) == (lines + [line]) + CollectSub(input, Loc()).0;
        lines := lines + [line];
      }
      state := Counter;
      return Ok([Subtitle(lines, loc + 1)]);
    }

    /** `lex`: runs the machine to the end of the input. */
    method Lex() returns (r: Result<(seq<Token>, nat), LexError>)
      requires Valid()
      modifies this`curLoc, this`state, this`issues, this`lastCount
      ensures r == Run(input, strict, old(Cfg()))
      ensures r.Ok? ==> Valid() && curLoc == None && issues == r.value.1
      ensures r.Ok? ==> state == if old(curLoc).Some? then Counter else old(state)
      ensures r.Ok? ==> lastCount == LastCounter(r.value.0, old(lastCount))
    {
      // Each arm is related to its step function by the arm's own contract.
      hide CounterStep, TimeStep, SubStep;
      var tokens: seq<Token> := [];
      EmitNothing(Run(input, strict, Cfg()));
      while curLoc.Some?
        invariant Valid() && old(Loc()) <= Loc()
        invariant Run(input, strict, old(Cfg())) == Emit(tokens, Run(input, strict, Cfg()))
        invariant curLoc.None? && old(curLoc).Some? ==> state == Counter
        invariant old(curLoc).None? ==> state == old(state)
        invariant lastCount == LastCounter(tokens, old(lastCount))
        decreases |input| - Loc()
      {
        ghost var before := Cfg();
        var step: Result<seq<Token>, LexError>;
        match state {
          case Counter => step := CounterArm();
          case Time => step := TimeArm();
          case Sub => step := SubArm();
        }
        assert Step(input, strict, before) == if step.Ok? then Ok((step.value, Cfg())) else Err(step.error);
        if step.Err? {
          return Err(step.error);
        }
        EmitEmit(tokens, step.value, Run(input, strict, Cfg()));
        StepLast(input, strict, before, tokens, old(lastCount));
        tokens := tokens + step.value;
      }
      LastCounterSnoc(tokens, Eof, old(lastCount));
      tokens := tokens + [Eof];
      return Ok((tokens, issues));
    }
  }
}
