/**
 * The record builder (src/frontend/parser.rs): a cursor walks the token list
 * and fills one buffer, which is sealed into a record at each `Subtitle`
 * token and then reset.
 *
 * `Build` is the value-level specification of `parse`; the class `Parser` is
 * the imperative builder, whose `Parse` method is proved to compute exactly
 * `Build`.  The strict-mode equal-timestamp warning is logging only and is not
 * modelled, but the two `unwrap` calls it makes are: `Parse` requires them to
 * succeed (`StrictSafe`).
 */
module Parsing {
  import opened Wrappers
  import opened Lexing

  /**
   * The source's `Subtitle` struct: counter, start and end in milliseconds
   * (`Duration::from_millis` keeps the value exactly), and text lines.
   */
  datatype Record = Record(id: Option<nat>, start: Option<nat>, end: Option<nat>, text: Option<seq<string>>)

  /** The buffer before any token of a block has been seen. */
  const Blank: Record := Record(None, None, None, None)

  /** Every field of the record is set. */
  predicate Complete(r: Record)
  {
    r.id.Some? && r.start.Some? && r.end.Some? && r.text.Some?
  }

  // ---------------------------------------------------------------------------
  // The builder, as a value
  // ---------------------------------------------------------------------------

  /**
   * What `parse` returns for the tokens `toks` still ahead of the cursor and
   * the buffer `buf`: the records sealed from here on, and their number of
   * text lines.  It stops at `Eof` or at the end of the list.
   */
  function Build(toks: seq<Token>, buf: Record): (seq<Record>, nat)
    decreases |toks|
  {
    if toks == [] then ([], 0)
    else match toks[0]
      case Eof => ([], 0)
      case Count(n, _) => Build(toks[1..], buf.(id := Some(n)))
      case StartTime(ms, _) => Build(toks[1..], buf.(start := Some(ms)))
      case EndTime(ms, _) => Build(toks[1..], buf.(end := Some(ms)))
      case Subtitle(text, _) =>
        var rest := Build(toks[1..], Blank);
        ([buf.(text := Some(text))] + rest.0, |text| + rest.1)
  }

  /**
   * The strict-mode check at each `EndTime` unwraps the buffer's start, and its
   * counter too when start and end are equal: both must be set by then.
   */
  predicate StrictSafe(toks: seq<Token>, buf: Record)
    decreases |toks|
  {
    toks == [] ||
    match toks[0]
    case Eof => true
    case Count(n, _) => StrictSafe(toks[1..], buf.(id := Some(n)))
    case StartTime(ms, _) => StrictSafe(toks[1..], buf.(start := Some(ms)))
    case EndTime(ms, _) =>
      buf.start.Some? && (buf.start.value == ms ==> buf.id.Some?) && StrictSafe(toks[1..], buf.(end := Some(ms)))
    case Subtitle(_, _) => StrictSafe(toks[1..], Blank)
  }

  // ---------------------------------------------------------------------------
  // Reference descriptions of the result
  // ---------------------------------------------------------------------------

  /** The tokens before the first `Eof`. */
  function UntilEof(toks: seq<Token>): (r: seq<Token>)
    ensures |r| <= |toks| && r == toks[..|r|] && Eof !in r
    ensures |r| < |toks| ==> toks[|r|] == Eof
    decreases |toks|
  {
    if toks == [] || toks[0] == Eof then [] else [toks[0]] + UntilEof(toks[1..])
  }

  /** The text lists of the `Subtitle` tokens, in order. */
  function Texts(toks: seq<Token>): seq<seq<string>>
    decreases |toks|
  {
    if toks == [] then []
    else (if toks[0].Subtitle? then [toks[0].text] else []) + Texts(toks[1..])
  }

  /** The number of lines in a list of texts. */
  function TotalLines(texts: seq<seq<string>>): nat
    decreases |texts|
  {
    if texts == [] then 0 else |texts[0]| + TotalLines(texts[1..])
  }

  /** The value of the last `Count` token, if any. */
  function LastCount(seg: seq<Token>): Option<nat>
    decreases |seg|
  {
    if seg == [] then None
    else if LastCount(seg[1..]).Some? then LastCount(seg[1..])
    else if seg[0].Count? then Some(seg[0].n) else None
  }

  /** The value of the last `StartTime` token, if any. */
  function LastStart(seg: seq<Token>): Option<nat>
    decreases |seg|
  {
    if seg == [] then None
    else if LastStart(seg[1..]).Some? then LastStart(seg[1..])
    else if seg[0].StartTime? then Some(seg[0].ms) else None
  }

  /** The value of the last `EndTime` token, if any. */
  function LastEnd(seg: seq<Token>): Option<nat>
    decreases |seg|
  {
    if seg == [] then None
    else if LastEnd(seg[1..]).Some? then LastEnd(seg[1..])
    else if seg[0].EndTime? then Some(seg[0].ms) else None
  }

  /** `a` if it is set, else `b`. */
  function Or(a: Option<nat>, b: Option<nat>): Option<nat>
  {
    if a.Some? then a else b
  }

  // ---------------------------------------------------------------------------
  // Properties of the builder
  // ---------------------------------------------------------------------------

  /**
   * One record per `Subtitle` token before the first `Eof`, in token order,
   * each holding that token's text; the total is the number of their lines.
   */
  lemma {:induction false} BuildTexts(toks: seq<Token>, buf: Record)
    ensures |Build(toks, buf).0| == |Texts(UntilEof(toks))|
    ensures forall k | 0 <= k < |Build(toks, buf).0| :: Build(toks, buf).0[k].text == Some(Texts(UntilEof(toks))[k])
    ensures Build(toks, buf).1 == TotalLines(Texts(UntilEof(toks)))
    decreases |toks|
  {
    if toks != [] && toks[0] != Eof {
      var u := UntilEof(toks);
      assert u[0] == toks[0] && u[1..] == UntilEof(toks[1..]);
      if !toks[0].Subtitle? {
        assert Texts(u) == [] + Texts(u[1..]) == Texts(u[1..]);
      }
      match toks[0]
      case Count(n, _) => BuildTexts(toks[1..], buf.(id := Some(n)));
      case StartTime(ms, _) => BuildTexts(toks[1..], buf.(start := Some(ms)));
      case EndTime(ms, _) => BuildTexts(toks[1..], buf.(end := Some(ms)));
      case Subtitle(text, _) =>
        BuildTexts(toks[1..], Blank);
        var rest := Build(toks[1..], Blank).0;
        assert Texts(u) == [text] + Texts(UntilEof(toks[1..]));
        assert ([text] + Texts(UntilEof(toks[1..])))[1..] == Texts(UntilEof(toks[1..]));
        forall k | 0 <= k < |Build(toks, buf).0|
          ensures Build(toks, buf).0[k].text == Some(Texts(u)[k])
        {
          if k > 0 {
            assert Build(toks, buf).0[k] == rest[k - 1];
          }
        }
    }
  }

  /** Tokens after an `Eof` are never looked at. */
  lemma {:induction false} BuildIgnoresAfterEof(a: seq<Token>, b: seq<Token>, buf: Record)
    ensures Build(a + [Eof] + b, buf) == Build(a, buf)
    decreases |a|
  {
    if a == [] {
      assert (a + [Eof] + b)[0] == Eof;
    } else {
      assert (a + [Eof] + b)[1..] == a[1..] + [Eof] + b;
      match a[0]
      case Eof =>
      case Count(n, _) => BuildIgnoresAfterEof(a[1..], b, buf.(id := Some(n)));
      case StartTime(ms, _) => BuildIgnoresAfterEof(a[1..], b, buf.(start := Some(ms)));
      case EndTime(ms, _) => BuildIgnoresAfterEof(a[1..], b, buf.(end := Some(ms)));
      case Subtitle(_, _) => BuildIgnoresAfterEof(a[1..], b, Blank);
    }
  }

  /** Tokens that carry neither text nor `Eof`. */
  predicate Fields(seg: seq<Token>)
  {
    forall j | 0 <= j < |seg| :: seg[j].Count? || seg[j].StartTime? || seg[j].EndTime?
  }

  /**
   * The seal and reset: a record's counter, start and end are the last ones
   * seen since the previous record (or what the buffer held before), and the
   * records after it are built from an empty buffer.
   */
  lemma {:induction false} BuildSegment(seg: seq<Token>, text: seq<string>, line: nat, rest: seq<Token>, buf: Record)
    requires Fields(seg)
    ensures Build(seg + [Subtitle(text, line)] + rest, buf)
         == ([Record(Or(LastCount(seg), buf.id), Or(LastStart(seg), buf.start), Or(LastEnd(seg), buf.end), Some(text))]
             + Build(rest, Blank).0,
             |text| + Build(rest, Blank).1)
    decreases |seg|
  {
    var toks := seg + [Subtitle(text, line)] + rest;
    if seg == [] {
      assert toks[0] == Subtitle(text, line) && toks[1..] == rest;
    } else {
      assert toks[1..] == seg[1..] + [Subtitle(text, line)] + rest;
      match seg[0]
      case Count(n, _) => BuildSegment(seg[1..], text, line, rest, buf.(id := Some(n)));
      case StartTime(ms, _) => BuildSegment(seg[1..], text, line, rest, buf.(start := Some(ms)));
      case EndTime(ms, _) => BuildSegment(seg[1..], text, line, rest, buf.(end := Some(ms)));
    }
  }

  /** Tokens with no text before the end or `Eof` seal nothing: a trailing partial block is dropped. */
  lemma {:induction false} BuildNoText(seg: seq<Token>, buf: Record)
    requires Fields(seg)
    ensures Build(seg, buf) == ([], 0)
    decreases |seg|
  {
    if seg != [] {
      match seg[0]
      case Count(n, _) => BuildNoText(seg[1..], buf.(id := Some(n)));
      case StartTime(ms, _) => BuildNoText(seg[1..], buf.(start := Some(ms)));
      case EndTime(ms, _) => BuildNoText(seg[1..], buf.(end := Some(ms)));
    }
  }

  // ---------------------------------------------------------------------------
  // The parser object
  // ---------------------------------------------------------------------------

  /** One step of `Build`, by the kind of the next token. */
  lemma BuildCons(toks: seq<Token>, buf: Record)
    requires toks != []
    ensures toks[0].Eof? ==> Build(toks, buf) == ([], 0)
    ensures toks[0].Count? ==> Build(toks, buf) == Build(toks[1..], buf.(id := Some(toks[0].n)))
    ensures toks[0].StartTime? ==> Build(toks, buf) == Build(toks[1..], buf.(start := Some(toks[0].ms)))
    ensures toks[0].EndTime? ==> Build(toks, buf) == Build(toks[1..], buf.(end := Some(toks[0].ms)))
    ensures toks[0].Subtitle? ==> Build(toks, buf) == ([buf.(text := Some(toks[0].text))] + Build(toks[1..], Blank).0,
                                                       |toks[0].text| + Build(toks[1..], Blank).1)
  {
    if toks[0].Subtitle? {
      BuildSealed(toks, buf);
    }
  }

  lemma BuildSealed(toks: seq<Token>, buf: Record)
    requires toks != [] && toks[0].Subtitle?
    ensures Build(toks, buf) == ([buf.(text := Some(toks[0].text))] + Build(toks[1..], Blank).0,
                                 |toks[0].text| + Build(toks[1..], Blank).1)
  {
    match toks[0]
    case Subtitle(text, _) =>
      var rest := Build(toks[1..], Blank);
      assert Build(toks, buf) == ([buf.(text := Some(text))] + rest.0, |text| + rest.1);
  }

  /** One step of `StrictSafe`, by the kind of the next token. */
  lemma StrictSafeCons(toks: seq<Token>, buf: Record)
    requires toks != []
    ensures toks[0].Count? ==> (StrictSafe(toks, buf) <==> StrictSafe(toks[1..], buf.(id := Some(toks[0].n))))
    ensures toks[0].StartTime? ==> (StrictSafe(toks, buf) <==> StrictSafe(toks[1..], buf.(start := Some(toks[0].ms))))
    ensures toks[0].EndTime? ==>
              (StrictSafe(toks, buf)
               <==> (buf.start.Some? && (buf.start.value == toks[0].ms ==> buf.id.Some?)
                     && StrictSafe(toks[1..], buf.(end := Some(toks[0].ms)))))
    ensures toks[0].Subtitle? ==> (StrictSafe(toks, buf) <==> StrictSafe(toks[1..], Blank))
  {
    match toks[0]
    case Eof =>
    case Count(_, _) =>
    case StartTime(_, _) =>
    case EndTime(_, _) =>
    case Subtitle(_, _) =>
  }

  /** `UntilEof` stops at index `k` when no `Eof` comes before it and `k` is an `Eof` or the end. */
  lemma {:induction false} UntilEofLength(toks: seq<Token>, k: nat)
    requires k <= |toks| && forall j | 0 <= j < k :: toks[j] != Eof
    requires k < |toks| ==> toks[k] == Eof
    ensures |UntilEof(toks)| == k
    decreases k
  {
    if k > 0 {
      UntilEofLength(toks[1..], k - 1);
    }
  }

  lemma BuildNil(buf: Record)
    ensures Build([], buf) == ([], 0)
  {
  }

  class Parser {
    const input: seq<Token>
    var curLoc: Option<nat>
    const strict: bool

    /** The cursor is on a token or exhausted. */
    ghost predicate Valid()
      reads this
    {
      curLoc.Some? ==> curLoc.value < |input|
    }

    /** The cursor as a token index; `|input|` once it is exhausted. */
    ghost function Loc(): (i: nat)
      reads this
      requires Valid()
      ensures i <= |input|
    {
      if curLoc.Some? then curLoc.value else |input|
    }

    /** `Parser::new`: the cursor starts on the first token, so an empty list is not `Valid`. */
    constructor (input: seq<Token>, strict: bool)
      ensures this.input == input && curLoc == Some(0) && this.strict == strict
    {
      this.input := input;
      curLoc := Some(0);
      this.strict := strict;
    }

    /** `advance`: the next token, or `None` past the last one. */
    method Advance()
      requires Valid() && curLoc.Some?
      modifies this`curLoc
      ensures Valid() && curLoc == Cursor(old(curLoc.value) + 1, |input|)
    {
      if curLoc.value + 1 < |input| {
        curLoc := Some(curLoc.value + 1);
      } else {
        curLoc := None;
      }
    }

    /** `parse`: the records from the cursor on, and their total number of text lines. */
    method Parse() returns (records: seq<Record>, total: nat)
      requires Valid()
      requires strict ==> StrictSafe(input[Loc()..], Blank)
      modifies this`curLoc
      ensures (records, total) == Build(old(input[Loc()..]), Blank)
      ensures Valid() && Loc() == old(Loc()) + |UntilEof(old(input[Loc()..]))|
    {
      // Each pass is related to one step of `Build` by `BuildCons`.
      hide Build, StrictSafe;
      ghost var start := Loc();
      var buf := Blank;
      records, total := [], 0;
      assert records + Build(input[Loc()..], buf).0 == Build(input[Loc()..], buf).0;
      while curLoc.Some?
        invariant Valid() && start <= Loc()
        invariant Build(input[start..], Blank)
               == (records + Build(input[Loc()..], buf).0, total + Build(input[Loc()..], buf).1)
        invariant strict ==> StrictSafe(input[Loc()..], buf)
        invariant forall j | start <= j < Loc() :: input[j] != Eof
        decreases |input| - Loc()
      {
        var i := curLoc.value;
        ghost var ahead := input[i..];
        assert ahead[0] == input[i] && ahead[1..] == input[i + 1..];
        BuildCons(ahead, buf);
        StrictSafeCons(ahead, buf);
        match input[i] {
          case Eof =>
            assert Build(ahead, buf) == ([], 0);
            assert records + [] == records;
            break;
          case Count(n, _) =>
            buf := buf.(id := Some(n));
          case StartTime(ms, _) =>
            buf := buf.(start := Some(ms));
          case EndTime(ms, _) =>
            // Strict mode only warns here, after unwrapping the start (and the counter on equal times).
            assert strict ==> buf.start.Some? && (buf.start.value == ms ==> buf.id.Some?);
            buf := buf.(end := Some(ms));
          case Subtitle(text, _) =>
            total := total + |text|;
            ghost var rest := Build(input[i + 1..], Blank);
            assert records + ([buf.(text := Some(text))] + rest.0) == (records + [buf.(text := Some(text))]) + rest.0;
            records := records + [buf.(text := Some(text))];
            buf := Blank;
        }
        Advance();
      }
      if curLoc.None? {
        assert input[Loc()..] == [];
        BuildNil(buf);
        assert records + [] == records;
      }
      UntilEofLength(input[start..], Loc() - start);
    }
  }
}
