/**
 * The viewer's helpers (src/tui/mod.rs): the `HH:MM:SS` label of a record,
 * the flattening of records into display lines, and the scroll position of
 * the list.  Drawing, key events and the ratatui widgets are not modelled;
 * of the widget state only the two numbers `add` and `sub` set are kept: the
 * list selection and the scrollbar position.
 */
module Tui {
  import opened Wrappers
  import opened Strings
  import opened Parsing
  import Lexing

  const DAY: nat := 86400

  // ---------------------------------------------------------------------------
  // `humanize`
  // ---------------------------------------------------------------------------

  /** The hour, minute and second dials that `humanize` computes from a number of seconds. */
  function TimeOfDay(secs: nat): (nat, nat, nat)
  {
    ((secs % DAY) / 3600, (secs % 3600) / 60, secs % 60)
  }

  /** The dials are a time of day: in range, and adding up to the seconds since the last midnight. */
  lemma TimeOfDaySpec(secs: nat)
    ensures TimeOfDay(secs).0 < 24 && TimeOfDay(secs).1 < 60 && TimeOfDay(secs).2 < 60
    ensures TimeOfDay(secs).0 * 3600 + TimeOfDay(secs).1 * 60 + TimeOfDay(secs).2 == secs % DAY
  {
    DayHours(secs);
    HourMinutes(secs);
  }

  /** The seconds since midnight are whole hours below 24 plus the seconds since the hour. */
  lemma DayHours(secs: nat)
    ensures (secs % DAY) / 3600 < 24
    ensures secs % DAY == 3600 * ((secs % DAY) / 3600) + secs % 3600
  {
    var q, a := secs / DAY, secs % DAY;
    var h, b := a / 3600, a % 3600;
    assert a == 3600 * h + b;
    assert secs == 3600 * (24 * q + h) + b;
  }

  /** The seconds since the hour are whole minutes below 60 plus the seconds since the minute. */
  lemma HourMinutes(secs: nat)
    ensures (secs % 3600) / 60 < 60
    ensures secs % 3600 == 60 * ((secs % 3600) / 60) + secs % 60
  {
    var q, b := secs / 3600, secs % 3600;
    var m, s := b / 60, b % 60;
    assert b == 60 * m + s;
    assert secs == 60 * (60 * q + m) + s;
  }

  /** `humanize`: seconds as `HH:MM:SS`, each dial zero-padded to two digits, modulo one day. */
  function Humanize(secs: nat): (s: string)
    ensures |s| == 8
  {
    var (h, m, sec) := TimeOfDay(secs);
    Pad(h, 2) + ":" + Pad(m, 2) + ":" + Pad(sec, 2)
  }

  /** Reading the label back gives three dials in range that add up to the time of day. */
  lemma HumanizeReads(secs: nat)
    ensures Split(Humanize(secs), ":") == [Pad(TimeOfDay(secs).0, 2), Pad(TimeOfDay(secs).1, 2), Pad(TimeOfDay(secs).2, 2)]
    ensures var d := Split(Humanize(secs), ":");
            ParseUnsigned(d[0], 24) == Some(TimeOfDay(secs).0) && ParseUnsigned(d[1], 60) == Some(TimeOfDay(secs).1)
            && ParseUnsigned(d[2], 60) == Some(TimeOfDay(secs).2)
    ensures TimeOfDay(secs).0 * 3600 + TimeOfDay(secs).1 * 60 + TimeOfDay(secs).2 == secs % DAY
  {
    var (h, m, s) := TimeOfDay(secs);
    TimeOfDaySpec(secs);
    var hh, mm, ss := Pad(h, 2), Pad(m, 2), Pad(s, 2);
    assert Humanize(secs) == hh + ":" + (mm + ":" + ss);
    SplitAtFirst(hh, mm + ":" + ss, ":");
    SplitAtFirst(mm, ss, ":");
    SplitWhole(ss, ":");
    ParsePad(h, 2, 24);
    ParsePad(m, 2, 60);
    ParsePad(s, 2, 60);
  }

  // ---------------------------------------------------------------------------
  // `flatten`
  // ---------------------------------------------------------------------------

  /** Every record has its start set, which `flatten` unwraps. */
  predicate Started(records: seq<Record>)
  {
    forall i | 0 <= i < |records| :: records[i].start.Some?
  }

  /** The text lines of a record; a record without text has none. */
  function TextOf(r: Record): seq<string>
  {
    if r.text.Some? then r.text.value else []
  }

  /** The display lines of one record: `HH:MM:SS`, two spaces, and the text line. */
  function RecordLines(r: Record): (out: seq<string>)
    requires r.start.Some?
  {
    var stamp := Humanize(r.start.value / 1000);
    seq(|TextOf(r)|, j requires 0 <= j < |TextOf(r)| => stamp + "  " + TextOf(r)[j])
  }

  /** `flatten`: the display lines of all records, in order. */
  function Flatten(records: seq<Record>): seq<string>
    requires Started(records)
    decreases |records|
  {
    if records == [] then [] else RecordLines(records[0]) + Flatten(records[1..])
  }

  /** The number of text lines in a list of records. */
  function LineCount(records: seq<Record>): nat
    decreases |records|
  {
    if records == [] then 0 else |TextOf(records[0])| + LineCount(records[1..])
  }

  lemma {:induction false} LineCountAppend(a: seq<Record>, b: seq<Record>)
    ensures LineCount(a + b) == LineCount(a) + LineCount(b)
    decreases |a|
  {
    if a == [] {
      assert a + b == b;
    } else {
      assert (a + b)[1..] == a[1..] + b;
      LineCountAppend(a[1..], b);
    }
  }

  /** Flattening is compositional: the lines of `a + b` are those of `a`, then those of `b`. */
  lemma {:induction false} FlattenAppend(a: seq<Record>, b: seq<Record>)
    requires Started(a) && Started(b)
    ensures Started(a + b) && Flatten(a + b) == Flatten(a) + Flatten(b)
    decreases |a|
  {
    assert Started(a + b);
    if a == [] {
      assert a + b == b;
    } else {
      assert (a + b)[1..] == a[1..] + b;
      assert Started(a[1..]);
      FlattenAppend(a[1..], b);
    }
  }

  /**
   * Line `j` of record `k` is the display line at offset `j` after the lines
   * of the records before it: the record's start as `HH:MM:SS` (whole seconds),
   * two spaces, and the text line.
   */
  lemma {:induction false} FlattenAt(records: seq<Record>, k: nat, j: nat)
    requires Started(records) && k < |records| && j < |TextOf(records[k])|
    ensures LineCount(records[..k]) + j < |Flatten(records)|
    ensures Flatten(records)[LineCount(records[..k]) + j]
         == Humanize(records[k].start.value / 1000) + "  " + TextOf(records[k])[j]
    decreases k
  {
    hide Flatten, LineCount, RecordLines, Humanize;
    FlattenCons(records);
    RecordLinesAt(records[0]);
    if k == 0 {
      assert records[..k] == [];
      LineCountCons([]);
    } else {
      assert Started(records[1..]);
      FlattenAt(records[1..], k - 1, j);
      assert records[1..][..k - 1] == records[..k][1..];
      assert records[1..][k - 1] == records[k];
      LineCountCons(records[..k]);
    }
  }

  lemma FlattenCons(records: seq<Record>)
    requires Started(records) && records != []
    ensures Started(records[1..]) && Flatten(records) == RecordLines(records[0]) + Flatten(records[1..])
  {
    assert Started(records[1..]);
  }

  lemma RecordLinesAt(r: Record)
    requires r.start.Some?
    ensures |RecordLines(r)| == |TextOf(r)|
    ensures forall j | 0 <= j < |TextOf(r)| :: RecordLines(r)[j] == Humanize(r.start.value / 1000) + "  " + TextOf(r)[j]
  {
  }

  lemma LineCountCons(records: seq<Record>)
    ensures records == [] ==> LineCount(records) == 0
    ensures records != [] ==> LineCount(records) == |TextOf(records[0])| + LineCount(records[1..])
  {
  }

  /** The parser's `total_lines` is the number of text lines of the records it returns. */
  lemma {:induction false} BuildLineCount(toks: seq<Lexing.Token>, buf: Record)
    ensures LineCount(Build(toks, buf).0) == Build(toks, buf).1
    decreases |toks|
  {
    if toks != [] {
      match toks[0]
      case Eof =>
      case Count(n, _) => BuildLineCount(toks[1..], buf.(id := Some(n)));
      case StartTime(ms, _) => BuildLineCount(toks[1..], buf.(start := Some(ms)));
      case EndTime(ms, _) => BuildLineCount(toks[1..], buf.(end := Some(ms)));
      case Subtitle(text, _) =>
        BuildLineCount(toks[1..], Blank);
        var records := [buf.(text := Some(text))] + Build(toks[1..], Blank).0;
        assert records[1..] == Build(toks[1..], Blank).0;
        LineCountCons(records);
    }
  }

  /** One display line per text line, so as many lines as the parser's total. */
  lemma {:induction false} FlattenLength(records: seq<Record>)
    requires Started(records)
    ensures |Flatten(records)| == LineCount(records)
    decreases |records|
  {
    if records != [] {
      assert Started(records[1..]);
      FlattenLength(records[1..]);
    }
  }

  // ---------------------------------------------------------------------------
  // The scroll position
  // ---------------------------------------------------------------------------

  /**
   * `scroll_pos <= max - 2` on `usize` as written: a debug build panics
   * (`None`) when `max < 2`, a release build wraps `max - 2` modulo 2^64.
   */
  function AddGuardAsWritten(pos: nat, max: nat, wrapping: bool): (r: Option<bool>)
    requires max < Lexing.U64_LIMIT
    ensures r.None? <==> !wrapping && max < 2
  {
    if max >= 2 then Some(pos <= max - 2)
    else if wrapping then Some(pos <= (max - 2) % Lexing.U64_LIMIT)
    else None
  }

  /** The guard the corrected `App.Add` uses: a next line exists. */
  predicate CanAdd(pos: nat, max: nat)
  {
    pos + 1 < max
  }

  /** Wherever the source's guard does not underflow, it is the corrected one. */
  lemma AddGuardAgrees(pos: nat, max: nat, wrapping: bool)
    requires 2 <= max < Lexing.U64_LIMIT
    ensures AddGuardAsWritten(pos, max, wrapping) == Some(CanAdd(pos, max))
  {
  }

  /**
   * With one line, moving down from the first line panics in a debug build
   * and, in a release build, moves the position past the last line.
   */
  lemma AddGuardOneLine()
    ensures AddGuardAsWritten(0, 1, false) == None
    ensures AddGuardAsWritten(0, 1, true) == Some(true) && !(0 + 1 < 1)
    ensures !CanAdd(0, 1)
  {
  }

  class App {
    var scrollPos: nat
    const max: nat
    /** The list widget's selected line. */
    var selected: Option<nat>
    /** The scrollbar widget's position. */
    var scrollbar: nat

    /** The position is on a line (or 0 for an empty list), and the selection follows it. */
    ghost predicate Valid()
      reads this
    {
      (scrollPos < max || scrollPos == 0) && selected == Some(scrollPos)
    }

    /** `App::new`. */
    constructor (lines: nat)
      ensures Valid() && scrollPos == 0 && max == lines && selected == Some(0) && scrollbar == 1
    {
      scrollPos := 0;
      max := lines;
      selected := Some(0);
      scrollbar := 1;
    }

    /** `add`: one line down, if there is one; `saturating_add` never saturates under the guard. */
    method Add()
      requires Valid()
      modifies this`scrollPos, this`selected, this`scrollbar
      ensures Valid()
      ensures CanAdd(old(scrollPos), max) ==> scrollPos == old(scrollPos) + 1 && scrollbar == scrollPos
      ensures !CanAdd(old(scrollPos), max) ==> scrollPos == old(scrollPos) && scrollbar == old(scrollbar)
    {
      if scrollPos + 2 <= max {
        scrollPos := scrollPos + 1;
        scrollbar := scrollPos;
        selected := Some(scrollPos);
      }
    }

    /** `sub`: one line up, if not on the first. */
    method Sub()
      requires Valid()
      modifies this`scrollPos, this`selected, this`scrollbar
      ensures Valid()
      ensures old(scrollPos) > 0 ==> scrollPos == old(scrollPos) - 1 && scrollbar == scrollPos
      ensures old(scrollPos) == 0 ==> scrollPos == 0 && scrollbar == old(scrollbar)
    {
      if scrollPos > 0 {
        scrollPos := scrollPos - 1;
        scrollbar := scrollPos;
        selected := Some(scrollPos);
      }
    }
  }
}
