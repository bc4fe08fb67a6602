/**
 * Facts about `lex_time` (src/frontend/lexer.rs:104-170): which strings it
 * rejects, and that it inverts the canonical `HH:MM:SS,mmm` rendering.
 */
module Timestamps {
  import opened Wrappers
  import opened Strings
  import opened Lexing

  /** Timestamps below 100 hours are the ones with a two-digit hour dial. */
  const HOUR_LIMIT: nat := 100 * 3_600_000

  /** A millisecond count split into its hour, minute, second and millisecond dials. */
  function Clock(t: nat): (d: (nat, nat, nat, nat))
    ensures Millis(d.0, d.1, d.2, d.3) == t
    ensures d.1 < 60 && d.2 < 60 && d.3 < 1000
    ensures t < HOUR_LIMIT ==> d.0 < 100
  {
    var h := t / 3_600_000;
    var r := t % 3_600_000;
    var m := r / 60_000;
    var r' := r % 60_000;
    (h, m, r' / 1_000, r' % 1_000)
  }

  /** The canonical rendering `HH:MM:SS,mmm` of a timestamp below 100 hours. */
  function FormatTimestamp(t: nat): (s: string)
    requires t < HOUR_LIMIT
    ensures |s| == 12
  {
    var d := Clock(t);
    Pad(d.0, 2) + ":" + Pad(d.1, 2) + ":" + Pad(d.2, 2) + "," + Pad(d.3, 3)
  }

  /** The dials of `FormatTimestamp(t)` as `lex_time` splits them. */
  lemma SplitFormatted(t: nat, line: nat)
    requires t < HOUR_LIMIT
    ensures SplitDials(FormatTimestamp(t), line)
         == Ok(Dials(Pad(Clock(t).0, 2), Pad(Clock(t).1, 2), Pad(Clock(t).2, 2), Pad(Clock(t).3, 3)))
  {
    var d := Clock(t);
    var hh, mm, ss, ms := Pad(d.0, 2), Pad(d.1, 2), Pad(d.2, 2), Pad(d.3, 3);
    var third := ss + "," + ms;
    assert FormatTimestamp(t) == hh + ":" + (mm + ":" + third);
    SplitAtFirst(hh, mm + ":" + third, ":");
    SplitAtFirst(mm, third, ":");
    SplitWhole(third, ":");
    SplitAtFirst(ss, ms, ",");
    SplitWhole(ms, ",");
  }

  /** `lex_time` inverts the canonical rendering, and strict mode finds nothing wrong with its padding. */
  lemma DecodeFormatted(t: nat, line: nat, strict: bool)
    requires t < HOUR_LIMIT
    ensures DecodeTime(FormatTimestamp(t), line) == Ok(t)
    ensures PaddingIssues(FormatTimestamp(t), strict) == 0
  {
    var d := Clock(t);
    SplitFormatted(t, line);
    SplitFormatted(t, 0);
    ParsePad(d.0, 2, U64_LIMIT);
    ParsePad(d.1, 2, U64_LIMIT);
    ParsePad(d.2, 2, U64_LIMIT);
    ParsePad(d.3, 3, U64_LIMIT);
  }

  /** The timestamp of the first subtitle in the repository's test file. */
  lemma DecodeExample()
    ensures DecodeTime("00:02:16,612", 3) == Ok(136612)
  {
    hide DecodeTime, PaddingIssues, FormatTimestamp, Clock, Pad;
    FormatExample();
    DecodeFormatted(136612, 3, true);
  }

  /** That timestamp is the canonical rendering of 136612 milliseconds. */
  lemma FormatExample()
    ensures FormatTimestamp(136612) == "00:02:16,612"
  {
    hide DecodeTime, PaddingIssues, Pad;
    assert Clock(136612) == (0, 2, 16, 612);
    PadExample();
  }

  lemma PadExample()
    ensures Pad(0, 2) == "00" && Pad(2, 2) == "02" && Pad(16, 2) == "16" && Pad(612, 3) == "612"
  {
    assert DigitChar(0) == '0' && DigitChar(1) == '1' && DigitChar(2) == '2' && DigitChar(6) == '6';
    assert Pad(0, 1) == "0" && Pad(1, 1) == "1" && Pad(6, 1) == "6";
    assert Pad(61, 2) == "61";
  }

  /**
   * `lex_time` rejects a timestamp as invalid exactly when it does not have
   * three `:`-separated fields, that is, exactly two colons.
   */
  lemma InvalidIffColons(time: string, line: nat)
    ensures DecodeTime(time, line) == Err(InvalidTimestamp(line)) <==> Occurrences(time, ':') != 2
  {
    SplitCharCount(time, ':');
    var dials := Split(time, ":");
    if |dials| == 3 {
      var last := Split(dials[2], ",");
      if |last| >= 2 {
        var d := Dials(dials[0], dials[1], last[0], last[1]);
        assert DecodeTime(time, line) == DialsValue(d, line);
      }
    }
  }

  /** A third field without a comma is missing its milliseconds. */
  lemma MissingMillisIffNoComma(time: string, line: nat)
    requires |Split(time, ":")| == 3
    ensures DecodeTime(time, line) == Err(MissingMillis(line)) <==> Occurrences(Split(time, ":")[2], ',') == 0
  {
    SplitCharCount(Split(time, ":")[2], ',');
  }
}
