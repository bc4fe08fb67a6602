/**
 * The pieces of Rust's `str` API that the tokenizer relies on: `split` on a
 * character or on a pattern, `trim`, unsigned `parse`, and the zero-padded
 * decimal rendering that `format!("{:02}")` produces.
 * Strings are sequences of Unicode scalar values; lengths are counted in
 * characters.
 */
module Strings {
  import opened Wrappers

  // ---------------------------------------------------------------------------
  // Splitting on a pattern (`str::split`)
  // ---------------------------------------------------------------------------

  /**
   * Left-to-right, non-overlapping split of `s` on `pat`; `cur` is the field
   * collected so far.
   */
  function SplitFrom(s: string, pat: string, cur: string): (r: seq<string>)
    requires |pat| > 0
    ensures |r| >= 1
    decreases |s|
  {
    if |pat| <= |s| && s[..|pat|] == pat then [cur] + SplitFrom(s[|pat|..], pat, "")
    else if |s| == 0 then [cur]
    else SplitFrom(s[1..], pat, cur + [s[0]])
  }

  /** `s.split(pat).collect::<Vec<_>>()`. */
  function Split(s: string, pat: string): (r: seq<string>)
    requires |pat| > 0
    ensures |r| >= 1
  {
    SplitFrom(s, pat, "")
  }

  /** The inverse of `Split`: the fields glued back together with `pat`. */
  function Join(parts: seq<string>, pat: string): string
    requires |parts| >= 1
    decreases |parts|
  {
    if |parts| == 1 then parts[0] else parts[0] + pat + Join(parts[1..], pat)
  }

  lemma {:induction false} SplitFromJoin(s: string, pat: string, cur: string)
    requires |pat| > 0
    ensures Join(SplitFrom(s, pat, cur), pat) == cur + s
    decreases |s|, 1
  {
    hide Join, SplitFrom;
    SplitFromUnfold(s, pat, cur);
    if |pat| <= |s| && s[..|pat|] == pat {
      SplitFromJoinAtPattern(s, pat, cur);
    } else if |s| == 0 {
      JoinOne(cur, pat);
      assert cur + s == cur;
    } else {
      SplitFromJoinAtChar(s, pat, cur);
    }
  }

  /** `SplitFromJoin` where `s` starts with the pattern: the field ends and a new one starts after it. */
  lemma {:induction false} SplitFromJoinAtPattern(s: string, pat: string, cur: string)
    requires 0 < |pat| <= |s| && s[..|pat|] == pat
    ensures Join([cur] + SplitFrom(s[|pat|..], pat, ""), pat) == cur + s
    decreases |s|, 0
  {
    hide Join, SplitFrom;
    var rest := s[|pat|..];
    SplitFromJoin(rest, pat, "");
    JoinCons(cur, SplitFrom(rest, pat, ""), pat);
    assert "" + rest == rest && s == pat + rest;
    assert cur + pat + rest == cur + s;
  }

  /** `SplitFromJoin` where `s` starts with an ordinary character, which joins the current field. */
  lemma {:induction false} SplitFromJoinAtChar(s: string, pat: string, cur: string)
    requires 0 < |pat| && 0 < |s|
    ensures Join(SplitFrom(s[1..], pat, cur + [s[0]]), pat) == cur + s
    decreases |s|, 0
  {
    hide Join, SplitFrom;
    SplitFromJoin(s[1..], pat, cur + [s[0]]);
    assert s == [s[0]] + s[1..];
    assert cur + [s[0]] + s[1..] == cur + s;
  }

  /** One step of `SplitFrom`, case by case. */
  lemma SplitFromUnfold(s: string, pat: string, cur: string)
    requires |pat| > 0
    ensures |pat| <= |s| && s[..|pat|] == pat ==> SplitFrom(s, pat, cur) == [cur] + SplitFrom(s[|pat|..], pat, "")
    ensures !(|pat| <= |s| && s[..|pat|] == pat) && |s| == 0 ==> SplitFrom(s, pat, cur) == [cur]
    ensures !(|pat| <= |s| && s[..|pat|] == pat) && |s| > 0 ==> SplitFrom(s, pat, cur) == SplitFrom(s[1..], pat, cur + [s[0]])
  {
  }

  lemma JoinCons(x: string, parts: seq<string>, pat: string)
    requires |parts| >= 1
    ensures Join([x] + parts, pat) == x + pat + Join(parts, pat)
  {
    assert ([x] + parts)[1..] == parts;
  }

  lemma JoinOne(x: string, pat: string)
    ensures Join([x], pat) == x
  {
  }

  /** Splitting loses nothing: joining the fields with the pattern gives back `s`. */
  lemma SplitJoin(s: string, pat: string)
    requires |pat| > 0
    ensures Join(Split(s, pat), pat) == s
  {
    SplitFromJoin(s, pat, "");
  }

  /** A stretch with no character that could start `pat` is copied into the current field. */
  lemma {:induction false} SplitFromSkips(x: string, rest: string, pat: string, cur: string)
    requires |pat| > 0
    requires forall i | 0 <= i < |x| :: x[i] != pat[0]
    ensures SplitFrom(x + rest, pat, cur) == SplitFrom(rest, pat, cur + x)
    decreases |x|
  {
    if |x| > 0 {
      var s := x + rest;
      assert s[0] == x[0] != pat[0];
      assert s[1..] == x[1..] + rest;
      SplitFromSkips(x[1..], rest, pat, cur + [x[0]]);
      assert cur + [x[0]] + x[1..] == cur + x;
    } else {
      assert x + rest == rest;
      assert cur + x == cur;
    }
  }

  /** A field that cannot contain `pat` followed by `pat` is split off as one field. */
  lemma SplitAtFirst(x: string, rest: string, pat: string)
    requires |pat| > 0
    requires forall i | 0 <= i < |x| :: x[i] != pat[0]
    ensures Split(x + pat + rest, pat) == [x] + Split(rest, pat)
  {
    SplitFromSkips(x, pat + rest, pat, "");
    assert "" + x == x;
    assert x + pat + rest == x + (pat + rest);
    assert (pat + rest)[..|pat|] == pat;
    assert (pat + rest)[|pat|..] == rest;
  }

  /** A string without any character that could start `pat` is a single field. */
  lemma SplitWhole(x: string, pat: string)
    requires |pat| > 0
    requires forall i | 0 <= i < |x| :: x[i] != pat[0]
    ensures Split(x, pat) == [x]
  {
    SplitFromSkips(x, "", pat, "");
    assert x + "" == x && "" + x == x;
  }

  /** Number of occurrences of `c` in `s`. */
  function Occurrences(s: string, c: char): nat
    decreases |s|
  {
    if |s| == 0 then 0 else (if s[0] == c then 1 else 0) + Occurrences(s[1..], c)
  }

  lemma {:induction false} SplitFromCharCount(s: string, c: char, cur: string)
    requires c !in cur
    ensures |SplitFrom(s, [c], cur)| == Occurrences(s, c) + 1
    ensures forall k | 0 <= k < |SplitFrom(s, [c], cur)| :: c !in SplitFrom(s, [c], cur)[k]
    decreases |s|
  {
    if 1 <= |s| && s[..1] == [c] {
      SplitFromCharCount(s[1..], c, "");
    } else if |s| == 0 {
    } else {
      assert s[0] != c;
      SplitFromCharCount(s[1..], c, cur + [s[0]]);
    }
  }

  /**
   * Splitting on one character gives one field more than the character occurs,
   * and no field contains the character.
   */
  lemma SplitCharCount(s: string, c: char)
    ensures |Split(s, [c])| == Occurrences(s, c) + 1
    ensures forall k | 0 <= k < |Split(s, [c])| :: c !in Split(s, [c])[k]
  {
    SplitFromCharCount(s, c, "");
  }

  // ---------------------------------------------------------------------------
  // Trimming (`str::trim`, which strips Unicode White_Space at both ends)
  // ---------------------------------------------------------------------------

  /** Rust's `char::is_whitespace`: the Unicode White_Space property. */
  predicate IsWhitespace(c: char)
  {
    || ('\t' <= c <= '\r') || c == ' ' || c == '\U{85}' || c == '\U{A0}' || c == '\U{1680}'
    || ('\U{2000}' <= c <= '\U{200A}') || c == '\U{2028}' || c == '\U{2029}'
    || c == '\U{202F}' || c == '\U{205F}' || c == '\U{3000}'
  }

  function TrimStart(s: string): (r: string)
    ensures |r| <= |s|
    decreases |s|
  {
    if |s| > 0 && IsWhitespace(s[0]) then TrimStart(s[1..]) else s
  }

  function TrimEnd(s: string): (r: string)
    ensures |r| <= |s|
    decreases |s|
  {
    if |s| > 0 && IsWhitespace(s[|s| - 1]) then TrimEnd(s[..|s| - 1]) else s
  }

  /** `TrimStart` removes exactly the leading whitespace. */
  lemma {:induction false} TrimStartSpec(s: string)
    ensures TrimStart(s) == s[|s| - |TrimStart(s)|..]
    ensures forall i | 0 <= i < |s| - |TrimStart(s)| :: IsWhitespace(s[i])
    ensures |TrimStart(s)| > 0 ==> !IsWhitespace(TrimStart(s)[0])
    decreases |s|
  {
    if |s| > 0 && IsWhitespace(s[0]) {
      TrimStartSpec(s[1..]);
    }
  }

  /** `TrimEnd` removes exactly the trailing whitespace. */
  lemma {:induction false} TrimEndSpec(s: string)
    ensures TrimEnd(s) == s[..|TrimEnd(s)|]
    ensures forall i | |TrimEnd(s)| <= i < |s| :: IsWhitespace(s[i])
    ensures |TrimEnd(s)| > 0 ==> !IsWhitespace(TrimEnd(s)[|TrimEnd(s)| - 1])
    decreases |s|
  {
    if |s| > 0 && IsWhitespace(s[|s| - 1]) {
      TrimEndSpec(s[..|s| - 1]);
    }
  }

  /** `str::trim`. */
  function Trim(s: string): string
  {
    TrimEnd(TrimStart(s))
  }

  /** Trimming a string padded by one space on either side, whose ends are not whitespace. */
  lemma TrimPadded(x: string, left: bool)
    requires |x| > 0 && !IsWhitespace(x[0]) && !IsWhitespace(x[|x| - 1])
    ensures Trim(if left then " " + x else x + " ") == x
  {
    if left {
      assert (" " + x)[1..] == x;
      assert TrimStart(" " + x) == TrimStart(x) == x;
    } else {
      assert (x + " ")[..|x|] == x;
      assert TrimStart(x + " ") == x + " ";
      assert TrimEnd(x + " ") == TrimEnd(x) == x;
    }
  }

  // ---------------------------------------------------------------------------
  // Decimal digits (`str::parse::<usize>` / `::<u64>`, `format!("{:02}")`)
  // ---------------------------------------------------------------------------

  predicate IsDigit(c: char)
  {
    '0' <= c <= '9'
  }

  predicate AllDigits(s: string)
  {
    forall i | 0 <= i < |s| :: IsDigit(s[i])
  }

  function DigitValue(c: char): (d: nat)
    requires IsDigit(c)
    ensures d < 10
  {
    (c as int - '0' as int) as nat
  }

  function DigitChar(d: nat): (c: char)
    requires d < 10
    ensures IsDigit(c) && DigitValue(c) == d
  {
    ('0' as int + d) as char
  }

  function Pow10(w: nat): (p: nat)
    ensures p >= 1
  {
    if w == 0 then 1 else 10 * Pow10(w - 1)
  }

  /** The value of a run of decimal digits, most significant first. */
  function DecimalValue(s: string): (v: nat)
    requires AllDigits(s)
    ensures v < Pow10(|s|)
    decreases |s|
  {
    if |s| == 0 then 0 else 10 * DecimalValue(s[..|s| - 1]) + DigitValue(s[|s| - 1])
  }

  /**
   * Rust's `str::parse` for an unsigned integer type whose values are below
   * `limit`: an optional leading `+`, then one or more ASCII digits (leading
   * zeros allowed); anything else, or a value that does not fit, fails.
   */
  function ParseUnsigned(s: string, limit: nat): (r: Option<nat>)
    ensures r.Some? ==> r.value < limit && |s| > 0
    ensures |s| > 0 && s[0] != '+' && !IsDigit(s[0]) ==> r == None
  {
    var digits := if |s| > 1 && s[0] == '+' then s[1..] else s;
    if |digits| > 0 && AllDigits(digits) && DecimalValue(digits) < limit
    then Some(DecimalValue(digits))
    else None
  }

  /** The shortest decimal rendering of `n` (`n.to_string()`). */
  function Decimal(n: nat): (s: string)
    ensures |s| >= 1 && AllDigits(s)
  {
    if n < 10 then [DigitChar(n)] else Decimal(n / 10) + [DigitChar(n % 10)]
  }

  /** `n` rendered in exactly `w` digits, zero-padded on the left (`format!("{:0w$}")` for n < 10^w). */
  function Pad(n: nat, w: nat): (s: string)
    ensures |s| == w && AllDigits(s)
  {
    if w == 0 then [] else Pad(n / 10, w - 1) + [DigitChar(n % 10)]
  }

  lemma {:induction false} DecimalValueOfDecimal(n: nat)
    ensures DecimalValue(Decimal(n)) == n
  {
    if n >= 10 {
      var s := Decimal(n);
      assert s[..|s| - 1] == Decimal(n / 10);
      DecimalValueOfDecimal(n / 10);
    }
  }

  lemma {:induction false} DecimalValueOfPad(n: nat, w: nat)
    requires n < Pow10(w)
    ensures DecimalValue(Pad(n, w)) == n
  {
    if w > 0 {
      var s, q, p := Pad(n, w), n / 10, Pow10(w - 1);
      assert n < 10 * p && n == 10 * q + n % 10;
      assert q < p;
      assert s == Pad(q, w - 1) + [DigitChar(n % 10)];
      assert s[..|s| - 1] == Pad(q, w - 1);
      DecimalValueOfPad(q, w - 1);
      assert DecimalValue(s) == 10 * DecimalValue(Pad(q, w - 1)) + DigitValue(DigitChar(n % 10));
    }
  }

  /** Parsing the decimal rendering of any representable number gives the number back. */
  lemma ParseDecimal(n: nat, limit: nat)
    requires n < limit
    ensures ParseUnsigned(Decimal(n), limit) == Some(n)
  {
    DecimalValueOfDecimal(n);
  }

  /** Parsing a zero-padded rendering gives the number back. */
  lemma ParsePad(n: nat, w: nat, limit: nat)
    requires w > 0 && n < Pow10(w) && n < limit
    ensures ParseUnsigned(Pad(n, w), limit) == Some(n)
  {
    DecimalValueOfPad(n, w);
  }
}
