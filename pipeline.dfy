/**
 * The two stages together: what the record builder and the viewer make of a
 * successful tokenizer run.
 */
module Pipeline {
  import opened Wrappers
  import opened Lexing
  import opened LexerProofs
  import opened Parsing
  import opened Tui

  /** One complete record per group of four tokens. */
  function GroupRecords(toks: seq<Token>): seq<Record>
    requires Grouped(toks)
    decreases |toks|
  {
    if toks == [Eof] then []
    else [Record(Some(toks[0].n), Some(toks[1].ms), Some(toks[2].ms), Some(toks[3].text))] + GroupRecords(toks[4..])
  }

  /**
   * A grouped stream is safe for strict mode and is built into one complete
   * record per group, holding that group's counter, times and text.
   */
  lemma {:induction false} BuildGrouped(toks: seq<Token>)
    requires Grouped(toks)
    ensures StrictSafe(toks, Blank)
    ensures Build(toks, Blank) == (GroupRecords(toks), LineCount(GroupRecords(toks)))
    ensures |GroupRecords(toks)| == |toks| / 4
    ensures forall k | 0 <= k < |GroupRecords(toks)| :: Complete(GroupRecords(toks)[k])
    decreases |toks|
  {
    if toks != [Eof] {
      var rest := toks[4..];
      BuildGrouped(rest);
      var t1, b1 := toks[1..], Blank.(id := Some(toks[0].n));
      var t2, b2 := t1[1..], b1.(start := Some(toks[1].ms));
      var t3, b3 := t2[1..], b2.(end := Some(toks[2].ms));
      assert t1[0] == toks[1] && t2[0] == toks[2] && t3[0] == toks[3] && t3[1..] == rest;
      var r := Record(Some(toks[0].n), Some(toks[1].ms), Some(toks[2].ms), Some(toks[3].text));
      assert Build(t3, b3) == ([r] + Build(rest, Blank).0, |toks[3].text| + Build(rest, Blank).1);
      assert Build(toks, Blank) == Build(t1, b1) == Build(t2, b2) == Build(t3, b3);
      assert StrictSafe(t3, b3) && StrictSafe(t2, b2) && StrictSafe(t1, b1);
      assert ([r] + GroupRecords(rest))[1..] == GroupRecords(rest);
    } else {
      assert toks[0] == Eof;
    }
  }

  /**
   * After a successful tokenizer run the parser can be used on the tokens in
   * either mode: its cursor starts on a token and the strict-mode unwraps
   * succeed.  It yields one complete record per block, and the viewer shows
   * exactly as many lines as the parser's total.
   */
  lemma LintPipeline(input: seq<string>, strict: bool, toks: seq<Token>, k: nat)
    requires Tokenize(input, strict) == Ok((toks, k))
    ensures |toks| > 0 && StrictSafe(toks, Blank)
    ensures |Build(toks, Blank).0| == |toks| / 4
    ensures forall i | 0 <= i < |Build(toks, Blank).0| :: Complete(Build(toks, Blank).0[i])
    ensures Started(Build(toks, Blank).0) && |Flatten(Build(toks, Blank).0)| == Build(toks, Blank).1
  {
    hide Tokenize;
    TokenizeSound(input, strict, toks, k);
    BuildGrouped(toks);
    FlattenLength(Build(toks, Blank).0);
  }
}
