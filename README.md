# srt-linter front end, modelled in Dafny

srt-linter checks `.srt` subtitle files. This project models its front end and one piece of its viewer:

- **The tokenizer (`Lexer`).** It walks the file's lines with a cursor. It is a three-state machine: `Counter` → `Time` → `Sub` → `Counter`.
  - It emits the tokens `Count`, `StartTime`, `EndTime` and `Subtitle`, each tagged with its 1-based line number, and then one `Eof`.
  - It decodes `HH:MM:SS,mmm` timestamps into milliseconds.
  - It counts issues: one per counter that is not the previous counter plus one, and, in strict mode, one per badly padded timestamp.
- **The record builder (`Parser`).** It folds the tokens into `Subtitle` records (`Record` here) through one buffer. The buffer is sealed into a record and reset at every `Subtitle` token. The builder also totals the text lines.
- **The viewer's helpers.** `humanize` turns seconds into `HH:MM:SS`. `flatten` turns records into display lines. `App::add` and `App::sub` move the scroll position.

Files:

- `lexing.dfy`: the tokenizer, in two forms.
  - A value-level machine: `Step`, `Run`, `Tokenize`.
  - The imperative `Lexer` class. Its `Lex` loop is proved to compute `Run`.
- `lexer_proofs.dfy`: `Run` succeeds exactly when the lines read, block by block, as described by the tokens (`Lexes`). Both directions are proved. It also proves the issue count and the 4N+1 token shape.
- `timestamps.dfy`: `lex_time` rejects as an invalid timestamp exactly the strings without two colons. It reports missing milliseconds exactly when the third field has no comma. It inverts the canonical `HH:MM:SS,mmm` rendering.
- `rendering.dfy`: tokenizing a rendered file gives back its blocks, and counts exactly the counter discontinuities. It also holds the repository's lexer test as a concrete instance, with the test's five blocks rendered in canonical form.
- `parsing.dfy`: the record builder. `Build` is its value-level specification, and the `Parser` class's `Parse` loop is proved to compute it.
- `tui.dfy`: `humanize`, `flatten` and the scroll position.
- `pipeline.dfy`: a successful tokenizer run feeds the parser safely. It yields one complete record per block, and the viewer shows as many lines as the parser's total.
- `strings.dfy`: the parts of Rust's `str` API the code relies on: `split`, `trim`, unsigned `parse` and `{:02}` padding.
- `wrappers.dfy`: `Option` and `Result`.

Strings are sequences of Unicode scalar values. Integers are unbounded; where the source's `usize`/`u64` width matters, it is written out as the bound `U64_LIMIT`.

Two choices differ from the code as written:
- The `Token::Subtitle(text)` pattern in `parse` binds the whole `(lines, line)` payload. It is modelled as intended: the text is the line list, and the count is its length.
- The two unsigned subtractions that can underflow are modelled in their corrected form. See "## Findings".

## Model

| member | source | states |
|---|---|---|
| Lexing.RemoveBom | src/frontend/lexer.rs:33-37 | a leading U+FEFF is dropped and nothing else changes; a string without one is returned unchanged |
| Lexing.Prepare | src/frontend/lexer.rs:41-79 | fails, with `EmptyInput`, exactly on a file with no lines; otherwise the lines end with an empty line, one `""` is appended only when the last line was not empty, the first line loses a leading U+FEFF and every other line is unchanged |
| Lexing.Lexer.Init | src/frontend/lexer.rs:70-78 | the lexer starts on line 0, in `Counter`, with no issues and last counter (0, 0) |
| Lexing.Lexer.New | src/frontend/lexer.rs:41-79 | fails exactly on empty input; otherwise a fresh lexer over `Prepare(input)` in its start state |
| Lexing.Lexer.Advance | src/frontend/lexer.rs:81-87 | the cursor moves to the next line, or becomes `None` past the last one |
| Lexing.Lexer.CheckTimeDigitPadding | src/frontend/lexer.rs:89-102 | adds exactly one issue unless the dial widths are 2, 2, 2 and 3, whatever the verbosity |
| Lexing.SplitDials | src/frontend/lexer.rs:105-120 | the shape checks of `lex_time`: three `:` fields or `InvalidTimestamp`, then a `,` in the third or `MissingMillis`; the dials are the first two fields and the two parts of the third |
| Lexing.PaddingIssues | src/frontend/lexer.rs:122-124 | a timestamp costs at most one padding issue, and none outside strict mode |
| Lexing.DialsValue | src/frontend/lexer.rs:126-169 | a timestamp of valid shape decodes exactly when all four fields parse as `u64`; otherwise it fails with `UnparseableTimestamp` at that line |
| Lexing.DecodeTime | src/frontend/lexer.rs:104-170 | what `lex_time` returns: the shape error of `SplitDials`, or the value of the four fields (`DialsValue`) |
| Lexing.DecodeCases | src/frontend/lexer.rs:105-124 | the order of `lex_time`'s checks: a wrong number of `:` fields is `InvalidTimestamp`, a third field without a comma is `MissingMillis`, and neither costs a padding issue; otherwise the value is that of the four fields, with one padding issue in strict mode when their widths are not 2, 2, 2 and 3 |
| Lexing.Lexer.LexTime | src/frontend/lexer.rs:104-170 | returns `DecodeTime` of the string and adds `PaddingIssues` of it (only in strict mode) |
| Lexing.CounterGapAsWritten | src/frontend/lexer.rs:183 | the source's counter subtraction panics exactly when the counter decreases in a build without wrapping |
| Lexing.CollectSub | src/frontend/lexer.rs:247-261 | the text of a block is the lines up to the next empty line: all non-empty, followed by an empty line, and the cursor resumes just after it |
| Lexing.CounterStep | src/frontend/lexer.rs:178-224 | the `Counter` arm on a configuration: `MalformedCounter` unless the line parses as `usize`; otherwise one `Count` tagged loc+1, one more issue on a discontinuity, last counter (n, loc+1), state `Time` |
| Lexing.TimeStep | src/frontend/lexer.rs:225-246 | the `Time` arm on a configuration: `MalformedTimeRange` unless the line has exactly two `-->` parts, the first failing `lex_time` error otherwise, else the two time tokens, both parts' padding issues and state `Sub` |
| Lexing.SubStep | src/frontend/lexer.rs:247-261 | the `Sub` arm on a configuration: one `Subtitle` with the lines up to the next empty line, the cursor just past it, state `Counter` |
| Lexing.Step | src/frontend/lexer.rs:176-262 | each successful pass of the loop moves the cursor forward and never beyond the end |
| Lexing.Run | src/frontend/lexer.rs:172-268 | the whole `lex` loop from a configuration: the steps' tokens in order, stopping at the first error, then `Eof` and the final issue count once the cursor is exhausted |
| Lexing.Tokenize | src/frontend/lexer.rs:41-268 | `Lexer::new` followed by `lex`: `EmptyInput` on an empty file, else `Run` over the prepared lines from the start configuration |
| Lexing.LastCounter | src/frontend/lexer.rs:208-209 | the counter and line that `last_count` holds: those of the last `Count` token emitted, or its initial value before any |
| Lexing.Lexer.CounterArm | src/frontend/lexer.rs:178-224 | the `Counter` arm does what `CounterStep` says: parse the counter or fail with `MalformedCounter`, one issue per discontinuity, remember the counter, go to `Time` |
| Lexing.Lexer.TimeArm | src/frontend/lexer.rs:225-246 | the `Time` arm does what `TimeStep` says: exactly two parts around `-->` or `MalformedTimeRange`, both trimmed parts decoded, both tokens tagged with the same line, go to `Sub` |
| Lexing.Lexer.SubArm | src/frontend/lexer.rs:247-261 | the text loop always meets an empty line before the cursor runs out (its `unwrap` cannot fail), returns the block's text and goes back to `Counter` |
| Lexing.Lexer.Lex | src/frontend/lexer.rs:172-268 | the loop computes exactly `Run` from the lexer's state; on success the cursor is exhausted, the issue counter equals the count returned, the state is `Counter` and `last_count` is the last counter emitted with its line |
| Lexing.TimeStepOk | src/frontend/lexer.rs:225-246 | a time line whose two trimmed parts decode gives the two time tokens and adds the padding issues of both parts |
| LexerProofs.GroupedShape | src/frontend/lexer.rs:172-268 | a grouped stream has 4N+1 tokens, kinds cycling `Count, StartTime, EndTime, Subtitle`, and `Eof` only last |
| LexerProofs.LexesGrouped | src/frontend/lexer.rs:172-268 | a block-by-block description is a grouped stream |
| LexerProofs.CounterStepInv | src/frontend/lexer.rs:178-224 | a successful counter step read a non-empty line holding the counter and emitted one `Count` tagged with that line |
| LexerProofs.TimeStepInv | src/frontend/lexer.rs:225-246 | a successful time step read a non-empty line with two decodable timestamps and added at most two issues, none outside strict mode |
| LexerProofs.SubStepInv | src/frontend/lexer.rs:247-261 | a text step emits the block's text and resumes after the empty line in `Counter` |
| LexerProofs.RunLexes | src/frontend/lexer.rs:172-268 | soundness: a successful run describes the lines block by block, with one issue per counter discontinuity plus at most two per block in strict mode |
| LexerProofs.CollectSubText | src/frontend/lexer.rs:247-261 | the text of a block is determined by the lines |
| LexerProofs.LinePadding | src/frontend/lexer.rs:227-245 | a time line costs at most two padding issues, none outside strict mode |
| LexerProofs.LexesRun | src/frontend/lexer.rs:172-268 | completeness: lines described block by block are lexed into exactly those tokens, with the discontinuities plus the strict-mode padding issues |
| LexerProofs.CounterGapAgrees | src/frontend/lexer.rs:183 | where the source's subtraction does not panic it flags the same counters as `IsDiscontinuity`, except the wrap from 2^64 - 1 to 0 in a wrapping build |
| LexerProofs.TokenizeSound | src/frontend/lexer.rs:172-268 | a successful tokenization describes the prepared lines, has 4N+1 tokens with `Eof` only last, and reports discontinuities plus padding issues |
| LexerProofs.TokenizeComplete | src/frontend/lexer.rs:172-268 | conversely, any description of the prepared lines is what the tokenizer returns |
| Timestamps.DecodeFormatted | src/frontend/lexer.rs:104-170 | `lex_time` decodes `HH:MM:SS,mmm` back to its milliseconds, and strict mode finds no padding issue in it |
| Timestamps.DecodeExample | src/frontend/lexer.rs:163-169 | `"00:02:16,612"` decodes to 136612 |
| Timestamps.InvalidIffColons | src/frontend/lexer.rs:105-116 | a timestamp is rejected as invalid exactly when it does not have two colons |
| Timestamps.MissingMillisIffNoComma | src/frontend/lexer.rs:118-120 | with three fields, the timestamp is missing its milliseconds exactly when the third field has no comma |
| Rendering.TokenizeRender | src/frontend/lexer.rs:172-268 | tokenizing a rendered file gives back its blocks as tokens with their line numbers and counts exactly the counter discontinuities, in strict mode too; an empty file is an error |
| Rendering.TestFile | tests/lexer_test.rs:28-59 | the test's five blocks, written in canonical form, give the test's token list and no issue in strict mode |
| Rendering.DecreasingCounter | src/frontend/lexer.rs:178-224 | a file whose counters go from 3 to 1 is tokenized into its tokens with two issues: a first counter other than 1, and a counter that does not follow 3 |
| Rendering.DecreasingGap | src/frontend/lexer.rs:183 | on those counters the source's subtraction `1 - 3` panics in a build without wrapping and wraps to 2^64 - 2 in one with wrapping |
| Strings.SplitJoin | src/frontend/lexer.rs:105 | splitting loses nothing: the fields joined with the pattern give back the string |
| Strings.SplitCharCount | src/frontend/lexer.rs:105 | splitting on a character gives one field more than it occurs, none containing it |
| Strings.TrimStartSpec | src/frontend/lexer.rs:240-241 | trimming the start removes exactly the leading whitespace |
| Strings.TrimEndSpec | src/frontend/lexer.rs:240-241 | trimming the end removes exactly the trailing whitespace |
| Strings.ParseUnsigned | src/frontend/lexer.rs:179 | an accepted number is non-empty and below the type's limit; a string not starting with a digit or `+` is rejected |
| Strings.ParsePad | src/frontend/lexer.rs:127 | a zero-padded rendering of a number parses back to it |
| Parsing.BuildTexts | src/frontend/parser.rs:52-89 | one record per `Subtitle` token before the first `Eof`, in token order, each with that token's text; the total is their number of lines |
| Parsing.BuildIgnoresAfterEof | src/frontend/parser.rs:86 | tokens after an `Eof` are never looked at |
| Parsing.BuildSegment | src/frontend/parser.rs:45-84 | a record's counter, start and end are the last ones since the previous record (`None` if there are none), exactly the tokens' values, and the next record starts from an empty buffer |
| Parsing.BuildNoText | src/frontend/parser.rs:52-89 | tokens with no text before the end seal no record |
| Parsing.Build | src/frontend/parser.rs:42-92 | the records and line total `parse` returns from the tokens ahead and the buffer: each token fills its buffer field, `Subtitle` adds its lines to the total and seals the buffer into a record, `Eof` or the end of the list stops |
| Parsing.StrictSafe | src/frontend/parser.rs:60-72 | the two `unwrap` calls of the strict-mode check succeed: at each `EndTime` the start is set, and so is the counter when start and end are equal |
| Parsing.UntilEof | src/frontend/parser.rs:86 | the traversal's extent: a prefix of the tokens, without `Eof`, followed by `Eof` or the end of the list |
| Parsing.Parser.constructor | src/frontend/parser.rs:24-30 | the cursor starts on the first token |
| Parsing.Parser.Advance | src/frontend/parser.rs:32-38 | the cursor moves to the next token, or becomes `None` past the last one |
| Parsing.Parser.Parse | src/frontend/parser.rs:42-92 | the loop returns exactly `Build` of the tokens ahead, provided the cursor is on a token and, in strict mode, the unwraps of the equal-timestamp check succeed; the cursor stops on the first `Eof` ahead, or is `None` when there is none |
| Pipeline.BuildGrouped | src/frontend/parser.rs:52-89 | a grouped stream is safe for strict mode and yields one complete record per group with that group's values |
| Pipeline.LintPipeline | src/frontend/parser.rs:42-92 | after a successful tokenization the parser's preconditions hold, every record is complete, and `flatten` gives as many lines as the total |
| Tui.TimeOfDaySpec | src/tui/mod.rs:78-81 | hours < 24, minutes < 60, seconds < 60, and together they are the seconds since midnight |
| Tui.TimeOfDay | src/tui/mod.rs:78-81 | the hour, minute and second dials of `humanize`: `(secs % 86400) / 3600`, `(secs % 3600) / 60` and `secs % 60` |
| Tui.Humanize | src/tui/mod.rs:78-84 | the label is always 8 characters |
| Tui.HumanizeReads | src/tui/mod.rs:83 | the label splits on `:` into three two-digit dials that parse back to the time of day |
| Tui.RecordLines | src/tui/mod.rs:89-95 | the display lines of one record: for each text line, its start in whole seconds as `HH:MM:SS`, two spaces, and the line |
| Tui.Flatten | src/tui/mod.rs:86-97 | `flatten`: the display lines of every record, in record order |
| Tui.BuildLineCount | src/frontend/parser.rs:74-76 | the parser's `total_lines` is the number of text lines of the records it returns (with Tui.FlattenLength, the number of lines `flatten` shows) |
| Tui.FlattenLength | src/tui/mod.rs:86-97 | one display line per text line: the length is the records' number of text lines |
| Tui.FlattenAppend | src/tui/mod.rs:86-97 | records keep their order: flattening a concatenation concatenates |
| Tui.FlattenAt | src/tui/mod.rs:90-94 | each text line shows as its record's start, in whole seconds as `HH:MM:SS`, two spaces, and the line |
| Tui.AddGuardAsWritten | src/tui/mod.rs:117 | the source's guard panics exactly when there are fewer than two lines, in a build without wrapping |
| Tui.AddGuardAgrees | src/tui/mod.rs:116-123 | with at least two lines, the source's guard is the corrected one |
| Tui.AddGuardOneLine | src/tui/mod.rs:117 | with one line the source's guard panics, or, wrapping, lets the position move past the last line |
| Tui.App.constructor | src/tui/mod.rs:107-114 | position 0, `max` the number of lines, line 0 selected, scrollbar at 1 |
| Tui.App.Add | src/tui/mod.rs:116-123 | moves down by one exactly when a next line exists, and the position never passes the last line; the selection and the scrollbar follow |
| Tui.App.Sub | src/tui/mod.rs:125-132 | moves up by one exactly when not on the first line, never below zero; the selection and the scrollbar follow |

## Left out

- Logging (`print_log`, `verbose`): the messages are dropped. This includes the strict-mode warnings for a first counter other than 1 and for equal timestamps; neither adds an issue.
- Process exit: `ExitCode::FAILURE`, `exit(1)` after a field fails to parse, and the index panic on a timestamp without a comma all end the run. They are modelled as the `Err` values `LexError`.
- Lexing.Lexer.CheckTimeDigitPadding: widths are counted in characters, where the source counts UTF-8 bytes. The two differ only for a field that holds a non-ASCII character. Such a field fails `parse` (src/frontend/lexer.rs:126-158), so the run fails and its issue count is discarded.
- Lexing.DialsValue: the `u64` multiplications and sum can overflow in the source; the model computes with unbounded numbers. Each field is still bounded by `U64_LIMIT`.
- Parsing.Parser.Parse: `total_lines` is a `usize` in the source and unbounded here.
- Parsing.Parser.Parse: an empty token list is excluded by `Valid()`. The source panics on it, because the cursor starts at `Some(0)` and the first token is read unchecked. The tokenizer never produces one (Pipeline.LintPipeline).
- Strings.ParseUnsigned: only the cases the tokenizer meets are modelled: an optional `+`, ASCII digits and the type's limit. The error kinds of `ParseIntError` are not distinguished.
- Timestamps.FormatTimestamp: the round trip covers timestamps below 100 hours, whose hour dial has two digits.
- `src/main.rs` (command line, file reading, terminal setup) is not part of this model. It destructures three values from `parse`, which the parser shown returns as two.
- `run_tui`, `ui_draw` and the ratatui widgets are not modelled. Of `ScrollbarState` and `ListState`, only the position and the selected index are kept.
- Tui.App.Add: `saturating_add(1)` is a plain increment, since the guard keeps the position below `max - 1`.
- The lexer's arms are separate methods here; in the source they are inline in the `match` of `lex`.

## Findings

| source | as written | input that shows it | evidently intended | confidence | as-written member | corrected member |
|---|---|---|---|---|---|---|
| src/frontend/lexer.rs:183 | `(result - self.last_count.0) != 1` on `usize` | a file whose counters go 3, then 1: `1 - 3` underflows, which panics in a debug build (Rendering.DecreasingGap) | count one issue for any counter that is not the previous one plus one, including a decreasing one, and go on (proved in Rendering.DecreasingCounter and LexerProofs.LexesRun) | medium; not executed | Lexing.CounterGapAsWritten | Lexing.IsDiscontinuity |
| src/tui/mod.rs:117 | `self.scroll_pos <= self.max - 2` on `usize` | a file with a single text line (`max` = 1), Down key at position 0: `1 - 2` panics in a debug build, and in a wrapping build the position moves to 1, past the last line | move down only while a next line exists, so the position stays below `max` (proved in Tui.App.Add) | medium; not executed | Tui.AddGuardAsWritten | Tui.CanAdd |
