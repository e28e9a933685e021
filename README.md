# Bookkeeping REPL, modelled in Dafny

The program is a command-line bookkeeping tool. It keeps a ledger: an ordered list
of signed amounts, where a negative amount is a debit and any other amount is a
credit. It reads one line at a time. Each line is trimmed, lower-cased and split
on white space. The first token picks a command:

- `quit` leaves the loop;
- `help` prints the help text;
- `list` prints one `Debit\t<magnitude>` or `Credit\t<magnitude>` line per entry;
- `balance` prints the sum of the entries;
- `credit <amount>` appends the amount;
- `debit <amount>` appends its negation.

Anything else, and a `credit` or `debit` whose second token is missing or does not
parse, prints "Invalid input" with the normalised line and then the help text.

The model has four modules:

- `Text` (`text.dfy`) models `trim`, `to_ascii_lowercase` and `split_whitespace`.
  White space is the Unicode White_Space property, which is what Rust's `trim` and
  `split_whitespace` test.
- `Ledger` (`ledger.dfy`) models the ledger.
  - The `Vec<f32>` is the class `Records`, whose methods push onto its `entries`
    in place.
  - `get_balance` is the fold `Balance`.
  - `format_records_to_string` is the method `FormatRecordsToString`. Its loop is
    proved against the function `Format`.
- `Repl` (`repl.dfy`) models the body of the loop and the loop itself.
  - The body of the loop is a pure step `Step(line, ledger) -> (ledger', outcome)`,
    built from `Normalize`, `Tokens` and the `match` (`Dispatch`).
  - The loop is the method `Run`. It drives a `Records` object through `Execute`
    and is proved equal to the specification `Replay`. `Replay` folds `Advance`,
    one line at a time, and stops at `quit`.
- `Wrappers` holds `Option`.

Amounts are `real`. `str::parse::<f32>` is the parameter `parse: string ->
Option<real>`, which gives `None` where the parse fails. `f32::to_string` is the
parameter `show: real -> string`. Standard input is a finite sequence of lines
given to `Run`. What the program prints is modelled by the `Outcome` of each line,
not as text. The exception is the listing, which is modelled as the string
`format_records_to_string` builds.

Three facts about the code, which the model follows:

- `add_record` announces the value it stores. `create_debit_record` passes
  `-amount` to it (src/main.rs:29), so a debit announces the negated amount.
  `Added(entry)` carries that value.
- At end of input `read_line` returns `Ok(0)`: the line is empty, an empty line
  is a no-op, and the loop never ends (src/main.rs:63-73). The model reads a
  finite list of lines and stops after the last one. See "## Left out".
- Every listing line, the last one included, ends in `'\n'` (src/main.rs:47).
  `FormatNewlines` states this.

## Model

| member | source | states |
|---|---|---|
| `Text.LowerChar` | src/main.rs:66 | `to_ascii_lowercase` on one character: `A`-`Z` go to `a`-`z` (code point + 32), every other character is unchanged |
| `Text.LowerCharSpace` | src/main.rs:66-68 | lower-casing a character neither creates nor removes white space, and applying it twice is the same as once |
| `Text.LowerIdempotent` | src/main.rs:66 | lower-casing a lower-cased line changes nothing |
| `Text.LowerSlice` | src/main.rs:66 | lower-casing commutes with taking a slice |
| `Text.LowerConcat` | src/main.rs:66 | lower-casing distributes over concatenation |
| `Text.TrimStartSpec` | src/main.rs:66 | `trim_start` keeps a suffix, drops only white space, and the result does not start with white space |
| `Text.TrimEndSpec` | src/main.rs:66 | `trim_end` keeps a prefix, drops only white space, and the result does not end with white space |
| `Text.TrimEnds` | src/main.rs:66 | a non-empty trimmed line neither starts nor ends with white space |
| `Text.TrimSplits` | src/main.rs:66 | the line is a white-space prefix, then the trimmed line, then a white-space suffix |
| `Text.TrimStartLower` | src/main.rs:66 | `trim_start` commutes with lower-casing |
| `Text.TrimEndLower` | src/main.rs:66 | `trim_end` commutes with lower-casing |
| `Text.TrimLower` | src/main.rs:66 | `trim` commutes with lower-casing, so their order in the loop does not matter |
| `Text.WordLen` | src/main.rs:68 | the leading run of non-space characters is no longer than the line |
| `Text.WordLenSpec` | src/main.rs:68 | that run holds no white space, ends at white space or at the end of the line, and is non-empty when the line starts with a non-space |
| `Text.TokensAreWords` | src/main.rs:68 | every token of `split_whitespace` is non-empty and holds no white space |
| `Text.TokensEmpty` | src/main.rs:68-69 | a line has no tokens, so `tokens.get(0)` is `None`, exactly when it is empty or all white space |
| `Text.WordLenConcat` | src/main.rs:68 | the leading run is unchanged by what follows a space |
| `Text.TokensConcat` | src/main.rs:68 | splitting distributes over concatenation when the seam is white space |
| `Text.TokensConcatSpace` | src/main.rs:68 | the same, when the first part starts with white space |
| `Text.TokensConcatWord` | src/main.rs:68 | the same, when the first part starts with a word |
| `Text.TokensWordHead` | src/main.rs:68 | specification helper that unfolds the definition of the split once: a line that starts with a non-space has its leading run as its first token |
| `Text.AllSpaceTokens` | src/main.rs:68 | a line that is all white space has no tokens |
| `Text.TokensTrimStart` | src/main.rs:66-68 | `trim_start` does not change the tokens |
| `Text.TokensTrimEnd` | src/main.rs:66-68 | `trim_end` does not change the tokens |
| `Text.TokensTrim` | src/main.rs:66-68 | trimming before splitting does not change the tokens |
| `Text.WordLenLower` | src/main.rs:66-68 | lower-casing does not move the end of the leading run |
| `Text.TokensLower` | src/main.rs:66-68 | the tokens of the lower-cased line are the line's own tokens, each lower-cased |
| `Text.SplitJoin` | src/main.rs:68 | words joined by single spaces split back into the same words |
| `Text.WordTokens` | src/main.rs:68 | a single word is its own only token |
| `Ledger.Records.constructor` | src/main.rs:54 | the ledger starts empty |
| `Ledger.Records.AddRecord` | src/main.rs:23-26 | appends exactly `amount`: one more entry, the earlier entries unchanged, and it announces `amount` |
| `Ledger.Records.CreateDebitRecord` | src/main.rs:28-30 | appends `-amount` whatever the sign of `amount`, announces `-amount`, and lowers the balance by `amount` |
| `Ledger.Records.CreateCreditRecord` | src/main.rs:32-34 | appends `amount` unchanged, announces it, and raises the balance by `amount` |
| `Ledger.BalanceEmpty` | src/main.rs:36-38 | the balance of the empty ledger is 0 |
| `Ledger.BalanceAppend` | src/main.rs:36-38 | appending an entry moves the balance by exactly that entry |
| `Ledger.BalanceConcat` | src/main.rs:36-38 | the balance of two ledgers one after the other is the sum of their balances |
| `Ledger.BalanceIsSum` | src/main.rs:36-38 | the left-to-right fold equals an independent sum taken from the right |
| `Ledger.Abs` | src/main.rs:45 | `abs` is non-negative: `-x` for a negative `x`, `x` otherwise |
| `Ledger.Label` | src/main.rs:44 | the label is `Debit\t` exactly when the entry is below 0, and `Credit\t` exactly when it is not |
| `Ledger.FormatRecordsToString` | src/main.rs:41-50 | the loop's output buffer ends as `Format(records, show)`: one line per entry, in order |
| `Ledger.FormatAppend` | src/main.rs:43-48 | one more entry adds its label, its magnitude and a newline at the end of the listing |
| `Ledger.FormatDebit` | src/main.rs:43-48 | a stored debit of a positive `b` adds the line `Debit\t` followed by `show(b)` |
| `Ledger.FormatEmpty` | src/main.rs:41-50 | the empty ledger lists as the empty string |
| `Ledger.FirstNewline` | src/main.rs:47 | specification helper for reading back the listing: finds the first newline that line 47 writes, or the end of the text |
| `Ledger.LinesCons` | src/main.rs:46-47 | specification helper for reading back the listing: a newline-free line followed by the newline written at line 47 reads back as that line first |
| `Ledger.LineTextsIndex` | src/main.rs:43-46 | there is one listing line per entry, line `i` for entry `i` |
| `Ledger.FormatLines` | src/main.rs:41-50 | when `to_string` never yields a newline, the listing read back line by line is exactly one line per entry, in order |
| `Ledger.ListingLine` | src/main.rs:44-46 | line `i` is `Debit\t` and `show(-r)` for a negative entry `r`, and `Credit\t` and `show(r)` otherwise |
| `Ledger.ListingSign` | src/main.rs:44 | line `i` starts with `D` exactly when entry `i` is negative, so the label recovers the sign |
| `Ledger.CountCharConcat` | src/main.rs:46-47 | specification helper for counting the newlines line 47 writes: character counts add over concatenation |
| `Ledger.CountCharAbsent` | src/main.rs:46 | specification helper for counting newlines: a string without the character counts zero of it, which applies to the text pushed at line 46 |
| `Ledger.FormatNewlines` | src/main.rs:41-50 | the listing holds exactly as many newlines as entries, and a non-empty listing ends with one |
| `Repl.NormalizedTokens` | src/main.rs:66-68 | the tokens dispatched on are the raw line's tokens, lower-cased |
| `Repl.StepQuery` | src/main.rs:74-77 | `quit`, `help`, `list` and `balance`, in any case and whatever follows, leave the ledger alone and give `Quit`, `Help`, the listing and the balance |
| `Repl.DispatchQuery` | src/main.rs:72-77 | the same, for the `match` on lower-cased tokens |
| `Repl.StepEntry` | src/main.rs:70-85 | `credit x` stores `x` and `debit x` stores `-x` when the second token parses as `x`, and each announces the stored value |
| `Repl.DispatchEntry` | src/main.rs:78-85 | the same, for the `match` on lower-cased tokens |
| `Repl.StepInvalid` | src/main.rs:78-86 | an unknown command, and `credit`/`debit` whose amount is missing or unparsable, leave the ledger alone and echo the trimmed, lower-cased line |
| `Repl.DispatchInvalid` | src/main.rs:78-86 | the same, for the `match` on lower-cased tokens |
| `Repl.StepIsDispatch` | src/main.rs:66-72 | one step is the `match` applied to the lower-cased tokens of the raw line and to the normalised line |
| `Repl.StepLedger` | src/main.rs:72-87 | the ledger grows by one entry exactly on a valid `credit`/`debit`, exactly then the outcome is `Added`, earlier entries stay, the balance moves by the new entry, and otherwise the ledger is unchanged |
| `Repl.BlankLine` | src/main.rs:66-73 | an empty or all-white-space line does nothing |
| `Repl.StepIgnoresCase` | src/main.rs:66 | lines that are equal up to ASCII case take the same step, echo included |
| `Repl.StepIgnoresExtraTokens` | src/main.rs:68-70 | words appended to a line of two or more tokens change neither the ledger nor the outcome, apart from the echoed text |
| `Repl.ExtraTokens` | src/main.rs:68 | words appended after a space become extra tokens after the line's own |
| `Repl.DispatchFirstTwo` | src/main.rs:69-70 | the `match` reads only the first two tokens |
| `Repl.ReplayAfterQuit` | src/main.rs:74 | once `quit` has been read, later lines are never read |
| `Repl.ReplayLedger` | src/main.rs:59-91 | at every point the ledger is exactly the list of values announced by "Adding entry", in order |
| `Repl.ReplayOutcomes` | src/main.rs:59-91 | there is at most one outcome per line; the session has stopped exactly when the last outcome is `Quit`; otherwise every line was read |
| `Repl.Execute` | src/main.rs:69-87 | the `match` run against the ledger object gives the same new ledger and outcome as the pure `Dispatch` |
| `Repl.Run` | src/main.rs:58-91 | the loop over a finite input, mutating one ledger in place, ends in exactly the session `Replay` specifies |
| `Repl.ReplaySnoc` | src/main.rs:59-90 | specification helper that unfolds the definition of `Replay` once: reading one more line advances the session by that line |
| `Repl.AdvanceCredit` | src/main.rs:78-79 | in a running session, `credit x` appends `x` and announces it |
| `Repl.AdvanceDebit` | src/main.rs:82-83 | in a running session, `debit x` appends `-x` and announces it |
| `Repl.AdvanceBalance` | src/main.rs:77 | in a running session, `balance` reports the balance and changes nothing |
| `Repl.AdvanceList` | src/main.rs:76 | in a running session, `list` reports the listing and changes nothing |
| `Repl.CreditThenDebit` | src/main.rs:78-85 | from any running session, `credit a` then `debit b` append `a` and `-b`, announce both, and move the balance by `a - b` |
| `Repl.ReplayBalanceReported` | src/main.rs:77 | `balance` reports the sum of every entry announced so far |
| `Repl.CreditDebitBalance` | src/main.rs:77-85 | `credit 100` then `debit 30`, from the start, leave the ledger `[100, -30]`, whose balance is 70 |
| `Repl.BalanceAfterCreditDebit` | src/main.rs:77 | the third line of that session, `balance`, read once the ledger is `[100, -30]`, reports 70 |
| `Repl.DebitThenListing` | src/main.rs:76-83 | from any running session, `debit b` then `list` store `-b` and print the listing of the ledger that now ends in it |
| `Repl.DebitThenList` | src/main.rs:76-83 | `debit 50` then `list`, from the start, store -50 and print the single line `Debit\t` followed by `show(50)` |
| `Repl.CreditHundred` | src/main.rs:66-70 | the line `credit 100` is a `credit` command with amount 100 |
| `Repl.DebitThirty` | src/main.rs:66-70 | the line `debit 30` is a `debit` command with amount 30 |
| `Repl.DebitFifty` | src/main.rs:66-70 | the line `debit 50` is a `debit` command with amount 50 |
| `Repl.BalanceWord` | src/main.rs:66-69 | the line `balance` is the `balance` command |
| `Repl.ListWord` | src/main.rs:66-69 | the line `list` is the `list` command |
| `Repl.UnknownCommand` | src/main.rs:86 | `FOO` takes the invalid-input path, echoes `foo` and leaves the ledger alone |
| `Repl.DebitWithoutAmount` | src/main.rs:82-84 | `debit` with no amount is invalid and leaves the ledger alone |
| `Repl.WordLine` | src/main.rs:66-68 | a single word trims to itself and is its own only token |
| `Repl.CommandLine` | src/main.rs:68-70 | a command word, one space and an amount word split into exactly those two tokens |
| `Repl.EntryLine` | src/main.rs:68-70 | such a line, already in lower case, carries that command and the parse of that amount |
| `Repl.QueryLine` | src/main.rs:68-69 | a single lower-case word carries that command |

## Left out

- Printing is not modelled as text: the banner, the prompt `>>> `, the help text,
  "Adding entry", "Invalid input" and the farewell message. Each line's `Outcome`
  stands for what it prints. The listing is the exception: `Listing` carries the
  string `format_records_to_string` returns.
- Reading standard input is not modelled. The input is a finite list of lines, and
  the flush and `read_line` error paths (the two `expect` calls) are absent.
- End of input is not modelled. The program spins forever on the empty line it
  gets at end of input. `Run` stops when the list of lines runs out.
- `input.clear()` is not modelled, because `Run` gives every line a fresh string.
- `f32` arithmetic is not modelled: amounts are exact reals, and `Balance` is the
  exact sum. Rounding, overflow to infinity, NaN and `-0.0` are not captured. For
  example, `-0.0 < 0.0` is false in `f32` but does not arise over the reals.
- `str::parse::<f32>`'s grammar (which strings parse, and to what) is the
  parameter `parse`. `f32::to_string` is the parameter `show`. Properties of the
  listing that rely on `show` never yielding a newline assume that through
  `SingleLine`.
- `Text.LowerChar`: it works on code points. Rust works on the UTF-8 bytes of the
  `String`, which gives the same result, because ASCII lower-casing never touches
  a non-ASCII byte.
