module Wrappers {
  datatype Option<+T> = None | Some(value: T)
}

/** One iteration of the REPL loop in `main`, as a pure step over the ledger, the
    loop itself as a method that mutates the ledger, and their properties.
    `parse` stands for `str::parse::<f32>` (`None` when it fails) and `show` for
    `f32::to_string`. */
module Repl {
  import opened Wrappers
  import opened Text
  import opened Ledger

  /** What one line makes the REPL do; the printed text itself is not modelled. */
  datatype Outcome =
    | NoOp                     // empty or blank line: nothing printed
    | Quit                     // `quit`: leave the loop
    | Help                     // `help`: print the help text
    | Listing(text: string)    // `list`: print the formatted records
    | BalanceShown(total: real)// `balance`: print the sum of the records
    | Added(entry: real)       // `credit`/`debit`: print "Adding entry" with the stored value
    | Invalid(echo: string)    // anything else: print "Invalid input" with the normalised line

  /** The line as the loop keeps it: `input.trim().to_ascii_lowercase()`. */
  function Normalize(line: string): string
  {
    Lower(Trim(line))
  }

  /** The command words the loop's `match` recognises; anything else is `Unknown`. */
  datatype Command = QuitCommand | HelpCommand | ListCommand | BalanceCommand
                   | CreditCommand | DebitCommand | Unknown

  function CommandOf(word: string): Command
  {
    if word == "quit" then QuitCommand
    else if word == "help" then HelpCommand
    else if word == "list" then ListCommand
    else if word == "balance" then BalanceCommand
    else if word == "credit" then CreditCommand
    else if word == "debit" then DebitCommand
    else Unknown
  }

  /** The `match` of the loop: dispatch on the first token, with the second token's
      parse as the amount; `input` is what the invalid path echoes. */
  function Dispatch(tokens: seq<string>, input: string, records: seq<real>,
                    parse: string -> Option<real>, show: real -> string): (seq<real>, Outcome)
  {
    if |tokens| == 0 then (records, NoOp)
    else
      var amount := if |tokens| > 1 then parse(tokens[1]) else None;
      match CommandOf(tokens[0])
      case QuitCommand => (records, Quit)
      case HelpCommand => (records, Help)
      case ListCommand => (records, Listing(Format(records, show)))
      case BalanceCommand => (records, BalanceShown(Balance(records)))
      case CreditCommand =>
        if amount.Some? then (records + [amount.value], Added(amount.value)) else (records, Invalid(input))
      case DebitCommand =>
        if amount.Some? then (records + [-amount.value], Added(-amount.value)) else (records, Invalid(input))
      case Unknown => (records, Invalid(input))
  }

  /** The body of the loop after the read: normalise, split, dispatch. Returns the
      new ledger and what happened. */
  function Step(line: string, records: seq<real>, parse: string -> Option<real>, show: real -> string)
    : (seq<real>, Outcome)
  {
    var input := Normalize(line);
    Dispatch(Tokens(input), input, records, parse, show)
  }

  /** The tokens the loop dispatches on are the line's own tokens, lower-cased. */
  lemma NormalizedTokens(line: string)
    ensures Tokens(Normalize(line)) == LowerAll(Tokens(line))
  {
    TokensLower(Trim(line));
    TokensTrim(line);
  }

  /** The line's first token names command `c`, in any letter case. */
  predicate IsCommand(ts: seq<string>, c: Command) {
    |ts| > 0 && CommandOf(Lower(ts[0])) == c
  }

  /** The amount the line carries, if its second token parses. */
  function Amount(ts: seq<string>, parse: string -> Option<real>): Option<real>
  {
    if |ts| > 1 then parse(Lower(ts[1])) else None
  }

  /** `quit`, `help`, `list` and `balance`, in any letter case and whatever follows
      them, leave the ledger as it is and report their outcome. */
  lemma StepQuery(line: string, records: seq<real>, parse: string -> Option<real>, show: real -> string)
    ensures var ts := Tokens(line);
      var (next, outcome) := Step(line, records, parse, show);
      && (IsCommand(ts, QuitCommand) ==> next == records && outcome == Quit)
      && (IsCommand(ts, HelpCommand) ==> next == records && outcome == Help)
      && (IsCommand(ts, ListCommand) ==> next == records && outcome == Listing(Format(records, show)))
      && (IsCommand(ts, BalanceCommand) ==> next == records && outcome == BalanceShown(Balance(records)))
  {
    StepIsDispatch(line, records, parse, show);
    DispatchQuery(Tokens(line), Normalize(line), records, parse, show);
  }

  lemma DispatchQuery(ts: seq<string>, input: string, records: seq<real>,
                      parse: string -> Option<real>, show: real -> string)
    ensures var (next, outcome) := Dispatch(LowerAll(ts), input, records, parse, show);
      && (IsCommand(ts, QuitCommand) ==> next == records && outcome == Quit)
      && (IsCommand(ts, HelpCommand) ==> next == records && outcome == Help)
      && (IsCommand(ts, ListCommand) ==> next == records && outcome == Listing(Format(records, show)))
      && (IsCommand(ts, BalanceCommand) ==> next == records && outcome == BalanceShown(Balance(records)))
  {
    if |ts| > 0 {
      assert LowerAll(ts)[0] == Lower(ts[0]);
    }
  }

  /** `credit x` stores `x` and `debit x` stores `-x`, in any letter case, whenever
      the second token parses as `x`. */
  lemma StepEntry(line: string, records: seq<real>, parse: string -> Option<real>, show: real -> string)
    ensures var ts := Tokens(line);
      var amount := Amount(ts, parse);
      var (next, outcome) := Step(line, records, parse, show);
      && (IsCommand(ts, CreditCommand) && amount.Some? ==>
            next == records + [amount.value] && outcome == Added(amount.value))
      && (IsCommand(ts, DebitCommand) && amount.Some? ==>
            outcome == Added(-amount.value) && next == records + [outcome.entry])
  {
    StepIsDispatch(line, records, parse, show);
    DispatchEntry(Tokens(line), Normalize(line), records, parse, show);
  }

  lemma DispatchEntry(ts: seq<string>, input: string, records: seq<real>,
                      parse: string -> Option<real>, show: real -> string)
    ensures var amount := Amount(ts, parse);
      var (next, outcome) := Dispatch(LowerAll(ts), input, records, parse, show);
      && (IsCommand(ts, CreditCommand) && amount.Some? ==>
            next == records + [amount.value] && outcome == Added(amount.value))
      && (IsCommand(ts, DebitCommand) && amount.Some? ==>
            outcome == Added(-amount.value) && next == records + [outcome.entry])
  {
    if |ts| > 1 {
      assert LowerAll(ts)[0] == Lower(ts[0]);
      assert LowerAll(ts)[1] == Lower(ts[1]);
    }
  }

  /** An unknown command, or `credit`/`debit` whose amount is missing or does not
      parse, takes the invalid-input path: the ledger is unchanged and the trimmed,
      lower-cased line is echoed. */
  lemma StepInvalid(line: string, records: seq<real>, parse: string -> Option<real>, show: real -> string)
    ensures var ts := Tokens(line);
      var (next, outcome) := Step(line, records, parse, show);
      && ((IsCommand(ts, CreditCommand) || IsCommand(ts, DebitCommand)) && Amount(ts, parse).None? ==>
            next == records && outcome == Invalid(Normalize(line)))
      && (IsCommand(ts, Unknown) ==> next == records && outcome == Invalid(Normalize(line)))
  {
    StepIsDispatch(line, records, parse, show);
    DispatchInvalid(Tokens(line), Normalize(line), records, parse, show);
  }

  lemma DispatchInvalid(ts: seq<string>, input: string, records: seq<real>,
                        parse: string -> Option<real>, show: real -> string)
    ensures var (next, outcome) := Dispatch(LowerAll(ts), input, records, parse, show);
      && ((IsCommand(ts, CreditCommand) || IsCommand(ts, DebitCommand)) && Amount(ts, parse).None? ==>
            next == records && outcome == Invalid(input))
      && (IsCommand(ts, Unknown) ==> next == records && outcome == Invalid(input))
  {
    if |ts| > 0 {
      assert LowerAll(ts)[0] == Lower(ts[0]);
    }
    if |ts| > 1 {
      assert LowerAll(ts)[1] == Lower(ts[1]);
    }
  }

  /** The step dispatches on the line's own tokens, lower-cased, and echoes the
      trimmed, lower-cased line. */
  lemma StepIsDispatch(line: string, records: seq<real>, parse: string -> Option<real>, show: real -> string)
    ensures Step(line, records, parse, show)
         == Dispatch(LowerAll(Tokens(line)), Normalize(line), records, parse, show)
  {
    NormalizedTokens(line);
  }

  /** A valid `credit` or `debit`: the only lines that change the ledger. */
  predicate IsEntry(ts: seq<string>, parse: string -> Option<real>) {
    (IsCommand(ts, CreditCommand) || IsCommand(ts, DebitCommand)) && Amount(ts, parse).Some?
  }

  /** The ledger grows by one entry exactly on a valid `credit` or `debit`, keeps
      everything it had, and otherwise does not change; the balance moves by the
      stored entry. */
  lemma StepLedger(line: string, records: seq<real>, parse: string -> Option<real>, show: real -> string)
    ensures var (next, outcome) := Step(line, records, parse, show);
      && (IsEntry(Tokens(line), parse) <==> |next| == |records| + 1)
      && (IsEntry(Tokens(line), parse) <==> outcome.Added?)
      && (IsEntry(Tokens(line), parse) ==>
            next[..|records|] == records && next[|records|] == outcome.entry
            && Balance(next) == Balance(records) + outcome.entry)
      && (!IsEntry(Tokens(line), parse) ==> next == records)
      && next == records + EntryOf(outcome)
  {
    StepQuery(line, records, parse, show);
    StepEntry(line, records, parse, show);
    StepInvalid(line, records, parse, show);
    StepIsDispatch(line, records, parse, show);
    var (next, outcome) := Step(line, records, parse, show);
    if outcome.Added? {
      BalanceAppend(records, outcome.entry);
    } else {
      assert records + EntryOf(outcome) == records;
    }
  }

  /** A line that is empty or white space only does nothing. */
  lemma BlankLine(line: string, records: seq<real>, parse: string -> Option<real>, show: real -> string)
    requires AllSpace(line)
    ensures Step(line, records, parse, show) == (records, NoOp)
  {
    TokensEmpty(line);
    NormalizedTokens(line);
  }

  /** Commands ignore letter case: lines equal up to ASCII case take the same step,
      down to the echoed input. */
  lemma StepIgnoresCase(line1: string, line2: string, records: seq<real>,
                        parse: string -> Option<real>, show: real -> string)
    requires Lower(line1) == Lower(line2)
    ensures Step(line1, records, parse, show) == Step(line2, records, parse, show)
  {
    TrimLower(line1);
    TrimLower(line2);
    assert Normalize(line1) == Normalize(line2);
  }

  /** Tokens after the second are ignored: appending more words to a line that
      already has two tokens changes neither the ledger nor the outcome, except
      for the echoed text on the invalid path. */
  lemma StepIgnoresExtraTokens(line: string, extra: string, records: seq<real>,
                               parse: string -> Option<real>, show: real -> string)
    requires |Tokens(line)| >= 2
    ensures var (next1, out1) := Step(line, records, parse, show);
      var (next2, out2) := Step(line + " " + extra, records, parse, show);
      && next1 == next2
      && (out1.Invalid? <==> out2.Invalid?)
      && (!out1.Invalid? ==> out1 == out2)
  {
    var longer := line + " " + extra;
    ExtraTokens(line, extra);
    StepIsDispatch(line, records, parse, show);
    StepIsDispatch(longer, records, parse, show);
    var t1 := LowerAll(Tokens(line));
    var t2 := LowerAll(Tokens(longer));
    assert t1[0] == Lower(Tokens(line)[0]) && t1[1] == Lower(Tokens(line)[1]);
    assert t2[0] == Lower(Tokens(longer)[0]) && t2[1] == Lower(Tokens(longer)[1]);
    DispatchFirstTwo(t1, t2, Normalize(line), Normalize(longer), records, parse, show);
  }

  /** Words appended after a space come after the line's own tokens. */
  lemma ExtraTokens(line: string, extra: string)
    ensures Tokens(line + " " + extra) == Tokens(line) + Tokens(extra)
  {
    assert line + " " + extra == line + (" " + extra);
    TokensConcat(line, " " + extra);
    assert (" " + extra)[1..] == extra;
  }

  /** Dispatch reads only the first two tokens. */
  lemma DispatchFirstTwo(t1: seq<string>, t2: seq<string>, in1: string, in2: string, records: seq<real>,
                         parse: string -> Option<real>, show: real -> string)
    requires |t1| >= 2 && |t2| >= 2 && t1[0] == t2[0] && t1[1] == t2[1]
    ensures var (next1, out1) := Dispatch(t1, in1, records, parse, show);
      var (next2, out2) := Dispatch(t2, in2, records, parse, show);
      && next1 == next2
      && (out1.Invalid? <==> out2.Invalid?)
      && (!out1.Invalid? ==> out1 == out2)
  {
  }

  // ---------------------------------------------------------------------------
  // The loop

  /** The state of a session: the ledger, the outcome of each line so far, and
      whether `quit` has been read. */
  datatype Session = Session(records: seq<real>, outcomes: seq<Outcome>, quit: bool)

  /** The session after reading `lines` one by one from an empty ledger; lines after
      a `quit` are never read. */
  function Replay(lines: seq<string>, parse: string -> Option<real>, show: real -> string): Session
    decreases |lines|
  {
    if lines == [] then Session([], [], false)
    else Advance(Replay(lines[..|lines| - 1], parse, show), lines[|lines| - 1], parse, show)
  }

  /** Reads one more line into a session, unless it has quit. */
  function Advance(prev: Session, line: string, parse: string -> Option<real>, show: real -> string): Session
  {
    if prev.quit then prev
    else
      var (next, outcome) := Step(line, prev.records, parse, show);
      Session(next, prev.outcomes + [outcome], outcome == Quit)
  }

  /** Once `quit` has been read, the rest of the input has no effect. */
  lemma {:induction false} ReplayAfterQuit(lines: seq<string>, i: nat, parse: string -> Option<real>, show: real -> string)
    requires i <= |lines|
    requires Replay(lines[..i], parse, show).quit
    ensures Replay(lines, parse, show) == Replay(lines[..i], parse, show)
    decreases |lines| - i
  {
    if i < |lines| {
      var shorter := lines[..|lines| - 1];
      assert shorter[..i] == lines[..i];
      ReplayAfterQuit(shorter, i, parse, show);
    } else {
      assert lines[..i] == lines;
    }
  }

  /** The entries announced by "Adding entry", in order. */
  function AddedEntries(outcomes: seq<Outcome>): seq<real>
  {
    if outcomes == [] then [] else AddedEntries(outcomes[..|outcomes| - 1]) + EntryOf(outcomes[|outcomes| - 1])
  }

  /** The entry an outcome announces, if any. */
  function EntryOf(outcome: Outcome): seq<real>
  {
    if outcome.Added? then [outcome.entry] else []
  }

  /** The ledger at any point of a session is exactly the list of entries
      announced so far, in order. */
  lemma {:induction false} ReplayLedger(lines: seq<string>, parse: string -> Option<real>, show: real -> string)
    ensures Replay(lines, parse, show).records == AddedEntries(Replay(lines, parse, show).outcomes)
    decreases |lines|
  {
    if lines != [] {
      var prefix := lines[..|lines| - 1];
      ReplayLedger(prefix, parse, show);
      var prev := Replay(prefix, parse, show);
      if !prev.quit {
        var line := lines[|lines| - 1];
        StepLedger(line, prev.records, parse, show);
        var (next, outcome) := Step(line, prev.records, parse, show);
        var outs := prev.outcomes + [outcome];
        assert outs[..|outs| - 1] == prev.outcomes;
      }
    }
  }

  /** One outcome is recorded per line read; the session has stopped exactly when
      the last outcome is `Quit`, and otherwise every line was read. */
  lemma {:induction false} ReplayOutcomes(lines: seq<string>, parse: string -> Option<real>, show: real -> string)
    ensures var s := Replay(lines, parse, show);
      && |s.outcomes| <= |lines|
      && (s.quit <==> s.outcomes != [] && s.outcomes[|s.outcomes| - 1] == Quit)
      && (!s.quit ==> |s.outcomes| == |lines|)
    decreases |lines|
  {
    if lines != [] {
      ReplayOutcomes(lines[..|lines| - 1], parse, show);
    }
  }

  /** The `match` of the loop run against the ledger object: the handlers of
      `credit` and `debit` push onto it in place. */
  method Execute(book: Records, tokens: seq<string>, input: string,
                 parse: string -> Option<real>, show: real -> string) returns (outcome: Outcome)
    modifies book
    ensures (book.entries, outcome) == Dispatch(tokens, input, old(book.entries), parse, show)
  {
    var command: Option<string> := if |tokens| > 0 then Some(tokens[0]) else None;
    var amount := if |tokens| > 1 then parse(tokens[1]) else None;
    if command.None? {
      outcome := NoOp;
    } else if command.value == "quit" {
      outcome := Quit;
    } else if command.value == "help" {
      outcome := Help;
    } else if command.value == "list" {
      var text := FormatRecordsToString(book.entries, show);
      outcome := Listing(text);
    } else if command.value == "balance" {
      outcome := BalanceShown(Balance(book.entries));
    } else if command.value == "credit" {
      if amount.Some? {
        var entry := book.CreateCreditRecord(amount.value);
        outcome := Added(entry);
      } else {
        outcome := Invalid(input);
      }
    } else if command.value == "debit" {
      if amount.Some? {
        var entry := book.CreateDebitRecord(amount.value);
        outcome := Added(entry);
      } else {
        outcome := Invalid(input);
      }
    } else {
      outcome := Invalid(input);
    }
  }

  /** The loop of `main` over a finite input: normalise each line, dispatch on its
      first two tokens and update the ledger in place until `quit` or the end of
      the input. */
  method Run(lines: seq<string>, parse: string -> Option<real>, show: real -> string)
    returns (records: seq<real>, outcomes: seq<Outcome>, quit: bool)
    ensures Session(records, outcomes, quit) == Replay(lines, parse, show)
  {
    var book := new Records();
    outcomes, quit := [], false;
    var i := 0;
    while i < |lines| && !quit
      invariant 0 <= i <= |lines|
      invariant Session(book.entries, outcomes, quit) == Replay(lines[..i], parse, show)
    {
      var input := Normalize(lines[i]);
      var tokens := Tokens(input);
      ghost var before := book.entries;
      var outcome := Execute(book, tokens, input, parse, show);
      assert (book.entries, outcome) == Step(lines[i], before, parse, show);
      assert lines[..i + 1][..i] == lines[..i];
      outcomes := outcomes + [outcome];
      quit := outcome == Quit;
      i := i + 1;
    }
    if quit {
      ReplayAfterQuit(lines, i, parse, show);
    } else {
      assert lines[..i] == lines;
    }
    records := book.entries;
  }

  // ---------------------------------------------------------------------------
  // Example sessions

  /** Reading one more line advances the session by that line. */
  lemma ReplaySnoc(lines: seq<string>, line: string, parse: string -> Option<real>, show: real -> string)
    ensures Replay(lines + [line], parse, show) == Advance(Replay(lines, parse, show), line, parse, show)
  {
    assert (lines + [line])[..|lines|] == lines;
  }

  /** A `credit x` line, read before any `quit`, appends `x` to the ledger and
      reports it. */
  lemma AdvanceCredit(prev: Session, line: string, x: real, parse: string -> Option<real>, show: real -> string)
    requires !prev.quit
    requires IsCommand(Tokens(line), CreditCommand) && Amount(Tokens(line), parse) == Some(x)
    ensures Advance(prev, line, parse, show) == Session(prev.records + [x], prev.outcomes + [Added(x)], false)
  {
    StepEntry(line, prev.records, parse, show);
  }

  /** A `debit x` line, read before any `quit`, appends `-x` to the ledger and
      reports it. */
  lemma AdvanceDebit(prev: Session, line: string, x: real, parse: string -> Option<real>, show: real -> string)
    requires !prev.quit
    requires IsCommand(Tokens(line), DebitCommand) && Amount(Tokens(line), parse) == Some(x)
    ensures var outcome := Added(-x);
      Advance(prev, line, parse, show) == Session(prev.records + [outcome.entry], prev.outcomes + [outcome], false)
  {
    StepEntry(line, prev.records, parse, show);
    var (next, outcome) := Step(line, prev.records, parse, show);
    assert outcome == Added(-x) && next == prev.records + [outcome.entry];
  }

  /** A `balance` line, read before any `quit`, reports the balance. */
  lemma AdvanceBalance(prev: Session, line: string, parse: string -> Option<real>, show: real -> string)
    requires !prev.quit
    requires IsCommand(Tokens(line), BalanceCommand)
    ensures Advance(prev, line, parse, show)
      == Session(prev.records, prev.outcomes + [BalanceShown(Balance(prev.records))], false)
  {
    StepQuery(line, prev.records, parse, show);
  }

  /** A `list` line, read before any `quit`, reports the listing. */
  lemma AdvanceList(prev: Session, line: string, parse: string -> Option<real>, show: real -> string)
    requires !prev.quit
    requires IsCommand(Tokens(line), ListCommand)
    ensures Advance(prev, line, parse, show)
      == Session(prev.records, prev.outcomes + [Listing(Format(prev.records, show))], false)
  {
    StepQuery(line, prev.records, parse, show);
  }

  /** From any session still reading: a credit of `a` then a debit of `b` append
      `a` and `-b`, report them, and move the balance by `a - b`. */
  lemma CreditThenDebit(prev: Session, l1: string, l2: string, a: real, b: real,
                        parse: string -> Option<real>, show: real -> string)
    requires !prev.quit
    requires IsCommand(Tokens(l1), CreditCommand) && Amount(Tokens(l1), parse) == Some(a)
    requires IsCommand(Tokens(l2), DebitCommand) && Amount(Tokens(l2), parse) == Some(b)
    ensures var debit := Added(-b);
      Advance(Advance(prev, l1, parse, show), l2, parse, show)
        == Session(prev.records + [a] + [debit.entry], prev.outcomes + [Added(a)] + [debit], false)
    ensures Balance(Advance(Advance(prev, l1, parse, show), l2, parse, show).records)
      == Balance(prev.records) + a - b
  {
    var debit := Added(-b);
    AdvanceCredit(prev, l1, a, parse, show);
    AdvanceDebit(Advance(prev, l1, parse, show), l2, b, parse, show);
    BalanceAppend(prev.records, a);
    BalanceAppend(prev.records + [a], debit.entry);
  }

  /** A `balance` line read before any `quit` reports the sum of every entry
      announced so far. */
  lemma ReplayBalanceReported(lines: seq<string>, line: string, parse: string -> Option<real>, show: real -> string)
    requires !Replay(lines, parse, show).quit
    requires IsCommand(Tokens(line), BalanceCommand)
    ensures var outcomes := Replay(lines, parse, show).outcomes;
      Replay(lines + [line], parse, show).outcomes == outcomes + [BalanceShown(Balance(AddedEntries(outcomes)))]
  {
    ReplaySnoc(lines, line, parse, show);
    AdvanceBalance(Replay(lines, parse, show), line, parse, show);
    ReplayLedger(lines, parse, show);
  }

  /** `credit 100` then `debit 30`, from the start, leave the ledger `[100, -30]`,
      whose balance is 70. */
  lemma CreditDebitBalance(l1: string, l2: string, parse: string -> Option<real>, show: real -> string)
    requires l1 == "credit 100" && l2 == "debit 30"
    requires parse("100") == Some(100.0) && parse("30") == Some(30.0)
    ensures var s := Advance(Advance(Session([], [], false), l1, parse, show), l2, parse, show);
      s.records == [100.0, -30.0] && Balance(s.records) == 70.0
  {
    CreditHundred(l1, parse);
    DebitThirty(l2, parse);
    CreditThenDebit(Session([], [], false), l1, l2, 100.0, 30.0, parse, show);
  }

  /** The third line of that session: `balance`, read once the ledger is
      `[100, -30]`, reports 70. */
  lemma BalanceAfterCreditDebit(s: Session, l3: string, parse: string -> Option<real>, show: real -> string)
    requires !s.quit && s.records == [100.0, -30.0]
    requires l3 == "balance"
    ensures |Advance(s, l3, parse, show).outcomes| == |s.outcomes| + 1
    ensures Advance(s, l3, parse, show).outcomes[|s.outcomes|] == BalanceShown(70.0)
  {
    BalanceWord(l3);
    AdvanceBalance(s, l3, parse, show);
    BalanceAppend([100.0], -30.0);
    BalanceAppend([], 100.0);
    assert [100.0, -30.0] == [100.0] + [-30.0];
  }

  /** From any session still reading: a debit of `b` then `list` stores `-b` and
      prints the listing of the ledger that ends in it (`FormatDebit` gives its
      last line). */
  lemma DebitThenListing(prev: Session, l1: string, l2: string, b: real,
                         parse: string -> Option<real>, show: real -> string)
    requires !prev.quit
    requires IsCommand(Tokens(l1), DebitCommand) && Amount(Tokens(l1), parse) == Some(b)
    requires IsCommand(Tokens(l2), ListCommand)
    ensures var debit := Added(-b);
      var records := prev.records + [debit.entry];
      Advance(Advance(prev, l1, parse, show), l2, parse, show)
        == Session(records, prev.outcomes + [debit] + [Listing(Format(records, show))], false)
  {
    var debit := Added(-b);
    var s1 := Session(prev.records + [debit.entry], prev.outcomes + [debit], false);
    AdvanceDebit(prev, l1, b, parse, show);
    AdvanceList(s1, l2, parse, show);
  }

  /** `debit 50` then `list`, from the start, store -50 and print its listing, which
      is the single line `Debit\t50`. */
  lemma DebitThenList(l1: string, l2: string, parse: string -> Option<real>, show: real -> string)
    requires l1 == "debit 50" && l2 == "list"
    requires parse("50") == Some(50.0)
    ensures Advance(Advance(Session([], [], false), l1, parse, show), l2, parse, show).outcomes
      == [Added(-50.0), Listing(Format([-50.0], show))]
    ensures Format([-50.0], show) == "Debit\t" + show(50.0) + "\n"
  {
    DebitFifty(l1, parse);
    ListWord(l2);
    DebitThenListing(Session([], [], false), l1, l2, 50.0, parse, show);
    assert [] + [-50.0] == [-50.0];
    FormatDebit([], 50.0, show);
  }

  lemma CreditHundred(line: string, parse: string -> Option<real>)
    requires line == "credit 100" && parse("100") == Some(100.0)
    ensures IsCommand(Tokens(line), CreditCommand) && Amount(Tokens(line), parse) == Some(100.0)
  {
    EntryLine("credit", "100", line, parse);
  }

  lemma DebitThirty(line: string, parse: string -> Option<real>)
    requires line == "debit 30" && parse("30") == Some(30.0)
    ensures IsCommand(Tokens(line), DebitCommand) && Amount(Tokens(line), parse) == Some(30.0)
  {
    EntryLine("debit", "30", line, parse);
  }

  lemma DebitFifty(line: string, parse: string -> Option<real>)
    requires line == "debit 50" && parse("50") == Some(50.0)
    ensures IsCommand(Tokens(line), DebitCommand) && Amount(Tokens(line), parse) == Some(50.0)
  {
    EntryLine("debit", "50", line, parse);
  }

  lemma BalanceWord(line: string)
    requires line == "balance"
    ensures IsCommand(Tokens(line), BalanceCommand)
  {
    QueryLine(line);
  }

  lemma ListWord(line: string)
    requires line == "list"
    ensures IsCommand(Tokens(line), ListCommand)
  {
    QueryLine(line);
  }

  /** An unknown command takes the invalid-input path and echoes the line in lower case. */
  lemma UnknownCommand(records: seq<real>, parse: string -> Option<real>, show: real -> string)
    ensures Step("FOO", records, parse, show) == (records, Invalid("foo"))
  {
    WordLine("FOO");
    assert Lower("FOO") == "foo";
    StepInvalid("FOO", records, parse, show);
  }

  /** A `debit` without an amount is invalid and leaves the ledger alone. */
  lemma DebitWithoutAmount(records: seq<real>, parse: string -> Option<real>, show: real -> string)
    ensures Step("debit", records, parse, show) == (records, Invalid("debit"))
  {
    WordLine("debit");
    assert Lower("debit") == "debit";
    StepInvalid("debit", records, parse, show);
  }

  lemma WordLine(w: string)
    requires IsWord(w)
    ensures Tokens(w) == [w] && Trim(w) == w
  {
    WordTokens(w);
  }

  /** A line made of a command word, one space and an amount word. */
  lemma CommandLine(command: string, amount: string)
    requires IsWord(command) && IsWord(amount)
    ensures Tokens(command + " " + amount) == [command, amount]
  {
    WordTokens(command);
    WordTokens(amount);
    ExtraTokens(command, amount);
  }

  /** A line spelt as a lower-case command word, one space and an amount word
      carries that command and that amount. */
  lemma EntryLine(command: string, amount: string, line: string, parse: string -> Option<real>)
    requires IsWord(command) && IsWord(amount) && line == command + " " + amount
    requires Lower(command) == command && Lower(amount) == amount
    ensures IsCommand(Tokens(line), CommandOf(command))
    ensures Amount(Tokens(line), parse) == parse(amount)
  {
    CommandLine(command, amount);
  }

  /** A line that is a single lower-case word carries that command. */
  lemma QueryLine(line: string)
    requires IsWord(line) && Lower(line) == line
    ensures IsCommand(Tokens(line), CommandOf(line))
  {
    WordLine(line);
  }
}
