/** The ledger: an ordered list of signed amounts, the balance fold over it and
    the listing that labels each amount as a debit or a credit. Amounts are
    reals; the magnitude-to-text conversion of `f32::to_string` is the
    parameter `show`. */
module Ledger {

  /** The `Vec<f32>` the REPL owns, which `add_record` pushes onto in place. */
  class Records {
    var entries: seq<real>

    constructor ()
      ensures entries == []
    {
      entries := [];
    }

    /** `add_record`: appends `amount` and returns the value it announces. */
    method AddRecord(amount: real) returns (announced: real)
      modifies this
      ensures |entries| == |old(entries)| + 1
      ensures entries[..|old(entries)|] == old(entries)
      ensures entries[|old(entries)|] == amount
      ensures announced == amount
    {
      announced := amount;
      entries := entries + [amount];
    }

    /** `create_debit_record`: stores the negation of `amount`, whatever its sign. */
    method CreateDebitRecord(amount: real) returns (announced: real)
      modifies this
      ensures entries == old(entries) + [-amount]
      ensures announced == -amount
      ensures Balance(entries) == Balance(old(entries)) - amount
    {
      announced := AddRecord(-amount);
      BalanceAppend(old(entries), -amount);
    }

    /** `create_credit_record`: stores `amount` as given, whatever its sign. */
    method CreateCreditRecord(amount: real) returns (announced: real)
      modifies this
      ensures entries == old(entries) + [amount]
      ensures announced == amount
      ensures Balance(entries) == Balance(old(entries)) + amount
    {
      announced := AddRecord(amount);
      BalanceAppend(old(entries), amount);
    }
  }

  // ---------------------------------------------------------------------------
  // Balance

  /** `get_balance`: `iter().sum()`, a fold from zero taking the entries left to right. */
  function Balance(records: seq<real>): real
  {
    if records == [] then 0.0 else Balance(records[..|records| - 1]) + records[|records| - 1]
  }

  /** An independent reference: the same total summed from the right. */
  function SumFromRight(records: seq<real>): real
  {
    if records == [] then 0.0 else records[0] + SumFromRight(records[1..])
  }

  lemma BalanceEmpty()
    ensures Balance([]) == 0.0
  {
  }

  /** Appending an entry moves the balance by exactly that entry. */
  lemma BalanceAppend(records: seq<real>, amount: real)
    ensures Balance(records + [amount]) == Balance(records) + amount
  {
    assert (records + [amount])[..|records|] == records;
  }

  lemma {:induction false} BalanceConcat(a: seq<real>, b: seq<real>)
    ensures Balance(a + b) == Balance(a) + Balance(b)
    decreases |b|
  {
    if b == [] {
      assert a + b == a;
    } else {
      var c := b[..|b| - 1];
      var x := b[|b| - 1];
      assert b == c + [x];
      assert a + b == (a + c) + [x];
      BalanceAppend(a + c, x);
      BalanceAppend(c, x);
      BalanceConcat(a, c);
    }
  }

  /** The order of summation does not change the total (over the reals). */
  lemma {:induction false} BalanceIsSum(records: seq<real>)
    ensures Balance(records) == SumFromRight(records)
    decreases |records|
  {
    if records != [] {
      var rest := records[1..];
      assert records == [records[0]] + rest;
      BalanceConcat([records[0]], rest);
      assert Balance([records[0]]) == records[0] by {
        assert [records[0]][..0] == [];
      }
      BalanceIsSum(rest);
    }
  }

  // ---------------------------------------------------------------------------
  // Listing

  /** `entry.abs()`. */
  function Abs(x: real): (m: real)
    ensures m >= 0.0
    ensures x < 0.0 ==> m == -x
    ensures x >= 0.0 ==> m == x
  {
    if x < 0.0 then -x else x
  }

  /** The label of a listing line: the sign of the entry decides it. */
  function Label(x: real): (t: string)
    ensures x < 0.0 <==> t == "Debit\t"
    ensures x >= 0.0 <==> t == "Credit\t"
  {
    if x < 0.0 then "Debit\t" else "Credit\t"
  }

  /** One listing line without its newline: the label, then the magnitude as text. */
  function LineText(x: real, show: real -> string): string
  {
    Label(x) + show(Abs(x))
  }

  /** What `format_records_to_string` returns: one newline-terminated line per entry. */
  function Format(records: seq<real>, show: real -> string): string
  {
    if records == [] then "" else LineText(records[0], show) + "\n" + Format(records[1..], show)
  }

  /** `format_records_to_string`: builds the listing in a buffer, one entry at a time. */
  method FormatRecordsToString(records: seq<real>, show: real -> string) returns (output: string)
    ensures output == Format(records, show)
  {
    output := "";
    for i := 0 to |records|
      invariant output == Format(records[..i], show)
    {
      var entry := records[i];
      var t := if entry < 0.0 then "Debit\t" else "Credit\t";
      var amount := show(Abs(entry));
      output := output + (t + amount);
      output := output + "\n";
      FormatAppend(records[..i], entry, show);
      assert records[..i + 1] == records[..i] + [entry];
    }
    assert records[..|records|] == records;
  }

  lemma {:induction false} FormatAppend(records: seq<real>, x: real, show: real -> string)
    ensures Format(records + [x], show) == Format(records, show) + LineText(x, show) + "\n"
    decreases |records|
  {
    if records == [] {
      assert Format([x], show) == LineText(x, show) + "\n" + Format([], show);
    } else {
      assert (records + [x])[1..] == records[1..] + [x];
      FormatAppend(records[1..], x, show);
    }
  }

  /** Recording a debit of a positive `b` adds the line `Debit\t` and `b`'s text
      to the end of the listing. */
  lemma FormatDebit(records: seq<real>, b: real, show: real -> string)
    requires b > 0.0
    ensures Format(records + [-b], show) == Format(records, show) + "Debit\t" + show(b) + "\n"
  {
    FormatAppend(records, -b, show);
    assert LineText(-b, show) == "Debit\t" + show(b);
  }

  lemma FormatEmpty(show: real -> string)
    ensures Format([], show) == ""
  {
  }

  /** `f32::to_string` never produces a newline. */
  ghost predicate SingleLine(show: real -> string) {
    forall x :: '\n' !in show(x)
  }

  /** The index of the first newline of `t`, or `|t|` if it has none. */
  function FirstNewline(t: string): (k: nat)
    ensures k <= |t|
    ensures forall i :: 0 <= i < k ==> t[i] != '\n'
    ensures k < |t| ==> t[k] == '\n'
  {
    if t == [] || t[0] == '\n' then 0 else 1 + FirstNewline(t[1..])
  }

  /** Splits text into its lines, reading each newline as the end of a line. */
  function Lines(t: string): seq<string>
    decreases |t|
  {
    if t == [] then []
    else
      var k := FirstNewline(t);
      [t[..k]] + (if k < |t| then Lines(t[k + 1..]) else [])
  }

  lemma LinesCons(u: string, rest: string)
    requires '\n' !in u
    ensures Lines(u + "\n" + rest) == [u] + Lines(rest)
  {
    var t := u + "\n" + rest;
    assert t[|u|] == '\n';
    var k := FirstNewline(t);
    assert k == |u|;
    assert t[..k] == u;
    assert t[k + 1..] == rest;
  }

  /** The lines of the listing, without their newlines, one per entry. */
  function LineTexts(records: seq<real>, show: real -> string): seq<string>
  {
    if records == [] then [] else [LineText(records[0], show)] + LineTexts(records[1..], show)
  }

  lemma {:induction false} LineTextsIndex(records: seq<real>, show: real -> string)
    ensures |LineTexts(records, show)| == |records|
    ensures forall i :: 0 <= i < |records| ==> LineTexts(records, show)[i] == LineText(records[i], show)
    decreases |records|
  {
    if records != [] {
      LineTextsIndex(records[1..], show);
      forall i | 0 <= i < |records|
        ensures LineTexts(records, show)[i] == LineText(records[i], show)
      {
        if i > 0 {
          assert LineTexts(records, show)[i] == LineTexts(records[1..], show)[i - 1];
        }
      }
    }
  }

  /** Reading the listing back line by line gives one line per entry, in order. */
  lemma {:induction false} FormatLines(records: seq<real>, show: real -> string)
    requires SingleLine(show)
    ensures Lines(Format(records, show)) == LineTexts(records, show)
    decreases |records|
  {
    if records != [] {
      var u := LineText(records[0], show);
      assert '\n' !in show(Abs(records[0]));
      assert '\n' !in u;
      LinesCons(u, Format(records[1..], show));
      FormatLines(records[1..], show);
    }
  }

  /** Line `i` of the listing is `Debit\t` and the magnitude when entry `i` is negative,
      `Credit\t` and the entry itself otherwise. */
  lemma ListingLine(records: seq<real>, show: real -> string, i: nat)
    requires SingleLine(show)
    requires i < |records|
    ensures |Lines(Format(records, show))| == |records|
    ensures records[i] < 0.0 ==> Lines(Format(records, show))[i] == "Debit\t" + show(-records[i])
    ensures records[i] >= 0.0 ==> Lines(Format(records, show))[i] == "Credit\t" + show(records[i])
  {
    FormatLines(records, show);
    LineTextsIndex(records, show);
  }

  /** The label is enough to recover the sign: a listing line starts with `D`
      exactly when its entry is negative. */
  lemma ListingSign(records: seq<real>, show: real -> string, i: nat)
    requires SingleLine(show)
    requires i < |records|
    ensures |Lines(Format(records, show))| == |records|
    ensures Lines(Format(records, show))[i] != []
    ensures Lines(Format(records, show))[i][0] == 'D' <==> records[i] < 0.0
  {
    FormatLines(records, show);
    LineTextsIndex(records, show);
  }

  function CountChar(t: string, c: char): nat
  {
    if t == [] then 0 else (if t[0] == c then 1 else 0) + CountChar(t[1..], c)
  }

  lemma {:induction false} CountCharConcat(a: string, b: string, c: char)
    ensures CountChar(a + b, c) == CountChar(a, c) + CountChar(b, c)
    decreases |a|
  {
    if a == [] {
      assert a + b == b;
    } else {
      assert (a + b)[1..] == a[1..] + b;
      CountCharConcat(a[1..], b, c);
    }
  }

  lemma {:induction false} CountCharAbsent(t: string, c: char)
    requires c !in t
    ensures CountChar(t, c) == 0
    decreases |t|
  {
    if t != [] {
      CountCharAbsent(t[1..], c);
    }
  }

  /** The listing holds exactly one newline per entry, and ends in one unless empty. */
  lemma {:induction false} FormatNewlines(records: seq<real>, show: real -> string)
    requires SingleLine(show)
    ensures CountChar(Format(records, show), '\n') == |records|
    ensures records != [] ==> Format(records, show)[|Format(records, show)| - 1] == '\n'
    decreases |records|
  {
    if records != [] {
      var u := LineText(records[0], show);
      var rest := Format(records[1..], show);
      assert '\n' !in show(Abs(records[0]));
      assert '\n' !in u;
      CountCharAbsent(u, '\n');
      CountCharConcat(u + "\n", rest, '\n');
      CountCharConcat(u, "\n", '\n');
      FormatNewlines(records[1..], show);
    }
  }
}
