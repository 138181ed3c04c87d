/** The menu loop of startApp: each iteration reads one choice line, parses it
    as an integer and dispatches to the ledger. Input is the sequence of lines
    still to be read; the integer and decimal parsers are parameters. When the
    lines run out the model stops (the program's reader would fail there). */
module Menu {
  import opened Wrappers
  import opened Ledger
  import opened CostEntry

  /** What one step shows on the console, without its wording or layout. */
  datatype Display =
    | AmountRetry(reason: Verdict)
    | ExpenseAdded(record: Expense)
    | NoExpensesRecorded
    | ExpenseLines(records: seq<Expense>)
    | NoExpensesAvailable
    | TotalLine(amount: real)
    | HighestLine(record: Expense)
    | Farewell
    | ChoiceNotANumber
    | InvalidOption

  /** The ledger after a step or run, the lines left unread, what was shown,
      and whether the loop has reached its terminal state. */
  datatype Outcome = Outcome(ledger: Ledger, rest: seq<string>, shown: seq<Display>, exited: bool)

  /** The numbered actions of the menu. */
  const AddChoice := 1
  const ListChoice := 2
  const TotalChoice := 3
  const MaxChoice := 4
  const ExitChoice := 5

  /** `s` is what is left of `t` after reading some lines from its front. */
  predicate IsSuffix(s: seq<string>, t: seq<string>)
  {
    |s| <= |t| && s == t[|t| - |s|..]
  }

  lemma SuffixTransitive(s: seq<string>, m: seq<string>, t: seq<string>)
    requires IsSuffix(s, m) && IsSuffix(m, t)
    ensures IsSuffix(s, t)
  {
  }

  /** The records confirmed by the messages shown, in the order shown. */
  function Added(shown: seq<Display>): seq<Expense>
  {
    if |shown| == 0 then []
    else
      var d := shown[|shown| - 1];
      Added(shown[..|shown| - 1]) + (if d.ExpenseAdded? then [d.record] else [])
  }

  lemma {:induction false} AddedAppend(a: seq<Display>, b: seq<Display>)
    ensures Added(a + b) == Added(a) + Added(b)
    decreases |b|
  {
    if |b| == 0 {
      assert a + b == a;
    } else {
      var n := |b| - 1;
      assert (a + b)[..|a + b| - 1] == a + b[..n];
      AddedAppend(a, b[..n]);
    }
  }

  /** Retry messages of the amount prompt confirm no record. */
  lemma {:induction false} AddedOfRetries(s: seq<Display>)
    requires forall i :: 0 <= i < |s| ==> s[i].AmountRetry?
    ensures Added(s) == []
  {
    if |s| > 0 {
      AddedOfRetries(s[..|s| - 1]);
    }
  }

  /** Option 1: a detail line, the amount prompt, a date line, then one append.
      None when the lines run out before the record is complete. */
  function RecordExpense(l: Ledger, lines: seq<string>, parseDouble: string -> Parsed): (r: Option<Outcome>)
    ensures r.None? <==> |lines| == 0 || ReadCost(lines[1..], parseDouble).None?
                         || |lines| <= 1 + ReadCost(lines[1..], parseDouble).value.consumed
    ensures r.Some? ==>
      var c := ReadCost(lines[1..], parseDouble).value;
      var e := Expense(lines[0], c.amount, lines[1 + c.consumed]);
      && r.value.ledger == Add(l, e)
      && e.cost >= 0.0
      && r.value.rest == lines[2 + c.consumed..]
      && |r.value.shown| == |c.retries| + 1
      && (forall j :: 0 <= j < |c.retries| ==> r.value.shown[j] == AmountRetry(c.retries[j]))
      && r.value.shown[|c.retries|] == ExpenseAdded(e)
      && !r.value.exited
    ensures r.Some? ==> r.value.ledger == l + Added(r.value.shown)
  {
    if |lines| == 0 then None
    else
      var detail := lines[0];
      match ReadCost(lines[1..], parseDouble)
      case None => None
      case Some(c) =>
        var after := lines[1 + c.consumed..];
        if |after| == 0 then None
        else
          var e := Expense(detail, c.amount, after[0]);
          var retries := seq(|c.retries|, j requires 0 <= j < |c.retries| => AmountRetry(c.retries[j]));
          AddedOfRetries(retries);
          AddedAppend(retries, [ExpenseAdded(e)]);
          assert Added([ExpenseAdded(e)]) == Added([]) + [e];
          Some(Outcome(Add(l, e), after[1..], retries + [ExpenseAdded(e)], false))
  }

  /** Option 2: the empty warning, or every record in insertion order. */
  function ShowExpenses(l: Ledger): (d: Display)
    ensures d == NoExpensesRecorded <==> |l| == 0
    ensures d != NoExpensesRecorded ==> d == ExpenseLines(l)
  {
    match Listing(l)
    case None => NoExpensesRecorded
    case Some(rs) => ExpenseLines(rs)
  }

  /** Option 3: the empty warning, or the sum of every cost. */
  function ShowTotal(l: Ledger): (d: Display)
    ensures d == NoExpensesAvailable <==> |l| == 0
    ensures d != NoExpensesAvailable ==> d == TotalLine(SumFromFront(l))
  {
    match Total(l)
    case None => NoExpensesAvailable
    case Some(t) => TotalLine(t)
  }

  /** Option 4: the empty warning, or the earliest record of greatest cost. */
  function ShowMax(l: Ledger): (d: Display)
    ensures d == NoExpensesAvailable <==> |l| == 0
    ensures d != NoExpensesAvailable ==> d.HighestLine? && IsFirstMax(l, MaxIndex(l)) && d.record == l[MaxIndex(l)]
  {
    match Max(l)
    case None => NoExpensesAvailable
    case Some(e) => HighestLine(e)
  }

  /** One menu iteration. Only option 1 changes the ledger, and only by one
      append of a non-negative amount; only option 5 reaches the terminal state;
      a line that is not an integer, or an integer outside 1 to 5, is reported
      and changes nothing. None when the lines run out. */
  function Step(l: Ledger, input: seq<string>, parseInt: string -> Option<int>, parseDouble: string -> Parsed): (r: Option<Outcome>)
    ensures |input| == 0 ==> r.None?
    ensures r.Some? ==> |r.value.rest| < |input| && IsSuffix(r.value.rest, input)
    ensures r.Some? ==> (r.value.exited <==> parseInt(input[0]) == Some(ExitChoice))
    ensures r.Some? && r.value.ledger != l ==> parseInt(input[0]) == Some(AddChoice)
    ensures r.Some? ==> && |l| <= |r.value.ledger| <= |l| + 1
                        && r.value.ledger[..|l|] == l
                        && (Valid(l) ==> Valid(r.value.ledger))
    ensures |input| > 0 && parseInt(input[0]).None? ==>
              r == Some(Outcome(l, input[1..], [ChoiceNotANumber], false))
    ensures |input| > 0 && parseInt(input[0]).Some? && !(1 <= parseInt(input[0]).value <= 5) ==>
              r == Some(Outcome(l, input[1..], [InvalidOption], false))
    ensures |input| > 0 && parseInt(input[0]) == Some(AddChoice) ==>
              r == RecordExpense(l, input[1..], parseDouble)
    ensures |input| > 0 && parseInt(input[0]) == Some(ListChoice) ==>
              r == Some(Outcome(l, input[1..], [ShowExpenses(l)], false))
    ensures |input| > 0 && parseInt(input[0]) == Some(TotalChoice) ==>
              r == Some(Outcome(l, input[1..], [ShowTotal(l)], false))
    ensures |input| > 0 && parseInt(input[0]) == Some(MaxChoice) ==>
              r == Some(Outcome(l, input[1..], [ShowMax(l)], false))
    ensures |input| > 0 && parseInt(input[0]) == Some(ExitChoice) ==>
              r == Some(Outcome(l, input[1..], [Farewell], true))
    ensures r.Some? ==> r.value.ledger == l + Added(r.value.shown)
  {
    if |input| == 0 then None
    else
      var rest := input[1..];
      match parseInt(input[0])
      case None => Some(Outcome(l, rest, [ChoiceNotANumber], false))
      case Some(choice) =>
        if choice == AddChoice then RecordExpense(l, rest, parseDouble)
        else if choice == ListChoice then Some(Outcome(l, rest, [ShowExpenses(l)], false))
        else if choice == TotalChoice then Some(Outcome(l, rest, [ShowTotal(l)], false))
        else if choice == MaxChoice then Some(Outcome(l, rest, [ShowMax(l)], false))
        else if choice == ExitChoice then Some(Outcome(l, rest, [Farewell], true))
        else Some(Outcome(l, rest, [InvalidOption], false))
  }

  /** The whole loop from a given ledger. It stops after option 5, whose farewell
      is the last thing shown, or when the next step cannot complete for lack of
      input. It reads a prefix of the input, and the final ledger is the starting
      one followed by exactly the records whose addition was confirmed, in order;
      so a ledger of non-negative amounts stays one. */
  function Run(l: Ledger, input: seq<string>, parseInt: string -> Option<int>, parseDouble: string -> Parsed): (r: Outcome)
    ensures r.ledger == l + Added(r.shown)
    ensures Valid(l) ==> Valid(r.ledger)
    ensures IsSuffix(r.rest, input)
    ensures r.exited ==> |r.shown| > 0 && r.shown[|r.shown| - 1] == Farewell
    ensures !r.exited ==> Step(r.ledger, r.rest, parseInt, parseDouble).None?
    ensures Step(l, input, parseInt, parseDouble).None? ==> r == Outcome(l, input, [], false)
    ensures Step(l, input, parseInt, parseDouble).Some? ==>
              var o := Step(l, input, parseInt, parseDouble).value;
              if o.exited then r == o
              else && o.shown <= r.shown
                   && IsSuffix(r.rest, o.rest)
                   && |o.ledger| <= |r.ledger| && r.ledger[..|o.ledger|] == o.ledger
    decreases |input|
  {
    match Step(l, input, parseInt, parseDouble)
    case None => Outcome(l, input, [], false)
    case Some(o) =>
      if o.exited then o
      else
        var next := Run(o.ledger, o.rest, parseInt, parseDouble);
        AddedAppend(o.shown, next.shown);
        SuffixTransitive(next.rest, o.rest, input);
        Outcome(next.ledger, next.rest, o.shown + next.shown, next.exited)
  }

  /** `o` preceded by the messages `shown` of earlier steps. */
  function Then(shown: seq<Display>, o: Outcome): Outcome
  {
    Outcome(o.ledger, o.rest, shown + o.shown, o.exited)
  }

  lemma ThenThen(a: seq<Display>, b: seq<Display>, o: Outcome)
    ensures Then(a, Then(b, o)) == Then(a + b, o)
  {
  }

  /** The loop takes one step and, unless that step exits, carries on from it. */
  lemma RunUnfold(l: Ledger, input: seq<string>, parseInt: string -> Option<int>, parseDouble: string -> Parsed, o: Outcome)
    requires Step(l, input, parseInt, parseDouble) == Some(o) && !o.exited
    ensures Run(l, input, parseInt, parseDouble) == Then(o.shown, Run(o.ledger, o.rest, parseInt, parseDouble))
  {
  }

  /** The loop ends where the step cannot complete, or with the step that exits. */
  lemma RunStops(l: Ledger, input: seq<string>, parseInt: string -> Option<int>, parseDouble: string -> Parsed)
    requires Step(l, input, parseInt, parseDouble).None? || Step(l, input, parseInt, parseDouble).value.exited
    ensures Run(l, input, parseInt, parseDouble) ==
              if Step(l, input, parseInt, parseDouble).None? then Outcome(l, input, [], false)
              else Step(l, input, parseInt, parseDouble).value
  {
  }

  /** The `while (true)` loop of startApp: one step per iteration until option 5
      returns or the input runs out. */
  method StartApp(l: Ledger, input: seq<string>, parseInt: string -> Option<int>, parseDouble: string -> Parsed) returns (o: Outcome)
    ensures o.ledger == l + Added(o.shown)
    ensures o.exited ==> |o.shown| > 0 && o.shown[|o.shown| - 1] == Farewell
    ensures o == Run(l, input, parseInt, parseDouble)
  {
    var ledger := l;
    var rest := input;
    var shown: seq<Display> := [];
    while true
      invariant Run(l, input, parseInt, parseDouble) == Then(shown, Run(ledger, rest, parseInt, parseDouble))
      decreases |rest|
    {
      var step := Step(ledger, rest, parseInt, parseDouble);
      if step.None? {
        RunStops(ledger, rest, parseInt, parseDouble);
        assert shown + [] == shown;
        return Outcome(ledger, rest, shown, false);
      }
      var s := step.value;
      if s.exited {
        RunStops(ledger, rest, parseInt, parseDouble);
        return Outcome(s.ledger, s.rest, shown + s.shown, true);
      }
      RunUnfold(ledger, rest, parseInt, parseDouble, s);
      ThenThen(shown, s.shown, Run(s.ledger, s.rest, parseInt, parseDouble));
      ledger, rest, shown := s.ledger, s.rest, shown + s.shown;
    }
  }

  /** The loop as the program starts it: a fresh ledger, so the ledger ends up
      holding exactly the confirmed records and every stored amount is at least
      zero, whatever the input. */
  lemma StartedRunIsValid(input: seq<string>, parseInt: string -> Option<int>, parseDouble: string -> Parsed)
    ensures var r := Run(Fresh, input, parseInt, parseDouble);
            r.ledger == Added(r.shown) && Valid(r.ledger)
  {
    var r := Run(Fresh, input, parseInt, parseDouble);
    assert Fresh + Added(r.shown) == Added(r.shown);
  }

  /** An unreadable choice is reported, nothing changes, and the menu is shown
      again: here the next choice exits. */
  lemma UnreadableChoiceThenExit(parseInt: string -> Option<int>, parseDouble: string -> Parsed)
    requires parseInt("abc") == None && parseInt("5") == Some(ExitChoice)
    ensures Run(Fresh, ["abc", "5"], parseInt, parseDouble) == Outcome(Fresh, [], [ChoiceNotANumber, Farewell], true)
  {
  }

  /** Asking for the total of a fresh ledger shows the empty warning and no amount. */
  lemma TotalOfFreshLedger(parseInt: string -> Option<int>, parseDouble: string -> Parsed)
    requires parseInt("3") == Some(TotalChoice)
    ensures Step(Fresh, ["3"], parseInt, parseDouble) == Some(Outcome(Fresh, [], [NoExpensesAvailable], false))
  {
  }
}
