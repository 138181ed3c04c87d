/** The amount prompt of recordExpense: lines are read one after another until
    one parses as a number the program accepts. The library number parser is a
    parameter; what it returns for a line is a `Parsed` value. */
module CostEntry {
  import opened Wrappers

  /** What the decimal parser yields for one line: a parse failure, a finite
      number, or one of the non-finite values a double can hold. */
  datatype Parsed = Malformed | Number(value: real) | NaN | PosInfinity | NegInfinity

  /** What the prompt does with one parsed line: accept it, or re-prompt with
      the negative-amount warning or the invalid-number message. */
  datatype Verdict = Accept | RejectNegative | RejectMalformed

  /** The accepted amount, how many lines the prompt consumed (the accepted one
      last), and the verdict of each rejected line in order. */
  datatype AmountRead<T> = AmountRead(amount: T, consumed: nat, retries: seq<Verdict>)

  /** The test `cost < 0` under IEEE 754 ordering: every comparison with NaN is false. */
  predicate IeeeBelowZero(p: Parsed)
    requires !p.Malformed?
  {
    match p
    case Number(v) => v < 0.0
    case NegInfinity => true
    case NaN => false
    case PosInfinity => false
  }

  /** The verdict as written: a parse failure is caught, a value below zero
      re-prompts, anything else is accepted. Because every comparison with NaN
      is false, NaN is accepted, and so is positive infinity. */
  function JudgeAsWritten(p: Parsed): (v: Verdict)
    ensures v == Accept <==> (p.Number? && p.value >= 0.0) || p.NaN? || p.PosInfinity?
    ensures v == RejectNegative <==> (p.Number? && p.value < 0.0) || p.NegInfinity?
    ensures v == RejectMalformed <==> p.Malformed?
  {
    if p.Malformed? then RejectMalformed
    else if IeeeBelowZero(p) then RejectNegative
    else Accept
  }

  /** The evidently intended verdict: only a finite amount of at least zero is
      accepted. Negative infinity still gets the negative-amount warning; NaN and
      positive infinity are treated as invalid numbers. */
  function Judge(p: Parsed): (v: Verdict)
    ensures v == Accept <==> p.Number? && p.value >= 0.0
    ensures v == RejectNegative <==> (p.Number? && p.value < 0.0) || p.NegInfinity?
    ensures v == RejectMalformed <==> p.Malformed? || p.NaN? || p.PosInfinity?
  {
    match p
    case Number(x) => if x < 0.0 then RejectNegative else Accept
    case NegInfinity => RejectNegative
    case _ => RejectMalformed
  }

  /** The two verdicts differ only on NaN and positive infinity, which the
      program as written accepts and the corrected verdict rejects. */
  lemma JudgesDifferOnlyOnNaNAndInfinity(p: Parsed)
    ensures Judge(p) != JudgeAsWritten(p) <==> p.NaN? || p.PosInfinity?
    ensures Judge(p) != JudgeAsWritten(p) ==> JudgeAsWritten(p) == Accept && Judge(p) == RejectMalformed
  {
  }

  /** Line `k` is the first line whose parse `judge` accepts. */
  predicate FirstAccepted(lines: seq<string>, parse: string -> Parsed, judge: Parsed -> Verdict, k: int)
  {
    && 0 <= k < |lines|
    && judge(parse(lines[k])) == Accept
    && forall j :: 0 <= j < k ==> judge(parse(lines[j])) != Accept
  }

  /** The re-prompt loop under a given verdict. It answers None exactly when the
      input runs out before any line is accepted; otherwise it stops at the first
      accepted line, after one retry message per earlier line. */
  function ReadAmount(lines: seq<string>, parse: string -> Parsed, judge: Parsed -> Verdict): (r: Option<AmountRead<Parsed>>)
    ensures r.None? <==> forall k :: 0 <= k < |lines| ==> judge(parse(lines[k])) != Accept
    ensures r.Some? ==> && 1 <= r.value.consumed <= |lines|
                        && FirstAccepted(lines, parse, judge, r.value.consumed - 1)
                        && r.value.amount == parse(lines[r.value.consumed - 1])
                        && |r.value.retries| == r.value.consumed - 1
                        && forall j :: 0 <= j < |r.value.retries| ==> r.value.retries[j] == judge(parse(lines[j]))
    decreases |lines|
  {
    if |lines| == 0 then None
    else
      var v := judge(parse(lines[0]));
      if v == Accept then Some(AmountRead(parse(lines[0]), 1, []))
      else
        match ReadAmount(lines[1..], parse, judge)
        case None => None
        case Some(a) => Some(AmountRead(a.amount, a.consumed + 1, [v] + a.retries))
  }

  /** The amount prompt as the model uses it: the first finite, non-negative
      number among the lines, so every amount it returns is at least zero. */
  function ReadCost(lines: seq<string>, parse: string -> Parsed): (r: Option<AmountRead<real>>)
    ensures r.None? <==> forall k :: 0 <= k < |lines| ==> !(parse(lines[k]).Number? && parse(lines[k]).value >= 0.0)
    ensures r.Some? ==> && r.value.amount >= 0.0
                        && 1 <= r.value.consumed <= |lines|
                        && FirstAccepted(lines, parse, Judge, r.value.consumed - 1)
                        && parse(lines[r.value.consumed - 1]) == Number(r.value.amount)
                        && |r.value.retries| == r.value.consumed - 1
                        && forall j :: 0 <= j < |r.value.retries| ==> r.value.retries[j] == Judge(parse(lines[j]))
  {
    match ReadAmount(lines, parse, Judge)
    case None => None
    case Some(a) => Some(AmountRead(a.amount.value, a.consumed, a.retries))
  }

  /** The `while (true)` loop of the amount prompt, with the corrected verdict. */
  method PromptCost(lines: seq<string>, parse: string -> Parsed) returns (r: Option<AmountRead<real>>)
    ensures r == ReadCost(lines, parse)
  {
    var i := 0;
    var retries: seq<Verdict> := [];
    while i < |lines|
      invariant 0 <= i <= |lines|
      invariant |retries| == i
      invariant forall j :: 0 <= j < i ==> Judge(parse(lines[j])) != Accept
      invariant forall j :: 0 <= j < i ==> retries[j] == Judge(parse(lines[j]))
    {
      var p := parse(lines[i]);
      var v := Judge(p);
      if v == Accept {
        r := Some(AmountRead(p.value, i + 1, retries));
        var expected := ReadCost(lines, parse);
        assert expected.Some?;
        assert expected.value.consumed == i + 1;
        assert expected.value.retries == retries;
        return;
      }
      retries := retries + [v];
      i := i + 1;
    }
    r := None;
  }

  /** The lines "NaN" and "Infinity" parse to values the comparison at the
      amount prompt lets through: the program as written stores an amount that
      is not a finite non-negative number. The corrected prompt rejects both. */
  lemma NonFiniteAcceptedAsWritten(parse: string -> Parsed)
    requires parse("NaN") == NaN && parse("Infinity") == PosInfinity
    ensures ReadAmount(["NaN"], parse, JudgeAsWritten) == Some(AmountRead(NaN, 1, []))
    ensures ReadAmount(["Infinity"], parse, JudgeAsWritten) == Some(AmountRead(PosInfinity, 1, []))
    ensures ReadCost(["NaN"], parse) == None
    ensures ReadCost(["Infinity"], parse) == None
  {
  }
}
