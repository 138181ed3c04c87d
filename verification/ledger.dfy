/** The in-memory expense ledger: an append-only sequence of records with
    the add, list, total and maximum queries of ExpenseApp. */
module Ledger {
  import opened Wrappers

  /** One expense entry. `detail` and `date` are unvalidated free text; `cost`
      is an exact amount (the program stores it as a double). */
  datatype Expense = Expense(detail: string, cost: real, date: string)

  /** The ledger in insertion order; duplicates are allowed. */
  type Ledger = seq<Expense>

  /** The ledger the program starts with. */
  const Fresh: Ledger := []

  /** Every stored amount is non-negative: the invariant cost entry maintains. */
  predicate Valid(l: Ledger)
  {
    forall i :: 0 <= i < |l| ==> l[i].cost >= 0.0
  }

  /** Appends one record at the end, leaving the earlier records in place. */
  function Add(l: Ledger, e: Expense): (r: Ledger)
    ensures |r| == |l| + 1
    ensures r[|l|] == e
    ensures r[..|l|] == l
    ensures Valid(r) <==> Valid(l) && e.cost >= 0.0
  {
    l + [e]
  }

  /** The ledger built by a run of `add` calls, one per entry, from a fresh start. */
  function Replay(entries: seq<Expense>): Ledger
  {
    if |entries| == 0 then Fresh else Add(Replay(entries[..|entries| - 1]), entries[|entries| - 1])
  }

  /** A run of adds stores exactly the added records, in the order they were added. */
  lemma {:induction false} ReplayKeepsOrder(entries: seq<Expense>)
    ensures Replay(entries) == entries
  {
    if |entries| > 0 {
      var n := |entries| - 1;
      ReplayKeepsOrder(entries[..n]);
      assert entries[..n] + [entries[n]] == entries;
    }
  }

  /*
   * Sum of the costs
   */

  /** Running sum in the order the program accumulates it: left to right. */
  function Sum(l: Ledger): real
  {
    if |l| == 0 then 0.0 else Sum(l[..|l| - 1]) + l[|l| - 1].cost
  }

  /** Reference definition of the sum, computed from the front. */
  function SumFromFront(l: Ledger): real
  {
    if |l| == 0 then 0.0 else l[0].cost + SumFromFront(l[1..])
  }

  lemma {:induction false} SumFromFrontAppend(a: Ledger, b: Ledger)
    ensures SumFromFront(a + b) == SumFromFront(a) + SumFromFront(b)
  {
    if |a| > 0 {
      assert (a + b)[1..] == a[1..] + b;
      SumFromFrontAppend(a[1..], b);
    } else {
      assert a + b == b;
    }
  }

  /** The left-to-right accumulation equals the reference sum. */
  lemma {:induction false} SumMatchesFromFront(l: Ledger)
    ensures Sum(l) == SumFromFront(l)
  {
    if |l| > 0 {
      var n := |l| - 1;
      SumMatchesFromFront(l[..n]);
      SumFromFrontAppend(l[..n], [l[n]]);
      assert l[..n] + [l[n]] == l;
    }
  }

  /** A ledger of non-negative amounts has a non-negative sum. */
  lemma {:induction false} SumNonNegative(l: Ledger)
    ensures Valid(l) ==> Sum(l) >= 0.0
  {
    if |l| > 0 {
      SumNonNegative(l[..|l| - 1]);
    }
  }

  /** Adding a record adds its cost to the total, whether or not the ledger was empty. */
  lemma TotalAfterAdd(l: Ledger, e: Expense)
    ensures Total(Add(l, e)) == Some(SumFromFront(l) + e.cost)
  {
    SumFromFrontAppend(l, [e]);
    assert SumFromFront([e]) == e.cost + SumFromFront([]);
  }

  /** The total query: the empty answer for a ledger without records, the sum otherwise. */
  function Total(l: Ledger): (r: Option<real>)
    ensures r.None? <==> |l| == 0
    ensures r.Some? ==> r.value == SumFromFront(l)
    ensures r.Some? && Valid(l) ==> r.value >= 0.0
  {
    if |l| == 0 then None
    else
      SumMatchesFromFront(l);
      SumNonNegative(l);
      Some(Sum(l))
  }

  /** The empty check and accumulation loop of showTotal. */
  method ComputeTotal(l: Ledger) returns (r: Option<real>)
    ensures r.None? <==> |l| == 0
    ensures r.Some? ==> r.value == SumFromFront(l)
  {
    if |l| == 0 {
      return None;
    }
    var total := 0.0;
    var i := 0;
    while i < |l|
      invariant 0 <= i <= |l|
      invariant total == Sum(l[..i])
    {
      assert l[..i + 1][..i] == l[..i];
      total := total + l[i].cost;
      i := i + 1;
    }
    assert l[..|l|] == l;
    SumMatchesFromFront(l);
    r := Some(total);
  }

  /*
   * The highest expense
   */

  /** `k` is the first position holding the greatest cost: no record costs more,
      and every earlier record costs strictly less. */
  predicate IsFirstMax(l: Ledger, k: int)
  {
    && 0 <= k < |l|
    && (forall j :: 0 <= j < |l| ==> l[j].cost <= l[k].cost)
    && (forall j :: 0 <= j < k ==> l[j].cost < l[k].cost)
  }

  /** The position a left-to-right scan that replaces only on a strictly
      greater cost ends on; it is the one and only first maximum. */
  function MaxIndex(l: Ledger): (k: nat)
    requires |l| > 0
    ensures IsFirstMax(l, k)
    ensures forall i :: IsFirstMax(l, i) ==> i == k
  {
    if |l| == 1 then 0
    else
      var k := MaxIndex(l[..|l| - 1]);
      if l[|l| - 1].cost > l[k].cost then |l| - 1 else k
  }

  /** The maximum query: the empty answer for a ledger without records,
      otherwise the earliest record with the greatest cost. */
  function Max(l: Ledger): (r: Option<Expense>)
    ensures r.None? <==> |l| == 0
    ensures r.Some? ==> r.value in l
    ensures r.Some? ==> forall e :: e in l ==> e.cost <= r.value.cost
    ensures r.Some? ==> exists k :: IsFirstMax(l, k) && l[k] == r.value
  {
    if |l| == 0 then None else Some(l[MaxIndex(l)])
  }

  /** Adding a record makes it the maximum exactly when the ledger was empty or
      the record costs strictly more than the current maximum; a tie keeps the
      earlier record. */
  lemma MaxAfterAdd(l: Ledger, e: Expense)
    ensures Max(Add(l, e)) == if |l| == 0 || e.cost > Max(l).value.cost then Some(e) else Max(l)
  {
  }

  /** The empty check and strict-greater scan of showMaxExpense. The scan starts
      from the first record and also visits it, which changes nothing. */
  method ScanMax(l: Ledger) returns (r: Option<Expense>)
    ensures r == Max(l)
  {
    if |l| == 0 {
      return None;
    }
    var maxExp := l[0];
    ghost var k := 0;
    var i := 0;
    while i < |l|
      invariant 0 <= i <= |l|
      invariant 0 <= k < |l| && maxExp == l[k]
      invariant i == 0 ==> k == 0
      invariant i > 0 ==> IsFirstMax(l[..i], k)
    {
      if l[i].cost > maxExp.cost {
        maxExp := l[i];
        k := i;
      }
      i := i + 1;
    }
    assert l[..|l|] == l;
    r := Some(maxExp);
  }

  /*
   * Listing
   */

  /** The list query: the empty answer for a ledger without records, otherwise
      every record once, in insertion order. */
  function Listing(l: Ledger): (r: Option<seq<Expense>>)
    ensures r.None? <==> |l| == 0
    ensures r.Some? ==> |r.value| == |l| && forall i :: 0 <= i < |l| ==> r.value[i] == l[i]
  {
    if |l| == 0 then None else Some(l)
  }

  /** After any run of adds the three queries answer from exactly the added records:
      the list has one line per add, the total is their sum, the maximum the first
      highest of them. */
  lemma {:induction false} QueriesAfterAdds(entries: seq<Expense>)
    requires |entries| > 0
    ensures Listing(Replay(entries)) == Some(entries)
    ensures Total(Replay(entries)) == Some(SumFromFront(entries))
    ensures Max(Replay(entries)) == Some(entries[MaxIndex(entries)])
  {
    ReplayKeepsOrder(entries);
  }

  /** Food 250 then Travel 500.5: both listed in order, total 750.5, highest Travel. */
  lemma TwoEntryExample()
    ensures var food := Expense("Food", 250.0, "01/01/2025");
            var travel := Expense("Travel", 500.5, "02/01/2025");
            var l := Add(Add(Fresh, food), travel);
            && Listing(l) == Some([food, travel])
            && Total(l) == Some(750.5)
            && Max(l) == Some(travel)
  {
    var food := Expense("Food", 250.0, "01/01/2025");
    var travel := Expense("Travel", 500.5, "02/01/2025");
    var l := Add(Add(Fresh, food), travel);
    assert l == [food, travel];
    assert SumFromFront(l) == 250.0 + SumFromFront([travel]);
  }
}
