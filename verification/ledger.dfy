/**
 Selecting the records dated inside a window of time and totalling them.
 A record's date is taken at local midnight of its day, and both window
 bounds are inclusive.
 */
module Ledger {
  import opened Time
  import opened Records

  /** The loads dated inside window `w`, in their stored order. */
  function LoadsIn(loads: seq<Load>, w: Window): (r: seq<Load>)
    ensures |r| <= |loads|
  {
    if |loads| == 0 then []
    else (if w.Contains(Midnight(loads[0].date)) then [loads[0]] else []) + LoadsIn(loads[1..], w)
  }

  /** The expenses dated inside window `w`, in their stored order. */
  function ExpensesIn(expenses: seq<Expense>, w: Window): (r: seq<Expense>)
    ensures |r| <= |expenses|
  {
    if |expenses| == 0 then []
    else (if w.Contains(Midnight(expenses[0].date)) then [expenses[0]] else []) + ExpensesIn(expenses[1..], w)
  }

  function TotalMiles(loads: seq<Load>): int {
    if |loads| == 0 then 0 else loads[0].miles + TotalMiles(loads[1..])
  }

  function TotalRevenue(loads: seq<Load>): real {
    if |loads| == 0 then 0.0 else loads[0].revenue + TotalRevenue(loads[1..])
  }

  function TotalAmount(expenses: seq<Expense>): real {
    if |expenses| == 0 then 0.0 else expenses[0].amount + TotalAmount(expenses[1..])
  }

  /** A load is selected exactly when it is stored and dated inside the window. */
  lemma {:induction false} LoadsInExact(loads: seq<Load>, w: Window, l: Load)
    ensures l in LoadsIn(loads, w) <==> l in loads && w.Contains(Midnight(l.date))
  {
    if |loads| > 0 {
      LoadsInExact(loads[1..], w, l);
      assert loads == [loads[0]] + loads[1..];
    }
  }

  /** An expense is selected exactly when it is stored and dated inside the window. */
  lemma {:induction false} ExpensesInExact(expenses: seq<Expense>, w: Window, e: Expense)
    ensures e in ExpensesIn(expenses, w) <==> e in expenses && w.Contains(Midnight(e.date))
  {
    if |expenses| > 0 {
      ExpensesInExact(expenses[1..], w, e);
      assert expenses == [expenses[0]] + expenses[1..];
    }
  }

  /** Miles of the loads inside a window, counted without building the
      selection: a reference definition of `TotalMiles(LoadsIn(..))`. */
  function MilesIn(loads: seq<Load>, w: Window): int {
    if |loads| == 0 then 0
    else (if w.Contains(Midnight(loads[0].date)) then loads[0].miles else 0) + MilesIn(loads[1..], w)
  }

  /** Revenue of the loads inside a window, counted without building the selection. */
  function RevenueIn(loads: seq<Load>, w: Window): real {
    if |loads| == 0 then 0.0
    else (if w.Contains(Midnight(loads[0].date)) then loads[0].revenue else 0.0) + RevenueIn(loads[1..], w)
  }

  /** Amount of the expenses inside a window, counted without building the
      selection: a reference definition of `TotalAmount(ExpensesIn(..))`. */
  function AmountIn(expenses: seq<Expense>, w: Window): real {
    if |expenses| == 0 then 0.0
    else (if w.Contains(Midnight(expenses[0].date)) then expenses[0].amount else 0.0) + AmountIn(expenses[1..], w)
  }

  /** Totalling the selected loads is totalling the loads inside the window. */
  lemma {:induction false} SelectThenTotal(loads: seq<Load>, w: Window)
    ensures TotalMiles(LoadsIn(loads, w)) == MilesIn(loads, w)
    ensures TotalRevenue(LoadsIn(loads, w)) == RevenueIn(loads, w)
  {
    if |loads| > 0 {
      SelectThenTotal(loads[1..], w);
      var head := if w.Contains(Midnight(loads[0].date)) then [loads[0]] else [];
      TotalsOfConcat(head, LoadsIn(loads[1..], w));
    }
  }

  /** Totalling the selected expenses is totalling the expenses inside the window. */
  lemma {:induction false} SelectThenTotalAmount(expenses: seq<Expense>, w: Window)
    ensures TotalAmount(ExpensesIn(expenses, w)) == AmountIn(expenses, w)
  {
    if |expenses| > 0 {
      SelectThenTotalAmount(expenses[1..], w);
      var head := if w.Contains(Midnight(expenses[0].date)) then [expenses[0]] else [];
      AmountOfConcat(head, ExpensesIn(expenses[1..], w));
    }
  }

  lemma {:induction false} AmountOfConcat(a: seq<Expense>, b: seq<Expense>)
    ensures TotalAmount(a + b) == TotalAmount(a) + TotalAmount(b)
  {
    if |a| == 0 {
      assert a + b == b;
    } else {
      assert (a + b)[1..] == a[1..] + b;
      AmountOfConcat(a[1..], b);
    }
  }

  lemma {:induction false} TotalsOfConcat(a: seq<Load>, b: seq<Load>)
    ensures TotalMiles(a + b) == TotalMiles(a) + TotalMiles(b)
    ensures TotalRevenue(a + b) == TotalRevenue(a) + TotalRevenue(b)
  {
    if |a| == 0 {
      assert a + b == b;
    } else {
      assert (a + b)[1..] == a[1..] + b;
      TotalsOfConcat(a[1..], b);
    }
  }

  /** Two windows that meet without overlapping: every load in their union
      is counted in exactly one of them. */
  lemma {:induction false} SplitWindow(loads: seq<Load>, first: Window, second: Window)
    requires first.start <= first.end && second.start <= second.end
    requires first.end + 1 == second.start
    ensures MilesIn(loads, Window(first.start, second.end)) == MilesIn(loads, first) + MilesIn(loads, second)
    ensures RevenueIn(loads, Window(first.start, second.end)) == RevenueIn(loads, first) + RevenueIn(loads, second)
  {
    if |loads| > 0 {
      SplitWindow(loads[1..], first, second);
    }
  }

  /** Records with positive miles total non-negative miles, growing with
      every record added. */
  lemma {:induction false} MilesNonNegative(loads: seq<Load>, w: Window)
    requires forall i :: 0 <= i < |loads| ==> loads[i].miles > 0
    ensures 0 <= MilesIn(loads, w) <= TotalMiles(loads)
  {
    if |loads| > 0 {
      MilesNonNegative(loads[1..], w);
    }
  }
}
