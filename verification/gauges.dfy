/**
 The weekly profit gauge of the current settlement cycle and the preview of
 the current and next cycle's load totals.
 */
module Gauges {
  import opened Time
  import opened Numeric
  import opened Records
  import opened Ledger
  import opened Settlement

  /** Weekly profit at which the gauge is full, in dollars. */
  const MaxGaugeRange: real := 2000.0

  /** The weekly gauge's needle, 0..100: at most 50 while the week loses
      money (the share of costs covered by revenue, halved), above 50 once it
      makes a profit, reaching 100 at `MaxGaugeRange`. */
  function GaugeValue(revenue: real, totalCosts: real): (g: real)
    ensures 0.0 <= g <= 100.0
    ensures g > 50.0 <==> revenue > totalCosts
    ensures g == 100.0 <==> revenue - totalCosts >= MaxGaugeRange
    ensures revenue <= totalCosts && totalCosts > 0.0 && revenue >= 0.0 ==> g == revenue / totalCosts * 50.0
    ensures revenue <= totalCosts && (totalCosts <= 0.0 || revenue <= 0.0) ==> g == 0.0
    ensures 0.0 < revenue - totalCosts <= MaxGaugeRange ==> g == 50.0 + (revenue - totalCosts) / 40.0
  {
    var profit := revenue - totalCosts;
    if profit <= 0.0 then
      if totalCosts > 0.0 then
        QuotientAtMostOne(revenue, totalCosts);
        MinReal(100.0, MaxReal(0.0, (revenue / totalCosts) * 50.0))
      else 0.0
    else
      var profitRatio := MinReal(profit / MaxGaugeRange, 1.0);
      50.0 + profitRatio * 50.0
  }

  lemma QuotientAtMostOne(a: real, b: real)
    requires b > 0.0 && a <= b
    ensures a / b <= 1.0
  {
    assert a / b * b == a;
  }

  /** The slices the weekly gauge draws: red and grey while losing money,
      red, green and grey once profitable; they always fill the dial. */
  function GaugeSlices(revenue: real, totalCosts: real): (s: seq<real>)
    ensures |s| == 2 || |s| == 3
    ensures |s| == 3 <==> revenue > totalCosts
    ensures s[0] + (if |s| == 3 then s[1] + s[2] else s[1]) == 100.0
    ensures forall i :: 0 <= i < |s| ==> s[i] >= 0.0
    ensures var g := GaugeValue(revenue, totalCosts);
            (|s| == 2 ==> s[0] == g) && (|s| == 3 ==> s[0] == 50.0 && s[0] + s[1] == g)
  {
    var g := GaugeValue(revenue, totalCosts);
    if revenue - totalCosts <= 0.0 then [g, 100.0 - g] else [50.0, g - 50.0, 100.0 - g]
  }

  datatype WeeklyStatus = WeeklyStatus(
    revenue: real, miles: int, fixedCosts: Proration, variableCosts: real,
    manualExpenses: real, totalCosts: real, profit: real, gaugeValue: real)

  /** The weekly gauge for the settlement cycle containing `now`: the cycle's
      loads and expenses, prorated fixed costs, and the needle position. */
  function Weekly(now: Instant, includeLease: bool, data: Data): (s: WeeklyStatus)
    ensures s.fixedCosts == ProratedFixedCosts(includeLease, now)
    ensures s.manualExpenses == AmountIn(data.expenses, Boundaries(now))
    ensures s.profit == s.revenue - s.totalCosts
    ensures s.totalCosts == s.fixedCosts.prorated + s.miles as real * VariableCostPerMile + s.manualExpenses
    ensures s.gaugeValue == GaugeValue(s.revenue, s.totalCosts)
    ensures s.gaugeValue > 50.0 <==> s.profit > 0.0
    ensures 0.0 <= s.fixedCosts.prorated <= s.fixedCosts.full
  {
    var cycle := Boundaries(now);
    var revenue := TotalRevenue(LoadsIn(data.loads, cycle));
    var miles := TotalMiles(LoadsIn(data.loads, cycle));
    var fixed := ProratedFixedCosts(includeLease, now);
    var variableCosts := miles as real * VariableCostPerMile;
    var manual := TotalAmount(ExpensesIn(data.expenses, cycle));
    SelectThenTotalAmount(data.expenses, cycle);
    var totalCosts := fixed.prorated + variableCosts + manual;
    WeeklyStatus(revenue, miles, fixed, variableCosts, manual, totalCosts, revenue - totalCosts,
                 GaugeValue(revenue, totalCosts))
  }

  /** The weekly gauge totals exactly the loads and expenses dated inside
      the cycle. */
  lemma {:induction false} WeeklyCountsCycleLoads(now: Instant, includeLease: bool, data: Data)
    ensures Weekly(now, includeLease, data).miles == MilesIn(data.loads, Boundaries(now))
    ensures Weekly(now, includeLease, data).revenue == RevenueIn(data.loads, Boundaries(now))
    ensures Weekly(now, includeLease, data).manualExpenses == AmountIn(data.expenses, Boundaries(now))
  {
    SelectThenTotal(data.loads, Boundaries(now));
  }

  /** Revenue, miles, variable costs and profit of one cycle. */
  datatype CycleSummary = CycleSummary(revenue: real, miles: int, variableCosts: real, profit: real)

  datatype Preview = Preview(current: CycleSummary, next: CycleSummary)

  /** Running totals (current revenue, current miles, next revenue, next
      miles) of one pass over the loads: a load dated in the current cycle
      counts there, otherwise in the next cycle if dated there. */
  function Tally(loads: seq<Load>, current: Window, next: Window): (real, int, real, int) {
    if |loads| == 0 then (0.0, 0, 0.0, 0)
    else
      var (cr, cm, nr, nm) := Tally(loads[1..], current, next);
      var l := loads[0];
      if current.Contains(Midnight(l.date)) then (cr + l.revenue, cm + l.miles, nr, nm)
      else if next.Contains(Midnight(l.date)) then (cr, cm, nr + l.revenue, nm + l.miles)
      else (cr, cm, nr, nm)
  }

  function Summarise(revenue: real, miles: int): CycleSummary {
    var variableCosts := miles as real * VariableCostPerMile;
    CycleSummary(revenue, miles, variableCosts, revenue - variableCosts)
  }

  /** The pay-cycle preview as of `now`: the current cycle totals the loads
      dated inside the cycle of `now`, the next cycle those dated in the week
      after it. */
  function CyclePreview(now: Instant, loads: seq<Load>): (p: Preview)
    ensures p.current == Summarise(RevenueIn(loads, Boundaries(now)), MilesIn(loads, Boundaries(now)))
    ensures p.next == Summarise(RevenueIn(loads, NextCycle(Boundaries(now))), MilesIn(loads, NextCycle(Boundaries(now))))
    ensures p.current.profit == p.current.revenue - p.current.miles as real * VariableCostPerMile
    ensures p.next.profit == p.next.revenue - p.next.miles as real * VariableCostPerMile
  {
    var current := Boundaries(now);
    NextCycleFollows(now);
    TallyIsPerWindow(loads, current, NextCycle(current));
    var (cr, cm, nr, nm) := Tally(loads, current, NextCycle(current));
    Preview(Summarise(cr, cm), Summarise(nr, nm))
  }

  /** Because the two windows do not overlap, the one-pass tally equals
      totalling each window separately. */
  lemma {:induction false} TallyIsPerWindow(loads: seq<Load>, current: Window, next: Window)
    requires current.end < next.start
    ensures Tally(loads, current, next) == (RevenueIn(loads, current), MilesIn(loads, current),
                                            RevenueIn(loads, next), MilesIn(loads, next))
  {
    if |loads| > 0 {
      TallyIsPerWindow(loads[1..], current, next);
    }
  }

  /** The preview counts each load of the current or next cycle exactly
      once: together the two cycles hold the loads of the fourteen days from
      the current cycle's Wednesday to the next cycle's Tuesday. */
  lemma {:induction false} PreviewCoversTwoCycles(now: Instant, loads: seq<Load>)
    ensures var c := Boundaries(now);
            var n := NextCycle(c);
            var p := CyclePreview(now, loads);
            && p.current.miles == MilesIn(loads, c)
            && p.next.miles == MilesIn(loads, n)
            && p.current.revenue == RevenueIn(loads, c)
            && p.next.revenue == RevenueIn(loads, n)
            && p.current.miles + p.next.miles == MilesIn(loads, Window(c.start, n.end))
            && p.current.revenue + p.next.revenue == RevenueIn(loads, Window(c.start, n.end))
  {
    var c := Boundaries(now);
    var n := NextCycle(c);
    NextCycleFollows(now);
    SplitInstant(c.end);
    AtParts(DayOf(c.end) + 1, 0);
    SplitWindow(loads, c, n);
  }
}
