/**
 The profit-and-loss report: the period's date range, the records dated in
 it, incentive pay for the current month, fixed and lease costs scaled to the
 period's length in weeks, and the per-mile and margin ratios.
 */
module ProfitLoss {
  import opened Time
  import opened Calendar
  import opened Records
  import opened Ledger
  import opened Incentive
  import opened Settlement

  /** The periods the report offers. `Unrecognised` stands for any other
      selection, which gets the current month's range but no incentive. */
  datatype Period = CurrentMonth | LastMonth | YearToDate | Unrecognised

  /** The period's date range, both ends inclusive. Month ranges end at
      midnight of the month's last day; the year-to-date range ends at `now`. */
  function DateRange(period: Period, now: DateTime): (w: Window)
    requires now.Valid()
    ensures MsOfDay(w.start) == 0
    ensures period == YearToDate ==> DayOf(w.start) == MakeDay(now.year, 0, 1) && w.end == now.Instant()
    ensures period != YearToDate ==> MsOfDay(w.end) == 0 && w.start < w.end
  {
    var y, m := now.year, now.month;
    match period
    case LastMonth =>
      PreviousMonth(y, m);
      MonthAtLeastFourWeeks(if m == 0 then y - 1 else y, if m == 0 then 11 else m - 1);
      MonthRange(MakeDay(y, m - 1, 1), MakeDay(y, m, 0))
    case YearToDate =>
      AtParts(MakeDay(y, 0, 1), 0);
      Window(Midnight(MakeDay(y, 0, 1)), now.Instant())
    case _ =>
      LastDayOfMonth(y, m);
      InRangeMonth(y, m);
      MonthAtLeastFourWeeks(y, m);
      MonthRange(MakeDay(y, m, 1), MakeDay(y, m + 1, 0))
  }

  /** The range from midnight of `first` to midnight of `last`. */
  function MonthRange(first: int, last: int): (w: Window)
    requires first < last
    ensures MsOfDay(w.start) == 0 && MsOfDay(w.end) == 0 && w.start < w.end
    ensures DayOf(w.start) == first && DayOf(w.end) == last
  {
    AtParts(first, 0);
    AtParts(last, 0);
    Window(Midnight(first), Midnight(last))
  }

  /** The whole days a range spans, a partial day counting as one. */
  function PeriodDays(w: Window): int {
    CeilDiv(w.end - w.start, MsPerDay)
  }

  /** Month-to-date window: from midnight of the first of now's month to now. */
  function MonthToDate(now: DateTime): Window
    requires now.Valid()
  {
    Window(Midnight(MakeDay(now.year, now.month, 1)), now.Instant())
  }

  /** Miles of all loads dated from the first of now's month up to now. */
  function MonthMiles(now: DateTime, loads: seq<Load>): (miles: int)
    requires now.Valid()
    ensures miles == MilesIn(loads, MonthToDate(now))
  {
    SelectThenTotal(loads, MonthToDate(now));
    TotalMiles(LoadsIn(loads, MonthToDate(now)))
  }

  datatype Report = Report(
    loadRevenue: real,
    incentivePay: real,
    totalRevenue: real,
    totalMiles: int,
    variableCosts: real,
    grossProfit: real,
    periodDays: int,
    fixedCosts: real,
    truckPayment: real,
    manualExpenses: real,
    netProfit: real,
    profitPerMile: real,
    profitMargin: real,
    revenuePerMile: real,
    costPerMile: real)

  /** Incentive pay as the report computes it: only for the current month,
      on all loads dated from the first of the month up to now. */
  function ReportIncentive(period: Period, now: DateTime, loads: seq<Load>): (pay: real)
    requires now.Valid()
    ensures period == CurrentMonth ==> pay == IncentivePay(MonthMiles(now, loads))
    ensures period != CurrentMonth ==> pay == 0.0
  {
    if period == CurrentMonth then
      var monthMiles := MonthMiles(now, loads);
      ReportRateIsGaugeRate(monthMiles);
      monthMiles as real * ProfitLossRate(monthMiles)
    else 0.0
  }

  /** The report for `period` as of `now`: the records dated inside the
      period's range, totalled and costed. */
  function ProfitAndLossReport(period: Period, now: DateTime, data: Data): (r: Report)
    requires now.Valid()
    ensures r.periodDays == PeriodDays(DateRange(period, now))
    ensures r.fixedCosts == FixedCostsWeekly * (PeriodDays(DateRange(period, now)) as real / 7.0)
    ensures r.truckPayment == TruckPaymentWeekly * (PeriodDays(DateRange(period, now)) as real / 7.0)
    ensures r.manualExpenses == AmountIn(data.expenses, DateRange(period, now))
    ensures period == CurrentMonth ==> r.incentivePay == IncentivePay(MonthMiles(now, data.loads))
    ensures period != CurrentMonth ==> r.incentivePay == 0.0
    ensures var w := r.periodDays as real / 7.0;
            r.netProfit == r.loadRevenue + r.incentivePay - r.totalMiles as real * VariableCostPerMile
                           - FixedCostsWeekly * w - TruckPaymentWeekly * w - r.manualExpenses
  {
    RangeReport(DateRange(period, now), ReportIncentive(period, now, data.loads), data)
  }

  /** The report over a given range with a given incentive: the loads and
      expenses dated inside the range, totalled and costed. */
  function RangeReport(range: Window, incentive: real, data: Data): (r: Report)
    ensures r.periodDays == PeriodDays(range)
    ensures r.fixedCosts == FixedCostsWeekly * (PeriodDays(range) as real / 7.0)
    ensures r.truckPayment == TruckPaymentWeekly * (PeriodDays(range) as real / 7.0)
    ensures r.manualExpenses == AmountIn(data.expenses, range)
    ensures r.incentivePay == incentive
    ensures var w := r.periodDays as real / 7.0;
            r.netProfit == r.loadRevenue + r.incentivePay - r.totalMiles as real * VariableCostPerMile
                           - FixedCostsWeekly * w - TruckPaymentWeekly * w - r.manualExpenses
  {
    var periodLoads := LoadsIn(data.loads, range);
    SelectThenTotalAmount(data.expenses, range);
    Costing(TotalRevenue(periodLoads), incentive, TotalMiles(periodLoads),
            PeriodDays(range), TotalAmount(ExpensesIn(data.expenses, range)))
  }

  /** The report's arithmetic on the period's totals. */
  function Costing(loadRevenue: real, incentivePay: real, totalMiles: int, periodDays: int, manualExpenses: real): (r: Report)
    ensures r.loadRevenue == loadRevenue && r.incentivePay == incentivePay && r.totalMiles == totalMiles
    ensures r.periodDays == periodDays && r.manualExpenses == manualExpenses
    ensures r.fixedCosts == FixedCostsWeekly * (periodDays as real / 7.0)
    ensures r.truckPayment == TruckPaymentWeekly * (periodDays as real / 7.0)
    ensures r.totalRevenue == loadRevenue + incentivePay
    ensures r.variableCosts == totalMiles as real * VariableCostPerMile
    ensures r.grossProfit == r.totalRevenue - r.variableCosts
    ensures var w := periodDays as real / 7.0;
            r.netProfit == loadRevenue + incentivePay - totalMiles as real * VariableCostPerMile
                           - FixedCostsWeekly * w - TruckPaymentWeekly * w - manualExpenses
    ensures totalMiles == 0 ==> r.profitPerMile == 0.0 && r.revenuePerMile == 0.0 && r.costPerMile == 0.0
    ensures r.totalRevenue <= 0.0 ==> r.profitMargin == 0.0
    ensures totalMiles > 0 ==>
              && r.profitPerMile * totalMiles as real == r.netProfit
              && r.revenuePerMile * totalMiles as real == r.totalRevenue
              && r.costPerMile == r.revenuePerMile - r.profitPerMile
    ensures r.totalRevenue > 0.0 ==>
              && r.profitMargin * r.totalRevenue == 100.0 * r.netProfit
              && (r.profitMargin >= 0.0 <==> r.netProfit >= 0.0)
  {
    var totalRevenue := loadRevenue + incentivePay;
    var variableCosts := totalMiles as real * VariableCostPerMile;
    var grossProfit := totalRevenue - variableCosts;
    var weeksInPeriod := periodDays as real / 7.0;
    var fixedCosts := FixedCostsWeekly * weeksInPeriod;
    var truckPayment := TruckPaymentWeekly * weeksInPeriod;
    var totalOperatingExpenses := fixedCosts + truckPayment + manualExpenses;
    var netProfit := grossProfit - totalOperatingExpenses;
    var totalCosts := variableCosts + totalOperatingExpenses;
    var miles := totalMiles as real;
    assert totalCosts == totalRevenue - netProfit;
    var profitPerMile := if totalMiles > 0 then netProfit / miles else 0.0;
    var profitMargin := if totalRevenue > 0.0 then (netProfit / totalRevenue) * 100.0 else 0.0;
    var revenuePerMile := if totalMiles > 0 then totalRevenue / miles else 0.0;
    var costPerMile := if totalMiles > 0 then totalCosts / miles else 0.0;
    assert totalMiles > 0 ==> costPerMile == revenuePerMile - profitPerMile by {
      if totalMiles > 0 {
        DivideDifference(totalRevenue, netProfit, miles);
      }
    }
    assert totalRevenue > 0.0 ==> (profitMargin >= 0.0 <==> netProfit >= 0.0) by {
      if totalRevenue > 0.0 {
        SignOfQuotient(netProfit, totalRevenue);
      }
    }
    Report(
      loadRevenue, incentivePay, totalRevenue, totalMiles, variableCosts, grossProfit,
      periodDays, fixedCosts, truckPayment, manualExpenses, netProfit,
      profitPerMile, profitMargin, revenuePerMile, costPerMile)
  }

  lemma DivideDifference(a: real, b: real, d: real)
    requires d > 0.0
    ensures (a - b) / d == a / d - b / d
  {
  }

  lemma SignOfQuotient(a: real, d: real)
    requires d > 0.0
    ensures a / d >= 0.0 <==> a >= 0.0
  {
  }

  /** The report's copy of the tier test pays what the incentive gauge
      pays on the same miles. */
  lemma ReportRateIsGaugeRate(miles: int)
    ensures miles as real * ProfitLossRate(miles) == IncentivePay(miles)
  {
    TierMatchesTable(miles);
  }

  /** The report's load totals are those of exactly the records dated inside
      the period's range. */
  lemma {:induction false} ReportCountsPeriodRecords(period: Period, now: DateTime, data: Data)
    requires now.Valid()
    ensures var r := ProfitAndLossReport(period, now, data);
            var range := DateRange(period, now);
            && r.totalMiles == MilesIn(data.loads, range)
            && r.loadRevenue == RevenueIn(data.loads, range)
  {
    SelectThenTotal(data.loads, DateRange(period, now));
  }

  /** The current month's range runs from midnight of its first day to
      midnight of its last day, so it spans one day less than the month:
      the weekly costs are charged for `DaysInMonth - 1` days. */
  lemma {:induction false} CurrentMonthSpan(now: DateTime)
    requires now.Valid()
    ensures var w := DateRange(CurrentMonth, now);
            && DayOf(w.start) == MakeDay(now.year, now.month, 1)
            && DayOf(w.end) == DayOf(w.start) + DaysInMonth(now.year, now.month) - 1
            && PeriodDays(w) == DaysInMonth(now.year, now.month) - 1
  {
    var w := DateRange(CurrentMonth, now);
    var first := MakeDay(now.year, now.month, 1);
    LastDayOfMonth(now.year, now.month);
    InRangeMonth(now.year, now.month);
    AtParts(first, 0);
    AtParts(MakeDay(now.year, now.month + 1, 0), 0);
    CeilDaysOfSpan(DaysInMonth(now.year, now.month) - 1, 0);
    assert w.end - w.start == (DaysInMonth(now.year, now.month) - 1) * MsPerDay;
  }

  /** Last month's range is the previous calendar month (December of the
      previous year in January), again one day short, and it ends the day
      before the current month's range starts: the two never share a date. */
  lemma {:induction false} LastMonthSpan(now: DateTime)
    requires now.Valid()
    ensures var prevYear := if now.month == 0 then now.year - 1 else now.year;
            var prevMonth := if now.month == 0 then 11 else now.month - 1;
            var w := DateRange(LastMonth, now);
            && DayOf(w.start) == MakeDay(prevYear, prevMonth, 1)
            && PeriodDays(w) == DaysInMonth(prevYear, prevMonth) - 1
            && DayOf(w.end) + 1 == DayOf(DateRange(CurrentMonth, now).start)
            && w.end < DateRange(CurrentMonth, now).start
  {
    var y, m := now.year, now.month;
    var w := DateRange(LastMonth, now);
    var prevYear := if m == 0 then y - 1 else y;
    var prevMonth := if m == 0 then 11 else m - 1;
    PreviousMonth(y, m);
    AtParts(MakeDay(y, m - 1, 1), 0);
    AtParts(MakeDay(y, m, 0), 0);
    AtParts(MakeDay(y, m, 1), 0);
    CeilDaysOfSpan(DaysInMonth(prevYear, prevMonth) - 1, 0);
    assert w.end - w.start == (DaysInMonth(prevYear, prevMonth) - 1) * MsPerDay;
  }

  /** Year to date counts the days from 1 January to today, plus today
      itself once any of it has elapsed. */
  lemma {:induction false} YearToDateSpan(now: DateTime)
    requires now.Valid()
    ensures var w := DateRange(YearToDate, now);
            && DayOf(w.start) == MakeDay(now.year, 0, 1)
            && PeriodDays(w) == now.DayNumber() - MakeDay(now.year, 0, 1) + (if now.msOfDay == 0 then 0 else 1)
  {
    var jan1 := MakeDay(now.year, 0, 1);
    AtParts(jan1, 0);
    CeilDaysOfSpan(now.DayNumber() - jan1, now.msOfDay);
    assert now.Instant() - Midnight(jan1) == (now.DayNumber() - jan1) * MsPerDay + now.msOfDay;
  }

  /** A period without records earns nothing, and every ratio is 0 rather
      than a division by zero; the loss is the fixed and lease costs. */
  lemma {:induction false} EmptyPeriod(period: Period, now: DateTime)
    requires now.Valid()
    ensures var r := ProfitAndLossReport(period, now, Data([], []));
            && r.totalMiles == 0 && r.loadRevenue == 0.0 && r.incentivePay == 0.0
            && r.profitPerMile == 0.0 && r.profitMargin == 0.0
            && r.revenuePerMile == 0.0 && r.costPerMile == 0.0
            && r.netProfit == -(FixedCostsWeekly + TruckPaymentWeekly) * r.periodDays as real / 7.0
  {
  }

  /** One 100-mile load dated today and no expenses: 185.00 revenue, 37.20
      variable cost, 147.80 gross profit, and no incentive below 4000 miles. */
  lemma {:induction false} SingleLoadScenario(now: DateTime, load: Load)
    requires now.Valid()
    requires load.miles == 100 && Stamped(load) && load.date == now.DayNumber()
    ensures var r := ProfitAndLossReport(CurrentMonth, now, Data([load], []));
            && r.loadRevenue == 185.0
            && r.totalMiles == 100
            && r.incentivePay == 0.0
            && r.variableCosts == 37.2
            && r.grossProfit == 147.8
  {
    var first := MakeDay(now.year, now.month, 1);
    var last := MakeDay(now.year, now.month + 1, 0);
    LastDayOfMonth(now.year, now.month);
    InRangeMonth(now.year, now.month);
    assert first <= now.DayNumber() <= last;
    assert DateRange(CurrentMonth, now).Contains(Midnight(load.date));
    assert MonthToDate(now).Contains(Midnight(load.date));
    assert LoadsIn([load], DateRange(CurrentMonth, now)) == [load];
    assert LoadsIn([load], MonthToDate(now)) == [load];
    assert TotalRevenue([load]) == load.revenue == 185.0;
    assert TotalMiles([load]) == 100;
  }
}
