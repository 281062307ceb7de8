# Truck-miles financial engine, modelled in Dafny

This project models the calculation core of a personal financial tracker for
an owner-operator truck driver (`app.js`). The tracker records loads (paid
trips) and expenses. From them it derives the following:

- **Pay table.** A load's revenue is the whole trip's miles times the single
  rate of the mileage bracket the trip falls in.
- **Settlement cycle.** This is the carrier's Wednesday 00:00:00.000 to
  Tuesday 23:59:59.999 pay week that contains a given instant.
- **Prorated fixed costs.** The weekly fixed cost (277 dollars), plus the
  weekly lease payment (835 dollars) when it is included, is scaled linearly
  by the time elapsed in the cycle.
- **Monthly incentive.** Month-to-date miles earn a flat rate on every mile:
  0, 0.05, 0.06 or 0.07 dollars, with thresholds at 4000, 6000 and 8000
  miles. The model also covers the five slices of the incentive gauge.
- **Profit-and-loss report.** It covers the current month, last month or the
  year to date. It uses the records dated inside the period (both bounds
  inclusive). Incentive pay counts only for the current month. Fixed and
  lease costs are scaled by `ceil(days) / 7`. Ratios fall back to 0 when
  their denominator is 0.
- **Weekly profit gauge and two-cycle preview.** These cover the current
  settlement cycle and the one after it.
- **Record updates.** Add puts the new record first. Edit replaces the first
  record with the edited id. Delete removes every record with an id.
- **HTML escaping** of the edit form's field values.

Everything is a pure function. "Now" is an explicit parameter:

- **Instants** are `int` milliseconds, `day * 86_400_000 + msOfDay`. Day 0 is
  Thursday 1 January 1970, and `Weekday(d) = (d + 4) % 7` (0 = Sunday).
- **The wall clock** is a `Calendar.DateTime`: year, 0-based month, day of
  month and ms of day. Its day number comes from the days-from-civil formula.
- **Months are carried** as the `new Date(y, m, d)` constructor carries them.
  So `MakeDay(y, m + 1, 0)` is the last day of month `m`, and month -1 is
  December of the year before.
- **Money and rates** are exact `real`s. Miles are `int`s.
- **A record's date** is a day number. It is compared at local midnight of
  that day.

Modules, one per component:

| file | module | component |
|---|---|---|
| time.dfy | Time | instants, windows, weekdays, ceiling division |
| calendar.dfy | Calendar | Gregorian month lengths, date-constructor month carrying |
| numeric.dfy | Numeric | `Math.min` / `Math.max` |
| pay.dfy | Pay | `calculatePay` |
| settlement.dfy | Settlement | `getSettlementCycleBoundaries`, `getProratedFixedCosts`, next cycle |
| incentive.dfy | Incentive | tier block of `updateIncentiveGauge`, the P&L copy of the tier test |
| records.dfy | Records | `addLoad`, `addExpense`, `saveEdit`, `deleteItem` list updates |
| ledger.dfy | Ledger | date-window filters and `reduce` totals |
| profit_loss.dfy | ProfitLoss | `getPLDateRange`, arithmetic of `updatePLDisplay` |
| gauges.dfy | Gauges | `updateWeeklyGauge` needle, `updatePayCyclePreview` |
| html.dfy | Html | `escapeHtml` inside `showEditForm` |

Three behaviours of the code that a reader might not expect, kept as written:

- **Previous-cycle fallback.** The proration's previous-cycle fallback
  (app.js:49-57) is dead code. `(2 - dow + 7) % 7` lies in 0..6, so the
  computed cycle end is never before the reference day and the computed
  start is never after it. `Settlement.ProrationCycle` models the fallback
  as written and proves that it returns the unshifted cycle.
- **Unknown period.** The `default` branch of the date range (app.js:964-967)
  gives any period key other than the three named ones the current month's
  range. It gets no incentive, because the incentive test compares the key
  to `'current-month'` (app.js:998). The variant `ProfitLoss.Unrecognised`
  models this.
- **Month length in the P&L.** For month periods the range runs from midnight
  of the first day to midnight of the last day (app.js:946-956), and the
  fixed and lease costs are scaled by `ceil((end - start) / day) / 7`
  (app.js:1021-1025). So a 30-day month is charged 29/7 weeks.
  `ProfitLoss.CurrentMonthSpan` and `ProfitLoss.LastMonthSpan` state this.

## Model

| member | source | states |
|---|---|---|
| Pay.PayUsesFirstBracket | app.js:3-15 | for any mileage, pay is the whole mileage times the rate of the first bracket in the table whose upper bound is at least the mileage (an independent table definition, related for all inputs) |
| Pay.PayAboveTable | app.js:3-15 | a trip longer than every bracket bound (over 1800 miles) is paid 1.12 per mile on every mile |
| Pay.NoBlendingAtBounds | app.js:3-15 | at every bracket bound b, pay(b) is b times that bracket's rate and pay(b + 1) is b + 1 times the next rate: the whole trip is repriced, with no marginal blending |
| Pay.PayNotMonotone | app.js:4-5 | pay is not monotone in miles: 21 miles pay less than 20, and 76 less than 75 |
| Pay.PayExamples | app.js:3-15 | reference values: 0 miles pay 0, 20 pay 57, 21 pay 42, 100 pay 185, 1801 pay 2017.12 |
| Pay.PayRateBounds | app.js:3-15 | for non-negative miles, pay lies between 1.12 and 2.85 dollars per mile |
| Settlement.Boundaries | app.js:18-34 | the cycle starts at midnight of a Wednesday and ends at 23:59:59.999 of the Tuesday six days later; it contains the reference instant; for a Tuesday reference the end day is the reference day |
| Settlement.CycleOfEveryInstantInside | app.js:18-34 | every instant inside a cycle has that same cycle, so cycles are the disjoint Wednesday-to-Tuesday weeks |
| Settlement.ProrationCycle | app.js:43-57 | the previous-cycle fallback never changes the cycle: the selected cycle is the cycle of now and contains now |
| Settlement.ProratedFixedCosts | app.js:37-71 | full is 277, or 1112 with the lease; progress is in [0, 1] and equals the elapsed ms since the cycle start over the cycle length; prorated = full × progress lies in [0, full] |
| Settlement.ProrationAtCycleEdges | app.js:59-64 | progress is 0 at the first millisecond of the cycle and 1 at its last millisecond, where the whole week's costs are prorated |
| Settlement.ProrationMonotone | app.js:59-64 | within one cycle the prorated cost never decreases as time passes |
| Settlement.NextCycleFollows | app.js:789-795 | the preview's next window is the settlement cycle of the first millisecond after the current cycle, and it starts after the current cycle ends |
| Incentive.IncentiveTier | app.js:737-769 | the five gauge slices sum to max(monthMiles, 8000); for non-negative miles the slices fill in order: the first is min(miles, 4000), the second min(max(miles - 4000, 0), 2000), the third min(max(miles - 6000, 0), 2000), the overflow max(miles - 8000, 0) and the remainder max(8000 - miles, 0) |
| Incentive.TierMatchesTable | app.js:741-769 | the gauge's rate is the rate of the highest threshold reached in the tier table and its milesToNextTier is the lowest threshold above the miles minus the miles; the P&L's copy of the tier test (app.js:1006-1009) yields the same rate |
| Incentive.TierBoundaries | app.js:744-769 | rate is 0 below 4000, 0.05 in [4000, 6000), 0.06 in [6000, 8000), 0.07 from 8000, each in both directions; milesToNextTier is positive exactly below 8000 and never negative |
| Incentive.IncentivePayMonotone | app.js:775 | for 0 <= a <= b the rate and the incentive pay at a are at most those at b |
| Incentive.IncentiveIsFlat | app.js:775 | incentive pay is miles × rate on every month-to-date mile: 3999 miles pay 0, 4000 pay 200, 6000 pay 360, 8000 pay 560 |
| Records.AddLoad | app.js:154-183 | the add succeeds exactly when a date is given and miles are positive; the new load, stamped with the pay for its miles and the given id, is placed in front of the unchanged old list; expenses are untouched |
| Records.AddExpense | app.js:199-223 | the add succeeds exactly when date and category are given and the amount is positive; the new expense is placed in front of the unchanged old list; loads are untouched |
| Records.FindIndex | app.js:384 | the result is the first index holding the id, or -1 exactly when no element has it |
| Records.ReplaceById | app.js:384-387 | the length is kept; the first element with the id is replaced and every other element is unchanged; without a match the list is unchanged |
| Records.RemoveId | app.js:429-431 | no kept element has the id; every kept element was stored; every stored element with another id is kept |
| Records.RemoveDistributes | app.js:429 | removal of a concatenation is the concatenation of the removals, so kept records stay in order |
| Records.RemoveCount | app.js:429 | removal drops exactly the records with the id: the length falls by their count and none remain |
| Records.RemoveIdempotent | app.js:431 | deleting the same id twice equals deleting it once |
| Records.ApplyLoadForm | app.js:365-382 | the edited load keeps its id, takes the form's miles and date, and its revenue is recomputed from its miles |
| Records.SaveEdit | app.js:359-408 | an edit is rejected exactly when its form fails the add checks; otherwise only the element at the first index with the edited id is replaced by the edited record, the rest and the other collection are unchanged |
| Records.DeleteItem | app.js:425-433 | deleting from one collection leaves the other collection untouched |
| Records.UpdatesKeepRevenueStamped | app.js:162-183 | add, edit and delete all keep every load's revenue equal to the pay for its miles |
| Ledger.LoadsInExact | app.js:982-985 | a load is in the period selection exactly when it is stored and its date lies within both inclusive bounds |
| Ledger.ExpensesInExact | app.js:987-990 | an expense is in the period selection exactly when it is stored and its date lies within both inclusive bounds |
| Ledger.SelectThenTotal | app.js:993-994 | filtering and then reducing gives the same miles and revenue as summing over the loads inside the window |
| Ledger.SelectThenTotalAmount | app.js:1026 | filtering the expenses and then reducing their amounts gives the same total as summing the amounts of the expenses inside the window |
| Ledger.SplitWindow | app.js:802-810 | for two non-empty windows that meet without overlapping, the totals over their union are the sums of the totals over each |
| Ledger.MilesNonNegative | app.js:732-735 | with positive miles on every load, the miles inside any window are non-negative and at most the total miles |
| Calendar.MonthLength | app.js:946-949 | the first days of months m and m + 1 lie exactly the length of month m apart, with months carried across year ends (February depends on the leap-year rule) |
| Calendar.LastDayOfMonth | app.js:948 | day 0 of month m + 1 is the last day of month m |
| Calendar.PreviousMonth | app.js:952-954 | month −1 of a year is December of the previous year and any other preceding month stays in the year; day 0 of a month is the last day of the month before it |
| ProfitLoss.DateRange | app.js:941-971 | every range starts at midnight; year to date starts on 1 January and ends at now; the month ranges (also the default branch) end at midnight of a later day, so they are never empty (their exact days: ProfitLoss.CurrentMonthSpan, ProfitLoss.LastMonthSpan, ProfitLoss.YearToDateSpan) |
| ProfitLoss.MonthMiles | app.js:1000-1004 | the month-to-date miles are the miles of the loads dated from midnight of the first of now's month up to now (used by ProfitLoss.ReportIncentive) |
| ProfitLoss.ProfitAndLossReport | app.js:973-1036 | periodDays is the whole days the period's range spans; the fixed costs and lease payment are 277 and 835 per week of those days; manual expenses total the expenses dated inside the range; incentive pay is the incentive gauge's pay on the month-to-date miles for the current month and 0 for every other period; net profit = load revenue + incentive pay − 0.372 × miles − 277 × w − 835 × w − expenses, with w = periodDays / 7 |
| ProfitLoss.Costing | app.js:1015-1036 | the fixed costs and lease payment are 277 and 835 times periodDays / 7; the per-mile ratios are 0 without miles and the margin is 0 without revenue; otherwise profit per mile × miles = net profit, revenue per mile × miles = total revenue, cost per mile = revenue per mile − profit per mile, margin × revenue = 100 × net profit, and the margin's sign is the profit's |
| ProfitLoss.ReportIncentive | app.js:997-1012 | the report's current-month incentive, computed with its own copy of the tier test, equals the incentive gauge's pay on the month-to-date miles; every other period gets 0 |
| ProfitLoss.RangeReport | app.js:982-1030 | for a given range, periodDays is ceil of the range's length in days, the fixed costs and lease payment are 277 and 835 per week of those days, manual expenses total the expenses dated inside the range, and net profit follows the report's formula |
| ProfitLoss.ReportCountsPeriodRecords | app.js:982-994 | the report's miles and load revenue are those of the loads dated inside the period's range |
| ProfitLoss.CurrentMonthSpan | app.js:946-950 | the current-month range starts at the first of the month and ends at midnight of its last day, so periodDays is the month's length minus one |
| ProfitLoss.LastMonthSpan | app.js:952-956 | last month is the previous calendar month (December of the previous year in January), periodDays is its length minus one, and it ends the day before the current month starts |
| ProfitLoss.YearToDateSpan | app.js:958-961 | year to date starts on 1 January; periodDays is the whole days since then plus one if any of today has elapsed |
| ProfitLoss.EmptyPeriod | app.js:1032-1036 | with no records, miles, revenue and incentive are 0, every ratio is 0 rather than a division by zero, and the net profit is minus the fixed and lease costs |
| ProfitLoss.SingleLoadScenario | app.js:993-1017 | a single 100-mile load dated today gives load revenue 185, variable costs 37.2, gross profit 147.8 and no incentive |
| Gauges.GaugeValue | app.js:698-714 | the needle is in [0, 100]; it is above 50 exactly when revenue exceeds costs and 100 exactly when the profit reaches 2000; while losing money it is revenue / costs × 50 with positive costs and non-negative revenue, and 0 when costs are not positive or revenue is not positive; while profitable up to 2000 it is 50 + profit / 2000 × 50 |
| Gauges.GaugeSlices | app.js:700-713 | the drawn slices are non-negative and sum to 100; there are three of them exactly when the week is profitable; while losing, the first slice is the needle value, and while profitable the first is 50 and the first two together reach the needle value |
| Gauges.Weekly | app.js:661-714 | the fixed costs are the cycle's prorated fixed costs for now, the manual expenses total the expenses dated inside the settlement cycle of now, profit is revenue minus prorated fixed, variable and manual costs, and the needle is the gauge value of that revenue and those costs, above 50 exactly when the profit is positive |
| Gauges.WeeklyCountsCycleLoads | app.js:672-693 | the weekly revenue, miles and manual expenses are those of the loads and expenses dated inside the settlement cycle of now |
| Gauges.CyclePreview | app.js:782-818 | the current cycle's revenue and miles are those of the loads dated inside the settlement cycle of now, the next cycle's those of the loads dated in the week after it, and each cycle's profit is its revenue minus 0.372 per mile |
| Gauges.TallyIsPerWindow | app.js:802-811 | for non-overlapping windows, the single pass with its else-if equals totalling each window separately |
| Gauges.PreviewCoversTwoCycles | app.js:788-811 | each preview cycle's miles and revenue are those of its own week, and the two together are the totals of the fourteen days from the current Wednesday to the next Tuesday: no load is counted twice or lost |
| Html.EscapeIsSinglePass | app.js:261-269 | the five successive replace passes equal escaping each character once, so no entity added by an earlier pass is re-escaped |
| Html.EscapedHasNoMarkup | app.js:261-269 | escaped text contains no `<`, `>`, `"` or `'` |
| Html.EscapeRoundTrip | app.js:261-269 | decoding the five entities in the escaped text gives back the original text |

## Left out

- DOM reads and writes, `alert` and `confirm` dialogs, and form wiring (app.js:83-115, 135-150, 190-195 and the HTML building at 256-357). These are presentation. A form's parsed fields come in as `LoadForm` / `ExpenseForm`, and a dismissed `confirm` is simply not calling `DeleteItem`.
- `localStorage` persistence, JSON export and import, `Blob` and `FileReader` (app.js:119-131, 833-891). These are I/O. So the serialization round trip of stored records is not modelled.
- The backup reminder (app.js:895-930). It is timer-driven I/O.
- Chart.js construction and updates (app.js:549-599, 716, 771-773). That library is not part of this model. Only the numbers handed to it are modelled.
- History rendering and its date sort (app.js:447-545). This is presentation.
- The all-time totals of `updateDisplay` (app.js:603-658). These are display totals outside the calculation core.
- Titles built with `toLocaleDateString`, and `toFixed` / `toLocaleString` formatting. These are presentation.
- Parsing `YYYY-MM-DD` dates (which happens in UTC), time zones and daylight saving. The model takes a record's date as local midnight of its day, and every day as 86 400 000 ms.
- IEEE-754 rounding of money. Money is an exact `real`.
- Calendar.DateTime: converting a day number back to a calendar date is not modelled. The clock reading is given as a date and a time of day instead.
- Settlement.ProratedFixedCosts: the source reads the clock twice, once for the boundaries and once for "now". The model uses a single reading.
- Records.Load: JavaScript's falsy fallbacks (`load.miles || 0`, `load.revenue || 0`) are not modelled. Every modelled record has its fields present.
- Html.EscapeHtml: only string arguments are modelled. For a number, the source's falsy test turns 0 into an empty string. That numeric-argument path is not modelled.
- Expense categories are a closed enumeration of the eleven options the forms offer. The source stores any category string.
