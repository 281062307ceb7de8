/**
 The proleptic Gregorian calendar in the form the browser's date object
 presents it: years, 0-based months (0 = January) and 1-based days of month,
 with out-of-range months and days carried into neighbouring years and months
 the way the `new Date(year, month, day)` constructor does.
 */
module Calendar {
  import opened Time

  predicate IsLeapYear(year: int) {
    year % 4 == 0 && (year % 100 != 0 || year % 400 == 0)
  }

  /** Length of 0-based month `month` of `year`. */
  function DaysInMonth(year: int, month: int): int
    requires 0 <= month < 12
  {
    if month == 1 then (if IsLeapYear(year) then 29 else 28)
    else if month == 3 || month == 5 || month == 8 || month == 10 then 30
    else 31
  }

  /** Day number of a calendar date with an in-range 0-based month
      (the days-from-civil formula, counting years from 1 March). */
  function DaysFromCivil(year: int, month: int, day: int): int
    requires 0 <= month < 12
  {
    var y := if month < 2 then year - 1 else year;
    var marchMonth := if month >= 2 then month - 2 else month + 10;
    YearDays(y) + MarchMonthDays(marchMonth) + day - 1 - 719468
  }

  /** Days in the March-based years before year `y`, counted from year 0. */
  function YearDays(y: int): int {
    365 * y + y / 4 - y / 100 + y / 400
  }

  /** Days from 1 March to the first of the `marchMonth`-th month after it. */
  function MarchMonthDays(marchMonth: int): int {
    (153 * marchMonth + 2) / 5
  }

  /** Day number of the first day of a month; the month may lie outside
      0..11 and is carried into the year first. */
  function FirstOfMonth(year: int, month: int): int {
    DaysFromCivil(year + month / 12, month % 12, 1)
  }

  /** Day number of `new Date(year, month, day)`: day 0 is the last day of
      the previous month, day 32 spills into the next month. */
  function MakeDay(year: int, month: int, day: int): int {
    FirstOfMonth(year, month) + day - 1
  }

  /** A reading of the local wall clock: the calendar date and the
      millisecond within that day. */
  datatype DateTime = DateTime(year: int, month: int, day: int, msOfDay: int) {
    predicate Valid() {
      && 0 <= month < 12
      && 1 <= day <= DaysInMonth(year, month)
      && 0 <= msOfDay < MsPerDay
    }

    function DayNumber(): int {
      MakeDay(year, month, day)
    }

    function Instant(): Instant
      requires 0 <= msOfDay < MsPerDay
    {
      At(DayNumber(), msOfDay)
    }
  }

  /** `y / k - (y - 1) / k` is 1 when `k` divides `y` and 0 otherwise. */
  lemma StepFloor(y: int, k: int)
    requires k == 4 || k == 100 || k == 400
    ensures y / k - (y - 1) / k == (if y % k == 0 then 1 else 0)
  {
    var q, r := y / k, y % k;
    assert y == k * q + r && 0 <= r < k;
    if r == 0 {
      assert y - 1 == k * (q - 1) + (k - 1);
    } else {
      assert y - 1 == k * q + (r - 1);
    }
  }

  lemma CenturyIsLeapCandidate(y: int)
    requires y % 100 == 0
    ensures y % 4 == 0
  {
    assert y == 4 * (25 * (y / 100));
  }

  lemma QuadCenturyIsCentury(y: int)
    requires y % 400 == 0
    ensures y % 100 == 0
  {
    assert y == 100 * (4 * (y / 400));
  }

  /** Consecutive in-range months start `DaysInMonth` days apart; December
      is followed by January of the next year. */
  lemma CivilMonthStep(year: int, month: int)
    requires 0 <= month < 12
    ensures var next := if month == 11 then DaysFromCivil(year + 1, 0, 1)
                        else DaysFromCivil(year, month + 1, 1);
            next - DaysFromCivil(year, month, 1) == DaysInMonth(year, month)
  {
    if month == 1 {
      YearLength(year);
    }
  }

  /** A March-based year is 366 days long exactly when it ends in the
      February of a leap year. */
  lemma YearLength(year: int)
    ensures YearDays(year) - YearDays(year - 1) == (if IsLeapYear(year) then 366 else 365)
  {
    var d4, d100, d400 := year / 4 - (year - 1) / 4, year / 100 - (year - 1) / 100, year / 400 - (year - 1) / 400;
    assert YearDays(year) - YearDays(year - 1) == 365 + d4 - d100 + d400;
    StepFloor(year, 4);
    StepFloor(year, 100);
    StepFloor(year, 400);
    if year % 400 == 0 {
      QuadCenturyIsCentury(year);
      CenturyIsLeapCandidate(year);
    } else if year % 100 == 0 {
      CenturyIsLeapCandidate(year);
    }
  }

  /** The first day of month `month + 1` follows the first day of month
      `month` by that month's length, whatever carrying into years it takes. */
  lemma {:induction false} MonthLength(year: int, month: int)
    ensures FirstOfMonth(year, month + 1) - FirstOfMonth(year, month)
            == DaysInMonth(year + month / 12, month % 12)
  {
    var y, m := year + month / 12, month % 12;
    if m == 11 {
      assert (month + 1) / 12 == month / 12 + 1 && (month + 1) % 12 == 0;
    } else {
      assert (month + 1) / 12 == month / 12 && (month + 1) % 12 == m + 1;
    }
    CivilMonthStep(y, m);
  }

  /** Day 0 of the following month is the last day of the month. */
  lemma {:induction false} LastDayOfMonth(year: int, month: int)
    ensures MakeDay(year, month + 1, 0) == MakeDay(year, month, 1) + DaysInMonth(year + month / 12, month % 12) - 1
  {
    MonthLength(year, month);
  }

  /** Every month has at least 28 days. */
  lemma MonthAtLeastFourWeeks(year: int, month: int)
    requires 0 <= month < 12
    ensures 28 <= DaysInMonth(year, month) <= 31
  {
  }

  /** Carrying leaves an in-range month where it is. */
  lemma InRangeMonth(year: int, month: int)
    requires 0 <= month < 12
    ensures year + month / 12 == year && month % 12 == month
  {
  }

  /** The month before an in-range month is December of the previous year
      when the month is January, and otherwise the preceding month of the
      same year; day 0 of the month is that month's last day. */
  lemma {:induction false} PreviousMonth(year: int, month: int)
    requires 0 <= month < 12
    ensures var py := if month == 0 then year - 1 else year;
            var pm := if month == 0 then 11 else month - 1;
            && MakeDay(year, month - 1, 1) == MakeDay(py, pm, 1)
            && MakeDay(year, month, 0) == MakeDay(py, pm, 1) + DaysInMonth(py, pm) - 1
  {
    var py := if month == 0 then year - 1 else year;
    var pm := if month == 0 then 11 else month - 1;
    LastDayOfMonth(year, month - 1);
    assert (month - 1) + 1 == month;
    assert year + (month - 1) / 12 == py && (month - 1) % 12 == pm;
  }

  /** The day numbering agrees with the weekday convention: 1 January 1970
      is day 0 and a Thursday. */
  lemma Epoch()
    ensures DaysFromCivil(1970, 0, 1) == 0
    ensures Weekday(DaysFromCivil(1970, 0, 1)) == Thursday
  {
  }
}
