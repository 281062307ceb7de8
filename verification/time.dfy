/**
 Instants, calendar days and weekdays.

 An instant is a number of milliseconds on the local timeline: the calendar
 day number times the length of a day plus the millisecond within the day.
 Day 0 is Thursday 1 January 1970. Daylight-saving shifts are not modelled,
 so every day is exactly `MsPerDay` long.
 */
module Time {

  const MsPerDay: int := 86_400_000

  type Instant = int

  const Sunday: int := 0
  const Monday: int := 1
  const Tuesday: int := 2
  const Wednesday: int := 3
  const Thursday: int := 4
  const Friday: int := 5
  const Saturday: int := 6

  /** A closed interval of instants: both bounds belong to it. */
  datatype Window = Window(start: Instant, end: Instant) {
    predicate Contains(t: Instant) {
      start <= t <= end
    }
  }

  /** The instant `ms` milliseconds into calendar day `day`. */
  function At(day: int, ms: int): Instant
    requires 0 <= ms < MsPerDay
  {
    day * MsPerDay + ms
  }

  /** Local midnight (00:00:00.000) of a calendar day. */
  function Midnight(day: int): Instant {
    At(day, 0)
  }

  /** The last millisecond (23:59:59.999) of a calendar day. */
  function LastMs(day: int): Instant {
    At(day, MsPerDay - 1)
  }

  /** The calendar day an instant falls on. */
  function DayOf(t: Instant): int {
    t / MsPerDay
  }

  /** The millisecond within its day at which an instant falls. */
  function MsOfDay(t: Instant): int {
    t % MsPerDay
  }

  /** Day of the week of a day number, 0 = Sunday ... 6 = Saturday. */
  function Weekday(day: int): (w: int)
    ensures 0 <= w < 7
  {
    (day + Thursday) % 7
  }

  /** Ceiling of `a / b` for a positive divisor. */
  function CeilDiv(a: int, b: int): (q: int)
    requires b > 0
    ensures (q - 1) * b < a <= q * b
  {
    if a % b == 0 then a / b else a / b + 1
  }

  /** `At` and (`DayOf`, `MsOfDay`) are inverse to each other. */
  lemma AtParts(day: int, ms: int)
    requires 0 <= ms < MsPerDay
    ensures DayOf(At(day, ms)) == day
    ensures MsOfDay(At(day, ms)) == ms
  {
    var t := At(day, ms);
    var q, r := t / MsPerDay, t % MsPerDay;
    assert t == q * MsPerDay + r;
    assert (q - day) * MsPerDay == ms - r;
  }

  /** Every instant is recovered from its day and millisecond of day. */
  lemma SplitInstant(t: Instant)
    ensures 0 <= MsOfDay(t) < MsPerDay
    ensures t == At(DayOf(t), MsOfDay(t))
  {
  }

  /** Consecutive day numbers have consecutive weekdays. */
  lemma WeekdayShift(day: int, k: int)
    ensures Weekday(day + k) == (Weekday(day) + k) % 7
  {
  }

  /** A span of whole days measured in milliseconds, rounded up to days,
      is that number of days plus one if any part of a day is left over. */
  lemma CeilDaysOfSpan(days: int, ms: int)
    requires 0 <= ms < MsPerDay
    ensures CeilDiv(days * MsPerDay + ms, MsPerDay) == days + (if ms == 0 then 0 else 1)
  {
    AtParts(days, ms);
  }
}
