/**
 The carrier's settlement cycle, a Wednesday 00:00:00.000 to Tuesday
 23:59:59.999 week, and the weekly fixed costs prorated over it.
 */
module Settlement {
  import opened Time
  import opened Numeric

  /** Weekly fixed operating costs, in dollars. */
  const FixedCostsWeekly: real := 277.0
  /** Weekly truck lease payment, in dollars. */
  const TruckPaymentWeekly: real := 835.0
  /** Variable operating cost, in dollars per mile. */
  const VariableCostPerMile: real := 0.372

  /** Days from weekday `dow` to the next Tuesday, 0 when `dow` is a Tuesday. */
  function DaysUntilTuesday(dow: int): int {
    (2 - dow + 7) % 7
  }

  /** The settlement cycle of a reference instant: it ends on the first
      Tuesday on or after the reference day, at its last millisecond, and
      starts at midnight six days earlier. */
  function Boundaries(reference: Instant): (c: Window)
    ensures Weekday(DayOf(c.start)) == Wednesday && MsOfDay(c.start) == 0
    ensures Weekday(DayOf(c.end)) == Tuesday && MsOfDay(c.end) == MsPerDay - 1
    ensures DayOf(c.end) == DayOf(c.start) + 6
    ensures c.Contains(reference)
    ensures Weekday(DayOf(reference)) == Tuesday ==> DayOf(c.end) == DayOf(reference)
  {
    var day := DayOf(reference);
    var endDay := day + DaysUntilTuesday(Weekday(day));
    AtParts(endDay, MsPerDay - 1);
    AtParts(endDay - 6, 0);
    WeekdayShift(day, DaysUntilTuesday(Weekday(day)));
    WeekdayShift(endDay, -6);
    Window(Midnight(endDay - 6), LastMs(endDay))
  }

  /** Length of a settlement cycle in milliseconds, as the source measures
      it: from the first to the last millisecond. */
  const CycleMs: int := 7 * MsPerDay - 1

  /** The cycle immediately before `c`: it ends one millisecond before `c`
      starts and starts at midnight six days before that. */
  function PreviousCycle(c: Window): Window {
    var prevEnd := c.start - 1;
    Window(Midnight(DayOf(prevEnd) - 6), prevEnd)
  }

  /** The cycle the proration uses: the cycle of `now`, or the previous cycle
      when `now` precedes the computed start. The fallback never fires,
      because `Boundaries` always contains its reference. */
  function ProrationCycle(now: Instant): (c: Window)
    ensures c == Boundaries(now)
    ensures c.Contains(now)
    ensures now - c.start <= CycleMs
  {
    var c := Boundaries(now);
    if now < c.start then PreviousCycle(c) else c
  }

  /** The weekly fixed costs prorated to the elapsed part of the cycle. */
  datatype Proration = Proration(prorated: real, full: real, progress: real)

  /** Fixed costs (plus the lease payment when included) prorated linearly by
      the time elapsed since the cycle start, clamped to the cycle. */
  function ProratedFixedCosts(includeLease: bool, now: Instant): (p: Proration)
    ensures p.full == if includeLease then 1112.0 else 277.0
    ensures 0.0 <= p.progress <= 1.0
    ensures 0.0 <= p.prorated <= p.full
    ensures p.prorated == p.full * p.progress
    ensures p.progress == (now - Boundaries(now).start) as real / CycleMs as real
  {
    var full := FixedCostsWeekly + (if includeLease then TruckPaymentWeekly else 0.0);
    var c := ProrationCycle(now);
    var total := c.end - c.start;
    var elapsed := Max(0, Min(now - c.start, total));
    var progress := elapsed as real / total as real;
    Proration(full * progress, full, progress)
  }

  /** At the first millisecond of a cycle nothing is prorated yet; at its
      last millisecond the whole week is. */
  lemma {:induction false} ProrationAtCycleEdges(includeLease: bool, now: Instant)
    ensures now == Boundaries(now).start ==> ProratedFixedCosts(includeLease, now).progress == 0.0
    ensures now == Boundaries(now).end ==> ProratedFixedCosts(includeLease, now).progress == 1.0
    ensures now == Boundaries(now).end ==>
              ProratedFixedCosts(includeLease, now).prorated == ProratedFixedCosts(includeLease, now).full
  {
    var c := Boundaries(now);
    assert c.end - c.start == CycleMs by {
      SplitInstant(c.start);
      SplitInstant(c.end);
    }
  }

  /** Within one cycle the prorated amount never decreases as time passes. */
  lemma {:induction false} ProrationMonotone(includeLease: bool, t1: Instant, t2: Instant)
    requires t1 <= t2
    requires Boundaries(t1) == Boundaries(t2)
    ensures ProratedFixedCosts(includeLease, t1).prorated <= ProratedFixedCosts(includeLease, t2).prorated
  {
    var p1, p2 := ProratedFixedCosts(includeLease, t1), ProratedFixedCosts(includeLease, t2);
    assert p1.progress <= p2.progress;
    assert p1.full == p2.full;
  }

  /** The cycle is the unique Wednesday-to-Tuesday week holding its
      reference: every instant of it has the same cycle. */
  lemma {:induction false} CycleOfEveryInstantInside(reference: Instant, t: Instant)
    requires Boundaries(reference).Contains(t)
    ensures Boundaries(t) == Boundaries(reference)
  {
    var c := Boundaries(reference);
    var c' := Boundaries(t);
    SplitInstant(t);
    SplitInstant(c.start);
    SplitInstant(c.end);
    SplitInstant(c'.start);
    SplitInstant(c'.end);
    assert DayOf(c.start) <= DayOf(t) <= DayOf(c.end) by {
      DayOfMonotone(c.start, t);
      DayOfMonotone(t, c.end);
    }
    var d := DayOf(t) - DayOf(c.start);
    WeekdayShift(DayOf(c.start), d);
    WeekdayShift(DayOf(c'.start), DayOf(c.start) - DayOf(c'.start));
    DayOfMonotone(c'.start, t);
    DayOfMonotone(t, c'.end);
    assert DayOf(c'.start) == DayOf(c.start);
  }

  lemma DayOfMonotone(a: Instant, b: Instant)
    requires a <= b
    ensures DayOf(a) <= DayOf(b)
  {
  }

  /** The week after cycle `c`: it starts at midnight the day after `c`
      ends and ends at the last millisecond six days later. */
  function NextCycle(c: Window): Window {
    var nextStartDay := DayOf(c.end) + 1;
    Window(Midnight(nextStartDay), LastMs(nextStartDay + 6))
  }

  /** The week after a cycle is the cycle of the first instant after it, so
      it is again a Wednesday-to-Tuesday week and shares no instant with it. */
  lemma {:induction false} NextCycleFollows(reference: Instant)
    ensures NextCycle(Boundaries(reference)) == Boundaries(Boundaries(reference).end + 1)
    ensures Boundaries(reference).end < NextCycle(Boundaries(reference)).start
  {
    var c := Boundaries(reference);
    var e := DayOf(c.end);
    SplitInstant(c.end);
    assert c.end + 1 == Midnight(e + 1);
    AtParts(e + 1, 0);
    WeekdayShift(e, 1);
  }
}
