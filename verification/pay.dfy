/**
 The mileage pay table. A trip is paid at ONE rate per mile: the rate of the
 bracket its total mileage falls into, applied to every mile of the trip
 (not a marginal schedule).
 */
module Pay {

  /** The brackets of the pay table, in order: (upper bound in miles,
      inclusive; rate in dollars per mile). */
  const Brackets: seq<(int, real)> := [
    (20, 2.85), (75, 2.00), (150, 1.85), (275, 1.70), (425, 1.45),
    (600, 1.35), (800, 1.28), (1000, 1.25), (1200, 1.20), (1800, 1.13)
  ]

  /** Rate for trips longer than the last bracket bound. */
  const OverflowRate: real := 1.12

  /** Pay for a trip of `miles` miles, the first bracket that holds it wins. */
  function CalculatePay(miles: int): real {
    var m := miles as real;
    if miles <= 20 then m * 2.85
    else if miles <= 75 then m * 2.00
    else if miles <= 150 then m * 1.85
    else if miles <= 275 then m * 1.70
    else if miles <= 425 then m * 1.45
    else if miles <= 600 then m * 1.35
    else if miles <= 800 then m * 1.28
    else if miles <= 1000 then m * 1.25
    else if miles <= 1200 then m * 1.20
    else if miles <= 1800 then m * 1.13
    else m * 1.12
  }

  /** The bracket bounds increase and the rates decrease along the table,
      and every rate is above the overflow rate. */
  lemma TableShape()
    ensures forall i, j :: 0 <= i < j < |Brackets| ==> Brackets[i].0 < Brackets[j].0 && Brackets[i].1 > Brackets[j].1
    ensures forall i :: 0 <= i < |Brackets| ==> Brackets[i].1 > OverflowRate
  {
  }

  /** The pay of a trip is its whole mileage times the rate of the first
      bracket whose upper bound is at least the mileage. */
  lemma PayUsesFirstBracket(miles: int, i: int)
    requires 0 <= i < |Brackets|
    requires miles <= Brackets[i].0
    requires forall j :: 0 <= j < i ==> Brackets[j].0 < miles
    ensures CalculatePay(miles) == miles as real * Brackets[i].1
  {
    if i > 0 {
      assert Brackets[i - 1].0 < miles;
    }
  }

  /** Trips longer than every bracket are paid the overflow rate on every mile. */
  lemma PayAboveTable(miles: int)
    requires forall j :: 0 <= j < |Brackets| ==> Brackets[j].0 < miles
    ensures CalculatePay(miles) == miles as real * OverflowRate
  {
    assert Brackets[|Brackets| - 1].0 < miles;
  }

  /** Crossing a bracket bound by one mile reprices the whole trip at the next
      rate: no blending of the two rates at any bound. */
  lemma {:induction false} NoBlendingAtBounds(i: int)
    requires 0 <= i < |Brackets|
    ensures var (bound, rate) := Brackets[i];
            var next := if i + 1 < |Brackets| then Brackets[i + 1].1 else OverflowRate;
            && CalculatePay(bound) == bound as real * rate
            && CalculatePay(bound + 1) == (bound + 1) as real * next
  {
    TableShape();
    var bound := Brackets[i].0;
    PayUsesFirstBracket(bound, i);
    if i + 1 < |Brackets| {
      PayUsesFirstBracket(bound + 1, i + 1);
    } else {
      PayAboveTable(bound + 1);
    }
  }

  /** Pay is not monotone in miles: one more mile past a bound pays less. */
  lemma PayNotMonotone()
    ensures CalculatePay(21) < CalculatePay(20)
    ensures CalculatePay(76) < CalculatePay(75)
  {
  }

  /** Reference values of the table. */
  lemma PayExamples()
    ensures CalculatePay(0) == 0.0
    ensures CalculatePay(20) == 57.0
    ensures CalculatePay(21) == 42.0
    ensures CalculatePay(100) == 185.0
    ensures CalculatePay(1801) == 2017.12
  {
  }

  /** The pay of a trip of non-negative length is non-negative, and at most
      the shortest-bracket rate per mile, and at least the overflow rate per
      mile. */
  lemma PayRateBounds(miles: int)
    requires miles >= 0
    ensures miles as real * OverflowRate <= CalculatePay(miles) <= miles as real * 2.85
  {
  }
}
