/**
 The monthly mileage incentive: a flat per-mile rate on all month-to-date
 miles, set by the highest threshold reached, and the five slices of the
 incentive gauge.
 */
module Incentive {
  import opened Numeric

  /** Tier thresholds (lower bound inclusive) and the rate each unlocks. */
  const Tiers: seq<(int, real)> := [(4000, 0.05), (6000, 0.06), (8000, 0.07)]

  /** The gauge always spans at least this many miles. */
  const GaugeSpan: int := 8000

  /** The incentive gauge state: rate reached, miles to the next threshold,
      and the slice sizes drawn on the gauge. */
  datatype TierStatus = TierStatus(
    rate: real,
    milesToNextTier: int,
    slice1: int, slice2: int, slice3: int, slice4: int, remaining: int)

  /** The tier block of the incentive gauge. */
  function IncentiveTier(monthMiles: int): (t: TierStatus)
    ensures t.slice1 + t.slice2 + t.slice3 + t.slice4 + t.remaining == Max(monthMiles, GaugeSpan)
    ensures monthMiles >= 0 ==>
              && t.slice1 >= 0 && t.slice2 >= 0 && t.slice3 >= 0 && t.slice4 >= 0 && t.remaining >= 0
              && t.slice1 <= 4000 && t.slice2 <= 2000 && t.slice3 <= 2000
              && t.slice1 == Min(monthMiles, 4000)
              && t.slice2 == Min(Max(monthMiles - 4000, 0), 2000)
              && t.slice3 == Min(Max(monthMiles - 6000, 0), 2000)
              && t.slice1 + t.slice2 + t.slice3 == Min(monthMiles, GaugeSpan)
              && t.slice4 == Max(monthMiles - GaugeSpan, 0)
              && t.remaining == Max(GaugeSpan - monthMiles, 0)
  {
    if monthMiles >= 8000 then
      TierStatus(0.07, 0, 4000, 6000 - 4000, 8000 - 6000, monthMiles - 8000, 0)
    else if monthMiles >= 6000 then
      TierStatus(0.06, 8000 - monthMiles, 4000, 6000 - 4000, monthMiles - 6000, 0, GaugeSpan - monthMiles)
    else if monthMiles >= 4000 then
      TierStatus(0.05, 6000 - monthMiles, 4000, monthMiles - 4000, 0, 0, GaugeSpan - monthMiles)
    else
      TierStatus(0.0, 4000 - monthMiles, monthMiles, 0, 0, 0, GaugeSpan - monthMiles)
  }

  /** The tier test as the profit-and-loss view repeats it. */
  function ProfitLossRate(monthMiles: int): real {
    if monthMiles >= 8000 then 0.07
    else if monthMiles >= 6000 then 0.06
    else if monthMiles >= 4000 then 0.05
    else 0.0
  }

  /** Incentive pay: every month-to-date mile at the rate reached. */
  function IncentivePay(monthMiles: int): real {
    monthMiles as real * IncentiveTier(monthMiles).rate
  }

  /** Reference definition of the rate: the rate of the highest threshold in
      the tier table at or below `miles`, 0 below the first threshold. */
  function ReachedRate(miles: int, i: nat): real
    requires i <= |Tiers|
    decreases i
  {
    if i == 0 then 0.0
    else if Tiers[i - 1].0 <= miles then Tiers[i - 1].1
    else ReachedRate(miles, i - 1)
  }

  /** Reference definition of the distance to the next tier: the lowest
      threshold above `miles`, minus `miles`; 0 once every threshold is reached. */
  function DistanceToNext(miles: int, i: nat): int
    requires i <= |Tiers|
    decreases |Tiers| - i
  {
    if i == |Tiers| then 0
    else if miles < Tiers[i].0 then Tiers[i].0 - miles
    else DistanceToNext(miles, i + 1)
  }

  /** The gauge's rate and distance to the next tier are those the tier
      table defines, and the profit-and-loss copy yields the same rate. */
  lemma {:induction false} TierMatchesTable(monthMiles: int)
    ensures IncentiveTier(monthMiles).rate == ReachedRate(monthMiles, |Tiers|)
    ensures IncentiveTier(monthMiles).milesToNextTier == DistanceToNext(monthMiles, 0)
    ensures ProfitLossRate(monthMiles) == IncentiveTier(monthMiles).rate
  {
    assert ReachedRate(monthMiles, 3) == (if 8000 <= monthMiles then 0.07 else ReachedRate(monthMiles, 2));
    assert ReachedRate(monthMiles, 2) == (if 6000 <= monthMiles then 0.06 else ReachedRate(monthMiles, 1));
    assert ReachedRate(monthMiles, 1) == (if 4000 <= monthMiles then 0.05 else ReachedRate(monthMiles, 0));
    assert DistanceToNext(monthMiles, 0) == (if monthMiles < 4000 then 4000 - monthMiles else DistanceToNext(monthMiles, 1));
    assert DistanceToNext(monthMiles, 1) == (if monthMiles < 6000 then 6000 - monthMiles else DistanceToNext(monthMiles, 2));
    assert DistanceToNext(monthMiles, 2) == (if monthMiles < 8000 then 8000 - monthMiles else DistanceToNext(monthMiles, 3));
  }

  /** The rate is one of the four tier rates, with thresholds at 4000, 6000
      and 8000 miles; the distance to the next tier is positive exactly below
      8000 miles. */
  lemma TierBoundaries(monthMiles: int)
    ensures var r := IncentiveTier(monthMiles).rate;
            && (r == 0.0 <==> monthMiles < 4000)
            && (r == 0.05 <==> 4000 <= monthMiles < 6000)
            && (r == 0.06 <==> 6000 <= monthMiles < 8000)
            && (r == 0.07 <==> 8000 <= monthMiles)
    ensures IncentiveTier(monthMiles).milesToNextTier > 0 <==> monthMiles < 8000
    ensures IncentiveTier(monthMiles).milesToNextTier >= 0
  {
  }

  /** The rate never falls as miles grow, so neither does the incentive pay. */
  lemma {:induction false} IncentivePayMonotone(a: int, b: int)
    requires 0 <= a <= b
    ensures IncentiveTier(a).rate <= IncentiveTier(b).rate
    ensures IncentivePay(a) <= IncentivePay(b)
  {
    var ra, rb := IncentiveTier(a).rate, IncentiveTier(b).rate;
    assert ra <= rb;
    assert a as real * ra <= b as real * ra;
    assert b as real * ra <= b as real * rb;
  }

  /** The rate is flat, not marginal: reaching a tier pays its rate on every
      mile of the month, including those below the threshold. */
  lemma IncentiveIsFlat()
    ensures IncentivePay(3999) == 0.0
    ensures IncentivePay(4000) == 200.0
    ensures IncentivePay(6000) == 360.0
    ensures IncentivePay(8000) == 560.0
  {
  }
}
