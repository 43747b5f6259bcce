/** The fare estimate of the ride map (`calculateFare` in the map component).
    The hour of day, which the component reads from the clock, is a parameter. */
module RideFare {
  import opened Wrappers
  import opened Numbers

  const BaseFare: real := 50.0
  const PerKmRate: real := 12.0
  const PerMinuteRate: real := 2.0
  const NightMultiplier: real := 1.25
  const SurgeMultiplier: real := 1.2
  const MinimumFare: real := 100.0

  /** What `new Date().getHours()` can return. */
  type Hour = h: int | 0 <= h < 24

  /** The breakdown the map hands to its caller. The two extra charges are
      present only when they are positive; `totalFare` is integral once it
      has been rounded up to a multiple of ten. */
  datatype FareBreakdown = FareBreakdown(
    baseFare: real,
    distanceFare: real,
    timeFare: real,
    totalFare: int,
    nightCharge: Option<real>,
    surgeCharge: Option<real>)

  /** 10 PM to 5 AM. */
  predicate IsNightTime(hour: Hour)
  {
    hour >= 22 || hour < 5
  }

  /** 8-10 AM and 5-8 PM, both ends included. */
  predicate IsPeakHour(hour: Hour)
  {
    (8 <= hour <= 10) || (17 <= hour <= 20)
  }

  /** `Math.ceil(x / 10) * 10`: the least multiple of ten at or above `x`. */
  function RoundUpToTen(x: real): (r: int)
    ensures r % 10 == 0
    ensures x <= r as real < x + 10.0
  {
    Ceil(x / 10.0) * 10
  }

  /** Base, distance and time fare added up, before any extra charge. */
  function Subtotal(distance: real, duration: real): real
  {
    BaseFare + Max(0.0, distance * PerKmRate) + duration * PerMinuteRate
  }

  /** The factor the time of day puts on the subtotal: one, plus a quarter at
      night, plus a fifth at peak hours. */
  function HourFactor(hour: Hour): (f: real)
    ensures f >= 1.0
  {
    1.0 + (if IsNightTime(hour) then 0.25 else 0.0) + (if IsPeakHour(hour) then 0.2 else 0.0)
  }

  /** The fare before the minimum and the rounding. */
  function ExactFare(distance: real, duration: real, hour: Hour): real
  {
    Subtotal(distance, duration) * HourFactor(hour)
  }

  function CalculateFare(distance: real, duration: real, hour: Hour): (r: FareBreakdown)
    ensures r.totalFare >= 100 && r.totalFare % 10 == 0
    ensures Max(ExactFare(distance, duration, hour), MinimumFare) <= r.totalFare as real
    ensures (r.totalFare - 10) as real < Max(ExactFare(distance, duration, hour), MinimumFare)
  {
    var baseFare := BaseFare;
    var distanceFare := Max(0.0, distance * PerKmRate);
    var timeFare := duration * PerMinuteRate;
    var nightCharge :=
      if IsNightTime(hour) then (baseFare + distanceFare + timeFare) * (NightMultiplier - 1.0) else 0.0;
    var surgeCharge :=
      if IsPeakHour(hour) then (baseFare + distanceFare + timeFare) * (SurgeMultiplier - 1.0) else 0.0;
    var totalFare := baseFare + distanceFare + timeFare + nightCharge + surgeCharge;
    var floored := Max(totalFare, MinimumFare);
    FareBreakdown(
      baseFare, distanceFare, timeFare, RoundUpToTen(floored),
      if nightCharge > 0.0 then Some(nightCharge) else None,
      if surgeCharge > 0.0 then Some(surgeCharge) else None)
  }

  /** No multiple of ten at or above the floored exact fare is below the total. */
  lemma TotalFareIsLeast(distance: real, duration: real, hour: Hour, k: int)
    requires k % 10 == 0
    requires Max(ExactFare(distance, duration, hour), MinimumFare) <= k as real
    ensures CalculateFare(distance, duration, hour).totalFare <= k
  {
    var t := CalculateFare(distance, duration, hour).totalFare;
    assert (t - 10) as real < k as real;
    assert t % 10 == 0;
  }

  /** The three components are fixed by the rates: 50, twelve per kilometre
      but never negative, and two per minute. */
  lemma FareComponents(distance: real, duration: real, hour: Hour)
    ensures CalculateFare(distance, duration, hour).baseFare == 50.0
    ensures CalculateFare(distance, duration, hour).distanceFare ==
            (if distance >= 0.0 then 12.0 * distance else 0.0)
    ensures CalculateFare(distance, duration, hour).timeFare == 2.0 * duration
  {
  }

  /** The night charge is a quarter of the subtotal, and is listed exactly
      when it is night and the subtotal is positive. */
  lemma NightChargeRule(distance: real, duration: real, hour: Hour)
    ensures CalculateFare(distance, duration, hour).nightCharge.Some? <==>
            IsNightTime(hour) && Subtotal(distance, duration) > 0.0
    ensures CalculateFare(distance, duration, hour).nightCharge.Some? ==>
            CalculateFare(distance, duration, hour).nightCharge.value == 0.25 * Subtotal(distance, duration)
  {
  }

  /** The surge charge is a fifth of the subtotal, and is listed exactly when
      it is a peak hour and the subtotal is positive. */
  lemma SurgeChargeRule(distance: real, duration: real, hour: Hour)
    ensures CalculateFare(distance, duration, hour).surgeCharge.Some? <==>
            IsPeakHour(hour) && Subtotal(distance, duration) > 0.0
    ensures CalculateFare(distance, duration, hour).surgeCharge.Some? ==>
            CalculateFare(distance, duration, hour).surgeCharge.value == 0.2 * Subtotal(distance, duration)
  {
  }

  /** For a non-negative duration (every duration the router produces), the
      subtotal is at least the base fare, so the charges follow the clock
      alone: night from 22:00 to 04:59, surge at 8-10 and 17-20. */
  lemma ChargesFollowTheClock(distance: real, duration: real, hour: Hour)
    requires duration >= 0.0
    ensures CalculateFare(distance, duration, hour).nightCharge.Some? <==> (hour >= 22 || hour < 5)
    ensures CalculateFare(distance, duration, hour).surgeCharge.Some? <==>
            ((8 <= hour <= 10) || (17 <= hour <= 20))
  {
    NightChargeRule(distance, duration, hour);
    SurgeChargeRule(distance, duration, hour);
  }

  /** The night and peak windows do not overlap, so at most one extra charge
      is ever listed. */
  lemma AtMostOneCharge(distance: real, duration: real, hour: Hour)
    ensures !(CalculateFare(distance, duration, hour).nightCharge.Some? &&
              CalculateFare(distance, duration, hour).surgeCharge.Some?)
  {
  }

  /** At a fixed hour, a longer or slower ride never costs less. */
  lemma FareMonotone(d1: real, t1: real, d2: real, t2: real, hour: Hour)
    requires d1 <= d2 && t1 <= t2
    ensures CalculateFare(d1, t1, hour).totalFare <= CalculateFare(d2, t2, hour).totalFare
  {
    var f := HourFactor(hour);
    var s1, s2 := Subtotal(d1, t1), Subtotal(d2, t2);
    assert Max(0.0, d1 * PerKmRate) <= Max(0.0, d2 * PerKmRate);
    assert s1 <= s2;
    assert s1 * f <= s2 * f;
    var m1, m2 := Max(ExactFare(d1, t1, hour), MinimumFare), Max(ExactFare(d2, t2, hour), MinimumFare);
    assert m1 <= m2;
    CeilMonotone(m1 / 10.0, m2 / 10.0);
  }

  /** An empty ride at noon pays the minimum fare and no extra charge. */
  lemma EmptyRideAtNoon()
    ensures CalculateFare(0.0, 0.0, 12) ==
            FareBreakdown(50.0, 0.0, 0.0, 100, None, None)
  {
  }

  /** 10 km in 20 minutes at 23:00: (50 + 120 + 40) * 1.25 = 262.5, rounded up to 270. */
  lemma NightRideExample()
    ensures CalculateFare(10.0, 20.0, 23) ==
            FareBreakdown(50.0, 120.0, 40.0, 270, Some(52.5), None)
  {
  }

  /** 10 km in 20 minutes at 09:00: (50 + 120 + 40) * 1.2 = 252, rounded up to 260. */
  lemma PeakRideExample()
    ensures CalculateFare(10.0, 20.0, 9) ==
            FareBreakdown(50.0, 120.0, 40.0, 260, None, Some(42.0))
  {
  }
}
