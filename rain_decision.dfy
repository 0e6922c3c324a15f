/**
  The ≤0.1 mm rain treatment rule of lib/calculation-test.ts, lifted from its
  constant mock data to any list of daily (rain, minimum temperature) readings
  and any cultivar temperature range [lo, hi]. Values are exact reals.
 */
module RainDecision {

  /** One day's measurement pair: rain in mm and minimum temperature in °C. */
  datatype DayReading = DayReading(rain: real, minTemp: real)

  /** The two answers the rule can give. */
  datatype Decision = Treatment | NoTreatment

  /** A day with at most this much rain (mm) rules treatment out; the bound is inclusive. */
  const LowRainLimit: real := 0.1

  /** Total rain (mm) over all days below this rules treatment out. */
  const MinTotalRain: real := 15.0

  /** The temperature range of the mock data (olive type HS), in °C. */
  const HsLow: real := 12.0
  const HsHigh: real := 18.0

  predicate IsLowRainDay(d: DayReading) {
    d.rain <= LowRainLimit
  }

  /** The `some` scan: true as soon as one day has rain ≤ 0.1 mm. */
  function HasLowRainDay(days: seq<DayReading>): (r: bool)
    ensures r <==> exists i :: 0 <= i < |days| && IsLowRainDay(days[i])
  {
    if days == [] then false
    else IsLowRainDay(days[0]) || HasLowRainDay(days[1..])
  }

  function Rainfall(d: DayReading): real { d.rain }

  function MinTemperature(d: DayReading): real { d.minTemp }

  /** `reduce((total, d) => total + f(d), 0)`: a left fold starting from zero. */
  function Sum(days: seq<DayReading>, f: DayReading -> real): real
  {
    if days == [] then 0.0 else Sum(days[..|days| - 1], f) + f(days[|days| - 1])
  }

  function TotalRain(days: seq<DayReading>): real {
    Sum(days, Rainfall)
  }

  function AverageTemp(days: seq<DayReading>): real
    requires |days| > 0
  {
    Sum(days, MinTemperature) / (|days| as real)
  }

  /**
    Reference definition of when treatment is recommended: no day is at or
    below the low-rain limit, the total reaches the minimum, and the average
    minimum temperature lies inside [lo, hi] (both ends included).
   */
  predicate EligibleForTreatment(days: seq<DayReading>, lo: real, hi: real) {
    (forall i :: 0 <= i < |days| ==> days[i].rain > LowRainLimit)
    && TotalRain(days) >= MinTotalRain
    && |days| > 0
    && lo <= AverageTemp(days) <= hi
  }

  /**
    The decision with its three ordered early exits. The average is only
    computed once the total has reached 15 mm, which an empty list cannot,
    so the division is never by zero (Dafny checks the divisor here).
   */
  function Decide(days: seq<DayReading>, lo: real, hi: real): (r: Decision)
    ensures r == Treatment <==> EligibleForTreatment(days, lo, hi)
    ensures HasLowRainDay(days) ==> r == NoTreatment
  {
    if HasLowRainDay(days) then NoTreatment
    else if TotalRain(days) < MinTotalRain then NoTreatment
    else
      var avg := AverageTemp(days);
      if avg > hi || avg < lo then NoTreatment else Treatment
  }

  /** A single day at or below 0.1 mm forces NO_TREATMENT, whatever the rest. */
  lemma LowRainDayForcesNoTreatment(days: seq<DayReading>, lo: real, hi: real, k: int)
    requires 0 <= k < |days| && days[k].rain <= LowRainLimit
    ensures Decide(days, lo, hi) == NoTreatment
  {
  }

  /** With no low-rain day, a total below 15 mm gives NO_TREATMENT. */
  lemma InsufficientRainGivesNoTreatment(days: seq<DayReading>, lo: real, hi: real)
    requires TotalRain(days) < MinTotalRain
    ensures Decide(days, lo, hi) == NoTreatment
  {
  }

  /** The empty list totals 0 mm, so it exits before the average is taken. */
  lemma EmptyReadingsGiveNoTreatment(lo: real, hi: real)
    ensures TotalRain([]) == 0.0
    ensures Decide([], lo, hi) == NoTreatment
  {
  }

  /** An average outside [lo, hi] gives NO_TREATMENT; an average on either end stays eligible. */
  lemma TemperatureRangeCheck(days: seq<DayReading>, lo: real, hi: real)
    requires !HasLowRainDay(days) && TotalRain(days) >= MinTotalRain
    ensures |days| > 0
    ensures Decide(days, lo, hi) == Treatment <==> lo <= AverageTemp(days) <= hi
  {
  }

  /** Boundary cases: 0.1 and 0.05 mm are low, 0.15 is not; exactly 15 mm and an average equal to lo or hi pass. */
  lemma BoundaryCases()
    ensures IsLowRainDay(DayReading(0.1, 12.0)) && IsLowRainDay(DayReading(0.05, 12.0))
    ensures !IsLowRainDay(DayReading(0.15, 12.0))
    ensures Decide([DayReading(15.0, 12.0)], HsLow, HsHigh) == Treatment
    ensures Decide([DayReading(7.5, 18.0), DayReading(7.5, 18.0)], HsLow, HsHigh) == Treatment
    ensures Decide([DayReading(7.5, 18.0), DayReading(7.4, 18.0)], HsLow, HsHigh) == NoTreatment
    ensures Decide([DayReading(15.0, 18.5)], HsLow, HsHigh) == NoTreatment
  {
  }

  /** Mock data of the first scenario: 5.0, 0.1 and 8.0 mm. */
  const MockDays: seq<DayReading> :=
    [DayReading(5.0, 15.0), DayReading(0.1, 12.0), DayReading(8.0, 18.0)]

  /** Second scenario: the middle day has 0.05 mm. */
  const MockDaysBelowLimit: seq<DayReading> :=
    [DayReading(5.0, 15.0), DayReading(0.05, 12.0), DayReading(8.0, 18.0)]

  /** Third scenario: the middle day has 0.15 mm. */
  const MockDaysAboveLimit: seq<DayReading> :=
    [DayReading(5.0, 15.0), DayReading(0.15, 12.0), DayReading(8.0, 18.0)]

  /**
    The three scenarios: the first two find a low-rain day (the first returns
    NO_TREATMENT), the third does not; carried on through the whole rule, the
    third's 13.15 mm total is still below 15 mm and gives NO_TREATMENT.
   */
  lemma MockScenarios()
    ensures HasLowRainDay(MockDays) && Decide(MockDays, HsLow, HsHigh) == NoTreatment
    ensures HasLowRainDay(MockDaysBelowLimit)
    ensures !HasLowRainDay(MockDaysAboveLimit)
    ensures TotalRain(MockDaysAboveLimit) == 13.15
    ensures Decide(MockDaysAboveLimit, HsLow, HsHigh) == NoTreatment
  {
    assert IsLowRainDay(MockDays[1]);
    assert IsLowRainDay(MockDaysBelowLimit[1]);
    var d0, d1, d2 := DayReading(5.0, 15.0), DayReading(0.15, 12.0), DayReading(8.0, 18.0);
    assert [d0][..0] == [] && [d0, d1][..1] == [d0] && MockDaysAboveLimit[..2] == [d0, d1];
    assert Sum([d0], Rainfall) == 5.0;
    assert Sum([d0, d1], Rainfall) == 5.15;
  }

  lemma {:induction false} SumAppend(u: seq<DayReading>, v: seq<DayReading>, f: DayReading -> real)
    ensures Sum(u + v, f) == Sum(u, f) + Sum(v, f)
    decreases |v|
  {
    if v == [] {
      assert u + v == u;
    } else {
      var w := v[..|v| - 1];
      assert (u + v)[..|u + v| - 1] == u + w;
      SumAppend(u, w, f);
    }
  }

  /** Taking out the reading at index j leaves the sum of the others. */
  lemma SumRemove(b: seq<DayReading>, j: int, f: DayReading -> real)
    requires 0 <= j < |b|
    ensures Sum(b, f) == Sum(b[..j] + b[j + 1..], f) + f(b[j])
  {
    assert b == b[..j] + ([b[j]] + b[j + 1..]);
    SumAppend(b[..j], [b[j]] + b[j + 1..], f);
    SumAppend([b[j]], b[j + 1..], f);
    SumAppend(b[..j], b[j + 1..], f);
    assert Sum([b[j]], f) == f(b[j]) by {
      assert [b[j]][..0] == [];
    }
  }

  lemma MultisetRemove(b: seq<DayReading>, j: int)
    requires 0 <= j < |b|
    ensures multiset(b[..j] + b[j + 1..]) == multiset(b) - multiset{b[j]}
  {
    assert b == b[..j] + [b[j]] + b[j + 1..];
  }

  /** A fold with `+` does not depend on the order of the readings. */
  lemma {:induction false} SumPermutation(a: seq<DayReading>, b: seq<DayReading>, f: DayReading -> real)
    requires multiset(a) == multiset(b)
    ensures Sum(a, f) == Sum(b, f)
    decreases |a|
  {
    if a == [] {
      assert |b| == |multiset(b)| == 0;
    } else {
      var n := |a| - 1;
      var x := a[n];
      assert x in multiset(b) by {
        assert x in a;
      }
      var j :| 0 <= j < |b| && b[j] == x;
      MultisetRemove(a, n);
      MultisetRemove(b, j);
      assert a[..n] + a[n + 1..] == a[..n];
      SumPermutation(a[..n], b[..j] + b[j + 1..], f);
      SumRemove(b, j, f);
    }
  }

  lemma LowRainDayCarriesOver(a: seq<DayReading>, b: seq<DayReading>)
    requires multiset(a) == multiset(b)
    ensures HasLowRainDay(a) ==> HasLowRainDay(b)
  {
    if HasLowRainDay(a) {
      var i :| 0 <= i < |a| && IsLowRainDay(a[i]);
      assert a[i] in multiset(b) by {
        assert a[i] in a;
      }
      var j :| 0 <= j < |b| && b[j] == a[i];
      assert IsLowRainDay(b[j]);
    }
  }

  /** Reordering the readings never changes the decision. */
  lemma DecideOrderIndependent(a: seq<DayReading>, b: seq<DayReading>, lo: real, hi: real)
    requires multiset(a) == multiset(b)
    ensures Decide(a, lo, hi) == Decide(b, lo, hi)
  {
    LowRainDayCarriesOver(a, b);
    LowRainDayCarriesOver(b, a);
    SumPermutation(a, b, Rainfall);
    SumPermutation(a, b, MinTemperature);
    assert |a| == |b| by {
      assert |multiset(a)| == |multiset(b)|;
    }
  }
}
