/** The tariff of the rental shop: the three billing bases, their periods and
    rates, and the number of billable units for an elapsed time. Time is in
    whole seconds. */
module Pricing {

  /** The billing basis a rental record names. `Other` stands for any
      non-empty basis string that is none of "hourly", "daily", "weekly". */
  datatype Basis = Hourly | Daily | Weekly | Other

  const HourlyRate: int := 5
  const DailyRate: int := 20
  const WeeklyRate: int := 60

  const HourSeconds: int := 3600
  const DaySeconds: int := 86400
  const WeekSeconds: int := 7 * 86400

  /** The bases the shop can bill. */
  predicate Known(b: Basis)
    ensures Known(b) <==> b in {Hourly, Daily, Weekly}
  {
    !b.Other?
  }

  /** Length in seconds of one billable unit of a known basis. */
  function Period(b: Basis): (p: int)
    requires Known(b)
    ensures p > 0
  {
    match b
    case Hourly => HourSeconds
    case Daily => DaySeconds
    case Weekly => WeekSeconds
  }

  /** Price of one billable unit of one car on a known basis. */
  function Rate(b: Basis): (r: int)
    requires Known(b)
    ensures r > 0
  {
    match b
    case Hourly => HourlyRate
    case Daily => DailyRate
    case Weekly => WeeklyRate
  }

  /** The ceiling of e / p for a positive p: the least q with e <= q * p. */
  function CeilDiv(e: int, p: int): (q: int)
    requires p > 0
    ensures e <= q * p
    ensures (q - 1) * p < e
  {
    -((-e) / p)
  }

  /** Billable units for an elapsed time: the ceiling of elapsed / period,
      but never fewer than one, even for a zero or negative elapsed time. */
  function Units(elapsed: int, period: int): (u: int)
    requires period > 0
    ensures u >= 1
    ensures elapsed <= u * period
    ensures u > 1 ==> (u - 1) * period < elapsed
  {
    var q := CeilDiv(elapsed, period);
    if q < 1 then 1 else q
  }

  /** Units is the only count of at least one whole period that covers the
      elapsed time and has no spare whole period. */
  lemma {:induction false} UnitsUnique(elapsed: int, period: int, k: int)
    requires period > 0
    requires k >= 1 && elapsed <= k * period
    requires k > 1 ==> (k - 1) * period < elapsed
    ensures Units(elapsed, period) == k
  {
    var u := Units(elapsed, period);
    if u < k {
      MulMonotone(u, k - 1, period);
    } else if u > k {
      MulMonotone(k, u - 1, period);
    }
  }

  /** Units is the least count of at least one whole period covering the
      elapsed time. */
  lemma {:induction false} UnitsLeast(elapsed: int, period: int, k: int)
    requires period > 0
    requires k >= 1 && elapsed <= k * period
    ensures Units(elapsed, period) <= k
  {
    var u := Units(elapsed, period);
    if u > k {
      MulMonotone(k, u - 1, period);
    }
  }

  /** Keeping cars longer never makes fewer billable units. */
  lemma {:induction false} UnitsMonotone(e1: int, e2: int, period: int)
    requires period > 0
    requires e1 <= e2
    ensures Units(e1, period) <= Units(e2, period)
  {
    UnitsLeast(e1, period, Units(e2, period));
  }

  /** Any rental of at most one period, including a zero or negative elapsed
      time, bills exactly one unit. */
  lemma {:induction false} AtMostOnePeriodIsOneUnit(elapsed: int, period: int)
    requires period > 0
    requires elapsed <= period
    ensures Units(elapsed, period) == 1
  {
    UnitsUnique(elapsed, period, 1);
  }

  /** Each further whole period adds exactly one billable unit, once the
      rental is longer than zero seconds. */
  lemma {:induction false} ExtraPeriodAddsUnit(elapsed: int, period: int)
    requires period > 0
    requires elapsed > 0
    ensures Units(elapsed + period, period) == Units(elapsed, period) + 1
  {
    var u := Units(elapsed, period);
    if u == 1 {
      assert 0 < elapsed <= period;
    }
    UnitsUnique(elapsed + period, period, u + 1);
  }

  /** The tariff table: (period, rate) is (3600, 5) hourly, (86400, 20)
      daily and (604800, 60) weekly. */
  lemma Tariff()
    ensures Period(Hourly) == 3600 && Rate(Hourly) == 5
    ensures Period(Daily) == 86400 && Rate(Daily) == 20
    ensures Period(Weekly) == 604800 && Rate(Weekly) == 60
  {
  }

  /** The worked example: 25 hours on the daily basis with 3 cars bills 120. */
  lemma TwentyFiveHoursDaily()
    ensures Units(25 * HourSeconds, Period(Daily)) * Rate(Daily) * 3 == 120
  {
    UnitsUnique(25 * HourSeconds, DaySeconds, 2);
  }

  /** Multiplying by a positive period keeps order. The calls to it keep the
      nonlinear steps of UnitsUnique and UnitsLeast small: without them the
      solver's search for those steps is costly. */
  lemma MulMonotone(a: int, b: int, p: int)
    requires a <= b && p > 0
    ensures a * p <= b * p
  {
  }
}
