/** The period totals and period-over-period comparison of
    src/pages/Overview.tsx. The "previous period" is synthesised from the
    current totals with a multiplier drawn from a seeded hash, so that the
    comparison stays the same on every render of the same date range.

    `Math.sin` is a parameter `sin`: nothing is assumed about it. */
module Overview {
  import opened MockData

  // ---------------------------------------------------------------------------
  // Seeded previous-period multiplier
  // ---------------------------------------------------------------------------

  /** `seededRandom`: the fractional part of `sin(seed) * 10000`. */
  function SeededRandom(sin: real -> real, seed: int): (r: real)
    ensures 0.0 <= r < 1.0
  {
    var x := sin(seed as real) * 10000.0;
    x - x.Floor as real
  }

  /** `generatePreviousPeriodMultiplier`: a stable factor in [0.92, 1.07). */
  function PreviousPeriodMultiplier(sin: real -> real, seed: int, index: int): (m: real)
    ensures 0.92 <= m < 1.07
  {
    0.92 + SeededRandom(sin, seed + index) * 0.15
  }

  /** The multiplier depends on the seed and the index only through their
      sum: it is the same on every call with the same pair. */
  lemma MultiplierDependsOnSum(sin: real -> real, seed1: int, index1: int, seed2: int, index2: int)
    requires seed1 + index1 == seed2 + index2
    ensures PreviousPeriodMultiplier(sin, seed1, index1) == PreviousPeriodMultiplier(sin, seed2, index2)
  {
  }

  // ---------------------------------------------------------------------------
  // Totals
  // ---------------------------------------------------------------------------

  /** The eight sums of `calculateTotals`. */
  datatype Totals = Totals(
    grossPaymentVolume: int,
    grossPaymentCount: int,
    totalPaymentVolume: int,
    totalPaymentCount: int,
    grossWithdrawalsVolume: int,
    grossWithdrawalsCount: int,
    totalWithdrawalsVolume: int,
    totalWithdrawalsCount: int)

  /** The field each total sums, in the order of the source (1 to 8). */
  function TotalField(k: int): IntField
    requires 1 <= k <= 8
  {
    match k
    case 1 => GrossPaymentVolume
    case 2 => GrossPaymentCount
    case 3 => TotalPaymentVolume
    case 4 => TotalPaymentCount
    case 5 => GrossWithdrawalsVolume
    case 6 => GrossWithdrawalsCount
    case 7 => TotalWithdrawalsVolume
    case _ => TotalWithdrawalsCount
  }

  function TotalAt(t: Totals, k: int): int
    requires 1 <= k <= 8
  {
    match k
    case 1 => t.grossPaymentVolume
    case 2 => t.grossPaymentCount
    case 3 => t.totalPaymentVolume
    case 4 => t.totalPaymentCount
    case 5 => t.grossWithdrawalsVolume
    case 6 => t.grossWithdrawalsCount
    case 7 => t.totalWithdrawalsVolume
    case _ => t.totalWithdrawalsCount
  }

  /** `calculateTotals`: one reduction per volume and count field. */
  function CalculateTotals(data: seq<DailyMetrics>): (t: Totals)
    ensures forall k :: 1 <= k <= 8 ==> TotalAt(t, k) == Sum(data, TotalField(k))
  {
    Totals(
      grossPaymentVolume := Sum(data, GrossPaymentVolume),
      grossPaymentCount := Sum(data, GrossPaymentCount),
      totalPaymentVolume := Sum(data, TotalPaymentVolume),
      totalPaymentCount := Sum(data, TotalPaymentCount),
      grossWithdrawalsVolume := Sum(data, GrossWithdrawalsVolume),
      grossWithdrawalsCount := Sum(data, GrossWithdrawalsCount),
      totalWithdrawalsVolume := Sum(data, TotalWithdrawalsVolume),
      totalWithdrawalsCount := Sum(data, TotalWithdrawalsCount))
  }

  function AddTotals(a: Totals, b: Totals): (t: Totals)
    ensures forall k :: 1 <= k <= 8 ==> TotalAt(t, k) == TotalAt(a, k) + TotalAt(b, k)
  {
    Totals(
      a.grossPaymentVolume + b.grossPaymentVolume,
      a.grossPaymentCount + b.grossPaymentCount,
      a.totalPaymentVolume + b.totalPaymentVolume,
      a.totalPaymentCount + b.totalPaymentCount,
      a.grossWithdrawalsVolume + b.grossWithdrawalsVolume,
      a.grossWithdrawalsCount + b.grossWithdrawalsCount,
      a.totalWithdrawalsVolume + b.totalWithdrawalsVolume,
      a.totalWithdrawalsCount + b.totalWithdrawalsCount)
  }

  /** The totals of no days are all zero. */
  lemma CalculateTotalsEmpty()
    ensures CalculateTotals([]) == Totals(0, 0, 0, 0, 0, 0, 0, 0)
  {
  }

  /** Totals are additive over concatenation, field by field. */
  lemma CalculateTotalsAppend(a: seq<DailyMetrics>, b: seq<DailyMetrics>)
    ensures CalculateTotals(a + b) == AddTotals(CalculateTotals(a), CalculateTotals(b))
  {
    forall f: IntField ensures Sum(a + b, f) == Sum(a, f) + Sum(b, f) {
      SumAppend(a, b, f);
    }
  }

  /** Over generated records, the successful totals never exceed the gross
      ones, and every total is non-negative. */
  lemma TotalsRespectSubsets(data: seq<DailyMetrics>)
    requires forall k :: 0 <= k < |data| ==> WellFormed(data[k])
    ensures var t := CalculateTotals(data);
      && t.totalPaymentCount <= t.grossPaymentCount
      && t.totalWithdrawalsCount <= t.grossWithdrawalsCount
      && forall k :: 1 <= k <= 8 ==> TotalAt(t, k) >= 0
  {
    forall k | 0 <= k < |data|
      ensures Get(data[k], TotalPaymentCount) <= Get(data[k], GrossPaymentCount)
      ensures Get(data[k], TotalWithdrawalsCount) <= Get(data[k], GrossWithdrawalsCount)
      ensures forall j :: 1 <= j <= 8 ==> 0 <= Get(data[k], TotalField(j))
    {
      assert WellFormed(data[k]);
    }
    SumMonotone(data, TotalPaymentCount, GrossPaymentCount);
    SumMonotone(data, TotalWithdrawalsCount, GrossWithdrawalsCount);
    forall j | 1 <= j <= 8 ensures Sum(data, TotalField(j)) >= 0 {
      SumLowerBound(data, TotalField(j), 0);
    }
  }

  // ---------------------------------------------------------------------------
  // Percentage change and trend
  // ---------------------------------------------------------------------------

  /** `calculatePercentageChange`: the relative change in percent, and 0 when
      there is nothing to compare against. */
  function CalculatePercentageChange(current: real, previous: real): (c: real)
    ensures previous == 0.0 ==> c == 0.0
    ensures previous != 0.0 ==> c * previous == (current - previous) * 100.0
  {
    if previous == 0.0 then 0.0 else (current - previous) / previous * 100.0
  }

  lemma PercentageChangeExamples()
    ensures CalculatePercentageChange(100.0, 100.0) == 0.0
    ensures CalculatePercentageChange(150.0, 100.0) == 50.0
    ensures CalculatePercentageChange(50.0, 0.0) == 0.0
  {
  }

  /** Against a positive previous value the change is positive exactly when
      the value grew. */
  lemma PercentageChangeSign(current: real, previous: real)
    requires previous > 0.0
    ensures CalculatePercentageChange(current, previous) > 0.0 <==> current > previous
    ensures CalculatePercentageChange(current, previous) < 0.0 <==> current < previous
  {
    var c := CalculatePercentageChange(current, previous);
    assert c * previous == (current - previous) * 100.0;
  }

  /** The mock summary comparison divides like `calculatePercentageChange`
      wherever its denominators are non-zero. */
  lemma CompareAgreesWithPercentageChange(current: PeriodSummary, previous: PeriodSummary)
    requires previous.totalRevenue != 0 && previous.totalTransactions != 0
    requires previous.avgTransactionAmount != 0.0
    ensures var c := Compare(current, previous);
      && c.revenueChange
         == CalculatePercentageChange(current.totalRevenue as real, previous.totalRevenue as real)
      && c.transactionsChange
         == CalculatePercentageChange(current.totalTransactions as real, previous.totalTransactions as real)
      && c.avgAmountChange
         == CalculatePercentageChange(current.avgTransactionAmount, previous.avgTransactionAmount)
  {
  }

  datatype Trend = Up | Down | Neutral

  /** `getTrend`: a change beyond one percent either way is a trend. */
  function GetTrend(change: real): (t: Trend)
    ensures t == Up <==> change > 1.0
    ensures t == Down <==> change < -1.0
    ensures t == Neutral <==> -1.0 <= change <= 1.0
  {
    if change > 1.0 then Up else if change < -1.0 then Down else Neutral
  }

  /** The trend of a change, in terms of the two values compared: up when the
      value grew by more than 1%, down when it shrank by more than 1%. */
  lemma TrendOfChange(current: real, previous: real)
    requires previous > 0.0
    ensures GetTrend(CalculatePercentageChange(current, previous)) == Up
            <==> 100.0 * current > 101.0 * previous
    ensures GetTrend(CalculatePercentageChange(current, previous)) == Down
            <==> 100.0 * current < 99.0 * previous
  {
    var c := CalculatePercentageChange(current, previous);
    SignOfScaled(c - 1.0, previous, c * previous - previous);
    SignOfScaled(c + 1.0, previous, c * previous + previous);
  }

  /** Scaling by a positive factor keeps the sign. */
  lemma SignOfScaled(x: real, p: real, xp: real)
    requires 0.0 < p && xp == x * p
    ensures x > 0.0 <==> xp > 0.0
    ensures x < 0.0 <==> xp < 0.0
  {
    if x > 0.0 {
      assert xp > 0.0;
    } else if x < 0.0 {
      assert (-x) * p > 0.0;
    }
  }

  // ---------------------------------------------------------------------------
  // Date ranges, previous period and changes
  // ---------------------------------------------------------------------------

  datatype DateRange = Last7 | Last30 | Last90 | Custom

  /** `seedByRange`. */
  function SeedByRange(range: DateRange): (seed: int)
    ensures range == Custom ==> seed == 30
  {
    match range
    case Last7 => 7
    case Last30 => 30
    case Last90 => 90
    case Custom => 30
  }

  /** `dataByRange`, over the three module-level series. */
  function DataByRange(range: DateRange, last7: seq<DailyMetrics>, last30: seq<DailyMetrics>,
                       last90: seq<DailyMetrics>): (data: seq<DailyMetrics>)
    ensures range == Custom ==> data == last30
  {
    match range
    case Last7 => last7
    case Last30 => last30
    case Last90 => last90
    case Custom => last30
  }

  /** The synthesised previous-period values; real, since they are not floored. */
  datatype PreviousPeriod = PreviousPeriod(
    grossPaymentVolume: real,
    grossPaymentCount: real,
    totalPaymentVolume: real,
    totalPaymentCount: real,
    grossWithdrawalsVolume: real,
    grossWithdrawalsCount: real,
    totalWithdrawalsVolume: real,
    totalWithdrawalsCount: real)

  function PreviousAt(p: PreviousPeriod, k: int): real
    requires 1 <= k <= 8
  {
    match k
    case 1 => p.grossPaymentVolume
    case 2 => p.grossPaymentCount
    case 3 => p.totalPaymentVolume
    case 4 => p.totalPaymentCount
    case 5 => p.grossWithdrawalsVolume
    case 6 => p.grossWithdrawalsCount
    case 7 => p.totalWithdrawalsVolume
    case _ => p.totalWithdrawalsCount
  }

  /** Previous value `k`: current total `k` scaled by the multiplier for
      `(seed, k)`, the expression each field of `previousPeriod` is. */
  function PreviousValue(sin: real -> real, seed: int, current: Totals, k: int): real
    requires 1 <= k <= 8
  {
    TotalAt(current, k) as real * PreviousPeriodMultiplier(sin, seed, k)
  }

  /** The `previousPeriod` memo for the seed of the selected range, built
      field by field in the source's order. */
  function PreviousPeriodOf(sin: real -> real, seed: int, current: Totals): (p: PreviousPeriod)
    ensures forall k :: 1 <= k <= 8 ==> PreviousAt(p, k) == PreviousValue(sin, seed, current, k)
  {
    PreviousPeriod(
      grossPaymentVolume := PreviousValue(sin, seed, current, 1),
      grossPaymentCount := PreviousValue(sin, seed, current, 2),
      totalPaymentVolume := PreviousValue(sin, seed, current, 3),
      totalPaymentCount := PreviousValue(sin, seed, current, 4),
      grossWithdrawalsVolume := PreviousValue(sin, seed, current, 5),
      grossWithdrawalsCount := PreviousValue(sin, seed, current, 6),
      totalWithdrawalsVolume := PreviousValue(sin, seed, current, 7),
      totalWithdrawalsCount := PreviousValue(sin, seed, current, 8))
  }

  /** Each synthesised previous value of a non-negative total lies between
      92% and 107% of it. */
  lemma PreviousPeriodBounds(sin: real -> real, seed: int, current: Totals)
    ensures var p := PreviousPeriodOf(sin, seed, current);
      forall k :: 1 <= k <= 8 && TotalAt(current, k) >= 0 ==>
        0.92 * TotalAt(current, k) as real <= PreviousAt(p, k) <= 1.07 * TotalAt(current, k) as real
  {
    forall k | 1 <= k <= 8 && TotalAt(current, k) >= 0 {
      PreviousAtBounded(sin, seed, current, k);
    }
  }

  lemma PreviousAtBounded(sin: real -> real, seed: int, current: Totals, k: int)
    requires 1 <= k <= 8 && TotalAt(current, k) >= 0
    ensures var c := TotalAt(current, k) as real;
      0.92 * c <= PreviousAt(PreviousPeriodOf(sin, seed, current), k) <= 1.07 * c
  {
    var c := TotalAt(current, k) as real;
    var m := PreviousPeriodMultiplier(sin, seed, k);
    var prev := PreviousValue(sin, seed, current, k);
    assert PreviousAt(PreviousPeriodOf(sin, seed, current), k) == prev;
    ScaledBetween(c, m, prev);
  }

  lemma ScaledBetween(c: real, m: real, p: real)
    requires 0.0 <= c && 0.92 <= m < 1.07 && p == c * m
    ensures 0.92 * c <= p <= 1.07 * c
  {
    if c > 0.0 {
      ProductBounds(c, m, 0.92, 1.07);
    }
  }

  /** The eight percentage changes of the `changes` memo. */
  datatype Changes = Changes(
    grossPaymentVolumeChange: real,
    grossPaymentCountChange: real,
    totalPaymentVolumeChange: real,
    totalPaymentCountChange: real,
    grossWithdrawalsVolumeChange: real,
    grossWithdrawalsCountChange: real,
    totalWithdrawalsVolumeChange: real,
    totalWithdrawalsCountChange: real)

  function ChangeAt(c: Changes, k: int): real
    requires 1 <= k <= 8
  {
    match k
    case 1 => c.grossPaymentVolumeChange
    case 2 => c.grossPaymentCountChange
    case 3 => c.totalPaymentVolumeChange
    case 4 => c.totalPaymentCountChange
    case 5 => c.grossWithdrawalsVolumeChange
    case 6 => c.grossWithdrawalsCountChange
    case 7 => c.totalWithdrawalsVolumeChange
    case _ => c.totalWithdrawalsCountChange
  }

  function ChangesOf(current: Totals, previous: PreviousPeriod): (c: Changes)
    ensures forall k :: 1 <= k <= 8 ==>
      ChangeAt(c, k) == CalculatePercentageChange(TotalAt(current, k) as real, PreviousAt(previous, k))
  {
    Changes(
      CalculatePercentageChange(current.grossPaymentVolume as real, previous.grossPaymentVolume),
      CalculatePercentageChange(current.grossPaymentCount as real, previous.grossPaymentCount),
      CalculatePercentageChange(current.totalPaymentVolume as real, previous.totalPaymentVolume),
      CalculatePercentageChange(current.totalPaymentCount as real, previous.totalPaymentCount),
      CalculatePercentageChange(current.grossWithdrawalsVolume as real, previous.grossWithdrawalsVolume),
      CalculatePercentageChange(current.grossWithdrawalsCount as real, previous.grossWithdrawalsCount),
      CalculatePercentageChange(current.totalWithdrawalsVolume as real, previous.totalWithdrawalsVolume),
      CalculatePercentageChange(current.totalWithdrawalsCount as real, previous.totalWithdrawalsCount))
  }

  /** What the Overview page computes for a selected range. */
  datatype View = View(current: Totals, previous: PreviousPeriod, changes: Changes)

  function OverviewFor(sin: real -> real, range: DateRange, last7: seq<DailyMetrics>,
                       last30: seq<DailyMetrics>, last90: seq<DailyMetrics>): (v: View)
    ensures forall k :: 1 <= k <= 8 ==>
      TotalAt(v.current, k) == Sum(DataByRange(range, last7, last30, last90), TotalField(k))
    ensures forall k :: 1 <= k <= 8 ==>
      PreviousAt(v.previous, k) == PreviousValue(sin, SeedByRange(range), v.current, k)
    ensures forall k :: 1 <= k <= 8 ==>
      ChangeAt(v.changes, k) == CalculatePercentageChange(TotalAt(v.current, k) as real, PreviousAt(v.previous, k))
  {
    var current := CalculateTotals(DataByRange(range, last7, last30, last90));
    var previous := PreviousPeriodOf(sin, SeedByRange(range), current);
    View(current, previous, ChangesOf(current, previous))
  }

  /** The custom range shows exactly what the 30-day range shows. */
  lemma CustomMatchesThirtyDays(sin: real -> real, last7: seq<DailyMetrics>,
                                last30: seq<DailyMetrics>, last90: seq<DailyMetrics>)
    ensures OverviewFor(sin, Custom, last7, last30, last90) == OverviewFor(sin, Last30, last7, last30, last90)
  {
  }

  /** A value compared with itself scaled by a factor in [0.92, 1.07) changes
      by more than -7% and less than +9%. */
  lemma ChangeOfScaled(c: real, m: real, p: real)
    requires 0.0 < c && 0.92 <= m < 1.07 && p == c * m
    ensures -7.0 < CalculatePercentageChange(c, p) < 9.0
  {
    ScaledWithin(c, m, p);
    ChangeWithin(c, p);
  }

  lemma ScaledWithin(c: real, m: real, p: real)
    requires 0.0 < c && 0.92 <= m < 1.07 && p == c * m
    ensures 0.92 * c <= p < 1.07 * c
  {
    ProductBounds(c, m, 0.92, 1.07);
  }

  lemma ChangeWithin(c: real, p: real)
    requires 0.0 < c && 0.92 * c <= p < 1.07 * c
    ensures -7.0 < CalculatePercentageChange(c, p) < 9.0
  {
    QuotientBounds(c - p, p, -0.068, 0.09);
  }

  /** On the page, every change badge over generated data reads 0 for a zero
      total and stays within (-7%, +9%) otherwise: the previous period is the
      current one scaled by a multiplier in [0.92, 1.07). */
  lemma ChangesBounded(sin: real -> real, range: DateRange, current: Totals)
    requires forall k :: 1 <= k <= 8 ==> TotalAt(current, k) >= 0
    ensures var ch := ChangesOf(current, PreviousPeriodOf(sin, SeedByRange(range), current));
      forall k :: 1 <= k <= 8 ==>
        && (TotalAt(current, k) == 0 ==> ChangeAt(ch, k) == 0.0)
        && (TotalAt(current, k) > 0 ==> -7.0 < ChangeAt(ch, k) < 9.0)
  {
    forall k | 1 <= k <= 8 {
      ChangeAtBounded(sin, SeedByRange(range), current, k);
    }
  }

  lemma ChangeAtBounded(sin: real -> real, seed: int, current: Totals, k: int)
    requires 1 <= k <= 8 && TotalAt(current, k) >= 0
    ensures var ch := ChangesOf(current, PreviousPeriodOf(sin, seed, current));
      && (TotalAt(current, k) == 0 ==> ChangeAt(ch, k) == 0.0)
      && (TotalAt(current, k) > 0 ==> -7.0 < ChangeAt(ch, k) < 9.0)
  {
    PreviousAtScaled(sin, seed, current, k);
    ChangeOfPrevious(TotalAt(current, k) as real, PreviousPeriodMultiplier(sin, seed, k),
                     PreviousAt(PreviousPeriodOf(sin, seed, current), k));
  }

  /** Every previous value is its current total times its multiplier. */
  lemma PreviousPeriodScaled(sin: real -> real, seed: int, current: Totals)
    ensures forall k :: 1 <= k <= 8 ==>
      PreviousAt(PreviousPeriodOf(sin, seed, current), k)
      == TotalAt(current, k) as real * PreviousPeriodMultiplier(sin, seed, k)
  {
    forall k | 1 <= k <= 8 {
      PreviousAtScaled(sin, seed, current, k);
    }
  }

  lemma PreviousAtScaled(sin: real -> real, seed: int, current: Totals, k: int)
    requires 1 <= k <= 8
    ensures PreviousAt(PreviousPeriodOf(sin, seed, current), k)
            == TotalAt(current, k) as real * PreviousPeriodMultiplier(sin, seed, k)
  {
  }

  /** The change of a non-negative total against its scaled previous value. */
  lemma ChangeOfPrevious(c: real, m: real, prev: real)
    requires 0.0 <= c && 0.92 <= m < 1.07 && prev == c * m
    ensures c == 0.0 ==> CalculatePercentageChange(c, prev) == 0.0
    ensures c > 0.0 ==> -7.0 < CalculatePercentageChange(c, prev) < 9.0
  {
    if c > 0.0 {
      ChangeOfScaled(c, m, prev);
    }
  }

  /** Every record of every range is generated. */
  predicate AllWellFormed(data: seq<DailyMetrics>)
  {
    forall k :: 0 <= k < |data| ==> WellFormed(data[k])
  }

  /** End to end: whatever range is selected over generated series, every
      change badge on the page reads 0 (no volume at all) or lies strictly
      between -7% and +9%. */
  lemma OverviewChangesBounded(sin: real -> real, range: DateRange, last7: seq<DailyMetrics>,
                               last30: seq<DailyMetrics>, last90: seq<DailyMetrics>)
    requires AllWellFormed(last7) && AllWellFormed(last30) && AllWellFormed(last90)
    ensures var v := OverviewFor(sin, range, last7, last30, last90);
      forall k :: 1 <= k <= 8 ==>
        && (TotalAt(v.current, k) == 0 ==> ChangeAt(v.changes, k) == 0.0)
        && (TotalAt(v.current, k) > 0 ==> -7.0 < ChangeAt(v.changes, k) < 9.0)
  {
    var data := DataByRange(range, last7, last30, last90);
    assert AllWellFormed(data);
    TotalsRespectSubsets(data);
    ChangesBounded(sin, range, CalculateTotals(data));
  }
}
