/** The synthetic daily payment metrics of src/lib/mockData.ts: one record per
    day, built from uniform draws, and the fixed-window summaries built on them.

    `Math.random()` is replaced by an explicit sequence of draws in [0, 1),
    consumed twelve per day in the order the source reads them; the calendar
    date is replaced by its offset in days before "today". */
module MockData {

  // ---------------------------------------------------------------------------
  // Records
  // ---------------------------------------------------------------------------

  /** One day of metrics (the `DailyMetrics` interface); `daysAgo` stands for
      the date `today - daysAgo days`. */
  datatype DailyMetrics = DailyMetrics(
    daysAgo: nat,
    revenue: int,
    transactions: int,
    successRate: real,
    avgTransactionAmount: real,
    failedTransactions: int,
    grossPaymentVolume: int,
    grossPaymentCount: int,
    totalPaymentVolume: int,
    totalPaymentCount: int,
    grossWithdrawalsVolume: int,
    grossWithdrawalsCount: int,
    totalWithdrawalsVolume: int,
    totalWithdrawalsCount: int,
    grossSuccessRate: real,
    netSuccessRate: real,
    allAttempts: int,
    successfulAttempts: int,
    hardDeclines: int)

  /** The integer-valued fields of a record, so that a sum over "one field"
      (`data.reduce((sum, day) => sum + day.f, 0)`) can be written once. */
  datatype IntField =
    | Revenue | Transactions | FailedTransactions
    | GrossPaymentVolume | GrossPaymentCount | TotalPaymentVolume | TotalPaymentCount
    | GrossWithdrawalsVolume | GrossWithdrawalsCount | TotalWithdrawalsVolume | TotalWithdrawalsCount
    | AllAttempts | SuccessfulAttempts | HardDeclines

  /** The real-valued (two-decimal) fields of a record. */
  datatype RealField = SuccessRate | AvgTransactionAmount | GrossSuccessRate | NetSuccessRate

  function Get(d: DailyMetrics, f: IntField): int
  {
    match f
    case Revenue => d.revenue
    case Transactions => d.transactions
    case FailedTransactions => d.failedTransactions
    case GrossPaymentVolume => d.grossPaymentVolume
    case GrossPaymentCount => d.grossPaymentCount
    case TotalPaymentVolume => d.totalPaymentVolume
    case TotalPaymentCount => d.totalPaymentCount
    case GrossWithdrawalsVolume => d.grossWithdrawalsVolume
    case GrossWithdrawalsCount => d.grossWithdrawalsCount
    case TotalWithdrawalsVolume => d.totalWithdrawalsVolume
    case TotalWithdrawalsCount => d.totalWithdrawalsCount
    case AllAttempts => d.allAttempts
    case SuccessfulAttempts => d.successfulAttempts
    case HardDeclines => d.hardDeclines
  }

  function GetReal(d: DailyMetrics, f: RealField): real
  {
    match f
    case SuccessRate => d.successRate
    case AvgTransactionAmount => d.avgTransactionAmount
    case GrossSuccessRate => d.grossSuccessRate
    case NetSuccessRate => d.netSuccessRate
  }

  // ---------------------------------------------------------------------------
  // Arithmetic helpers
  // ---------------------------------------------------------------------------

  /** `Math.floor(x * 100) / 100`: x cut down to whole hundredths. */
  function Floor2(x: real): (r: real)
    ensures r <= x < r + 0.01
    ensures (r * 100.0).Floor as real == r * 100.0
  {
    (x * 100.0).Floor as real / 100.0
  }

  lemma Floor2Monotone(x: real, y: real)
    requires x <= y
    ensures Floor2(x) <= Floor2(y)
  {
    assert (x * 100.0).Floor <= (y * 100.0).Floor;
  }

  /** `k = floor(n * f)` for a factor `f` in `[lo, hi)`: the share of `n` that
      `k` stands for is at least `lo` (up to the one unit the floor drops) and
      below `hi`. */
  predicate Share(k: int, n: int, lo: real, hi: real)
  {
    n as real * lo - 1.0 < k as real < n as real * hi
  }

  lemma ProductBounds(x: real, f: real, lo: real, hi: real)
    requires 0.0 < x && lo <= f < hi
    ensures x * lo <= x * f < x * hi
  {
    assert x * (f - lo) >= 0.0;
    assert x * (hi - f) > 0.0;
  }

  lemma ScaledFloor(n: int, f: real, lo: real, hi: real)
    requires 0 < n && lo <= f < hi
    ensures Share((n as real * f).Floor, n, lo, hi)
  {
    ProductBounds(n as real, f, lo, hi);
  }

  lemma QuotientBounds(a: real, b: real, lo: real, hi: real)
    requires 0.0 < b && lo * b <= a < hi * b
    ensures lo <= a / b < hi
  {
    var q := a / b;
    assert q * b == a;
    assert (q - lo) * b >= 0.0;
    assert (hi - q) * b > 0.0;
  }

  lemma RatioBounds(s: real, b: real)
    requires 0.0 <= s && 0.0 < b
    ensures 0.0 <= s / b
    ensures s <= b ==> s / b <= 1.0
  {
    var q := s / b;
    assert q * b == s;
    assert (1.0 - q) * b == b - s;
  }

  /** A smaller denominator gives a larger ratio. */
  lemma RatioAntitone(s: real, b1: real, b2: real)
    requires 0.0 <= s && 0.0 < b1 <= b2
    ensures s / b2 <= s / b1
  {
    var q1, q2 := s / b1, s / b2;
    assert q1 * b1 == s && q2 * b2 == s;
    assert q2 * b1 <= q2 * b2;
    assert (q1 - q2) * b1 >= 0.0;
  }

  // ---------------------------------------------------------------------------
  // One day
  // ---------------------------------------------------------------------------

  const DrawsPerDay: nat := 12

  predicate IsDraw(r: real) { 0.0 <= r < 1.0 }

  /** Every element is a possible result of `Math.random()`. */
  predicate ValidDraws(draws: seq<real>)
  {
    forall i :: 0 <= i < |draws| ==> IsDraw(draws[i])
  }

  /** `base + Math.random() * width`. */
  function Uniform(r: real, base: real, width: real): (x: real)
    requires IsDraw(r) && 0.0 < width
    ensures base <= x < base + width
  {
    ProductBounds(width, r, 0.0, 1.0);
    base + r * width
  }

  /** `Math.floor(n * (base + Math.random() * width))`: a floored share of the
      count `n` with a uniformly drawn factor. */
  function FloorScale(n: int, r: real, base: real, width: real): (k: int)
    requires 0 < n && IsDraw(r) && 0.0 < width
    ensures Share(k, n, base, base + width)
  {
    var f := Uniform(r, base, width);
    ScaledFloor(n, f, base, base + width);
    (n as real * f).Floor
  }

  /** `Math.floor(baseTransactions * (1 - successRate / 100))`: the number of
      transactions the success rate leaves failed. */
  function FailedCount(baseTransactions: real, successRate: real): (k: int)
    requires 0.0 < baseTransactions && 0.0 <= successRate <= 100.0
    ensures 0 <= k <= baseTransactions.Floor
  {
    var factor := 1.0 - successRate / 100.0;
    var failed := baseTransactions * factor;
    FractionOf(baseTransactions, factor, failed);
    failed.Floor
  }

  /** A fraction in [0, 1] of a positive amount lies between 0 and the amount. */
  lemma FractionOf(x: real, f: real, p: real)
    requires 0.0 < x && 0.0 <= f <= 1.0 && p == x * f
    ensures 0.0 <= p <= x
  {
    if f < 1.0 {
      ProductBounds(x, f, 0.0, 1.0);
    }
  }

  /** `Math.floor((successful / attempts) * 100 * 100) / 100`: a success rate in
      percent, cut to two decimals. */
  function AttemptRate(successful: int, attempts: int): (x: real)
    requires 0 <= successful && 0 < attempts
    ensures 0.0 <= x
    ensures successful <= attempts ==> x <= 100.0
  {
    var q := successful as real / attempts as real;
    RatioBounds(successful as real, attempts as real);
    Floor2(q * 100.0)
  }

  /** Rates over the same successes: dividing by fewer attempts gives a rate
      at least as high. */
  lemma AttemptRateAntitone(successful: int, fewer: int, attempts: int)
    requires 0 <= successful && 0 < fewer <= attempts
    ensures AttemptRate(successful, attempts) <= AttemptRate(successful, fewer)
  {
    RatioAntitone(successful as real, fewer as real, attempts as real);
    Floor2Monotone(successful as real / attempts as real * 100.0, successful as real / fewer as real * 100.0);
  }

  /** The bounds and relations every generated record satisfies. */
  predicate WellFormed(d: DailyMetrics)
  {
    && 45000 <= d.revenue < 70000
    && 800 <= d.transactions < 1200
    && 92.0 <= d.successRate < 99.0
    && 0 <= d.failedTransactions <= d.transactions
    && 37.5 <= d.avgTransactionAmount < 87.5
    // payments: 85-97% of the attempted count succeeds
    && 1200 <= d.grossPaymentCount < 1800
    && Share(d.totalPaymentCount, d.grossPaymentCount, 0.85, 0.97)
    && 0 <= d.totalPaymentCount <= d.grossPaymentCount
    && Share(d.grossPaymentVolume, d.grossPaymentCount, 150.0, 250.0)
    && Share(d.totalPaymentVolume, d.totalPaymentCount, 150.0, 250.0)
    // withdrawals: 88-98% is paid in full
    && 300 <= d.grossWithdrawalsCount < 500
    && Share(d.totalWithdrawalsCount, d.grossWithdrawalsCount, 0.88, 0.98)
    && 0 <= d.totalWithdrawalsCount <= d.grossWithdrawalsCount
    && Share(d.grossWithdrawalsVolume, d.grossWithdrawalsCount, 200.0, 350.0)
    && Share(d.totalWithdrawalsVolume, d.totalWithdrawalsCount, 200.0, 350.0)
    // attempts: 3-5% are hard declines
    && d.allAttempts == d.grossPaymentCount
    && d.successfulAttempts == d.totalPaymentCount
    && Share(d.hardDeclines, d.allAttempts, 0.03, 0.05)
    && 0 <= d.hardDeclines < d.allAttempts
    && d.grossSuccessRate == AttemptRate(d.successfulAttempts, d.allAttempts)
    && d.netSuccessRate == AttemptRate(d.successfulAttempts, d.allAttempts - d.hardDeclines)
    && 0.0 <= d.grossSuccessRate <= 100.0
    && d.grossSuccessRate <= d.netSuccessRate
  }

  /** The body of the generating loop: the record for `daysAgo` days before
      today, computed from that day's twelve draws. */
  function DayRecord(daysAgo: nat, r: seq<real>): (d: DailyMetrics)
    requires |r| == DrawsPerDay && ValidDraws(r)
    ensures d.daysAgo == daysAgo
    ensures WellFormed(d)
  {
    assert IsDraw(r[0]) && IsDraw(r[1]) && IsDraw(r[2]) && IsDraw(r[3]);
    assert IsDraw(r[4]) && IsDraw(r[5]) && IsDraw(r[6]) && IsDraw(r[7]);
    assert IsDraw(r[8]) && IsDraw(r[9]) && IsDraw(r[10]) && IsDraw(r[11]);
    var baseRevenue := Uniform(r[0], 45000.0, 25000.0);
    var baseTransactions := Uniform(r[1], 800.0, 400.0);
    var successRate := Uniform(r[2], 92.0, 7.0);
    var failedCount := FailedCount(baseTransactions, successRate);

    var grossPaymentCount := Uniform(r[3], 1200.0, 600.0).Floor;
    var totalPaymentCount := FloorScale(grossPaymentCount, r[4], 0.85, 0.12);
    var grossPaymentVolume := FloorScale(grossPaymentCount, r[5], 150.0, 100.0);
    var totalPaymentVolume := FloorScale(totalPaymentCount, r[6], 150.0, 100.0);

    var grossWithdrawalsCount := Uniform(r[7], 300.0, 200.0).Floor;
    var totalWithdrawalsCount := FloorScale(grossWithdrawalsCount, r[8], 0.88, 0.10);
    var grossWithdrawalsVolume := FloorScale(grossWithdrawalsCount, r[9], 200.0, 150.0);
    var totalWithdrawalsVolume := FloorScale(totalWithdrawalsCount, r[10], 200.0, 150.0);

    var allAttempts := grossPaymentCount;
    var successfulAttempts := totalPaymentCount;
    var hardDeclines := FloorScale(allAttempts, r[11], 0.03, 0.02);

    QuotientBounds(baseRevenue, baseTransactions, 37.5, 87.5);
    Floor2Monotone(92.0, successRate);
    assert Floor2(92.0) == 92.0;
    Floor2Monotone(37.5, baseRevenue / baseTransactions);
    assert Floor2(37.5) == 37.5;
    AttemptRateAntitone(successfulAttempts, allAttempts - hardDeclines, allAttempts);

    DailyMetrics(
      daysAgo := daysAgo,
      revenue := baseRevenue.Floor,
      transactions := baseTransactions.Floor,
      successRate := Floor2(successRate),
      avgTransactionAmount := Floor2(baseRevenue / baseTransactions),
      failedTransactions := failedCount,
      grossPaymentVolume := grossPaymentVolume,
      grossPaymentCount := grossPaymentCount,
      totalPaymentVolume := totalPaymentVolume,
      totalPaymentCount := totalPaymentCount,
      grossWithdrawalsVolume := grossWithdrawalsVolume,
      grossWithdrawalsCount := grossWithdrawalsCount,
      totalWithdrawalsVolume := totalWithdrawalsVolume,
      totalWithdrawalsCount := totalWithdrawalsCount,
      grossSuccessRate := AttemptRate(successfulAttempts, allAttempts),
      netSuccessRate := AttemptRate(successfulAttempts, allAttempts - hardDeclines),
      allAttempts := allAttempts,
      successfulAttempts := successfulAttempts,
      hardDeclines := hardDeclines)
  }

  /** Hard declines are drawn on their own, not taken from the failed payment
      attempts, so they can outnumber them; the net success rate, whose
      denominator removes them, then exceeds 100%. */
  lemma HardDeclinesCanExceedFailedAttempts()
    ensures var d := DayRecord(0, [0.0, 0.0, 0.0, 0.0, 0.999, 0.0, 0.0, 0.0, 0.0, 0.0, 0.0, 0.999]);
      && d.allAttempts == 1200 && d.successfulAttempts == 1163 && d.hardDeclines == 59
      && d.hardDeclines > d.allAttempts - d.successfulAttempts
      && d.netSuccessRate == 101.92
  {
    var r := [0.0, 0.0, 0.0, 0.0, 0.999, 0.0, 0.0, 0.0, 0.0, 0.0, 0.0, 0.999];
    assert Uniform(r[3], 1200.0, 600.0).Floor == 1200;
    assert FloorScale(1200, r[4], 0.85, 0.12) == 1163;
    assert FloorScale(1200, r[11], 0.03, 0.02) == 59;
    assert AttemptRate(1163, 1141) == 101.92;
  }

  // ---------------------------------------------------------------------------
  // The series
  // ---------------------------------------------------------------------------

  /** The loop runs for `i = days-1` down to `0`: no iteration at all when
      `days <= 0`. */
  function Max0(n: int): nat { if n > 0 then n else 0 }

  /** Enough valid draws for the loop to run to completion. */
  predicate EnoughDraws(days: int, draws: seq<real>)
  {
    ValidDraws(draws) && DrawsPerDay * Max0(days) <= |draws|
  }

  /** The draws read for the `k`-th pushed record. */
  function DayDraws(draws: seq<real>, k: nat): (r: seq<real>)
    requires ValidDraws(draws) && DrawsPerDay * (k + 1) <= |draws|
    ensures |r| == DrawsPerDay && ValidDraws(r)
  {
    draws[DrawsPerDay * k .. DrawsPerDay * (k + 1)]
  }

  /** What `generateDailyMetrics(days)` returns: `max(days, 0)` records, the
      `k`-th for `days - 1 - k` days ago, so oldest first and today last. */
  function Series(days: int, draws: seq<real>): (s: seq<DailyMetrics>)
    requires EnoughDraws(days, draws)
    ensures |s| == Max0(days)
    ensures forall k :: 0 <= k < |s| ==> s[k].daysAgo == days - 1 - k && WellFormed(s[k])
  {
    seq(Max0(days), k requires 0 <= k < Max0(days) => DayRecord(days - 1 - k, DayDraws(draws, k)))
  }

  /** `generateDailyMetrics`: the counting-down loop that pushes one record per
      day onto a local array. */
  method GenerateDailyMetrics(days: int, draws: seq<real>) returns (data: seq<DailyMetrics>)
    requires EnoughDraws(days, draws)
    ensures data == Series(days, draws)
  {
    data := [];
    var i := days - 1;
    while i >= 0
      invariant i >= -1 || i == days - 1
      invariant |data| == days - 1 - i
      invariant forall k :: 0 <= k < |data| ==> data[k] == DayRecord(days - 1 - k, DayDraws(draws, k))
    {
      data := data + [DayRecord(i, DayDraws(draws, days - 1 - i))];
      i := i - 1;
    }
  }

  /** Records run oldest to newest, one day apart, and the last one is today. */
  lemma SeriesChronological(days: int, draws: seq<real>)
    requires EnoughDraws(days, draws)
    ensures var s := Series(days, draws);
      && (forall k :: 0 <= k < |s| - 1 ==> s[k].daysAgo == s[k + 1].daysAgo + 1)
      && (days > 0 ==> s[|s| - 1].daysAgo == 0)
  {
  }

  // ---------------------------------------------------------------------------
  // Folds
  // ---------------------------------------------------------------------------

  /** `data.reduce((sum, day) => sum + day.f, 0)` for an integer field. */
  function Sum(data: seq<DailyMetrics>, f: IntField): (s: int)
    ensures data == [] ==> s == 0
    ensures |data| == 1 ==> s == Get(data[0], f)
  {
    if data == [] then 0 else Sum(data[..|data| - 1], f) + Get(data[|data| - 1], f)
  }

  /** `data.reduce((sum, day) => sum + day.f, 0)` for a real field. */
  function SumReal(data: seq<DailyMetrics>, f: RealField): (s: real)
    ensures data == [] ==> s == 0.0
    ensures |data| == 1 ==> s == GetReal(data[0], f)
  {
    if data == [] then 0.0 else SumReal(data[..|data| - 1], f) + GetReal(data[|data| - 1], f)
  }

  lemma {:induction false} SumAppend(a: seq<DailyMetrics>, b: seq<DailyMetrics>, f: IntField)
    ensures Sum(a + b, f) == Sum(a, f) + Sum(b, f)
  {
    if b == [] {
      assert a + b == a;
    } else {
      assert (a + b)[..|a + b| - 1] == a + b[..|b| - 1];
      SumAppend(a, b[..|b| - 1], f);
    }
  }

  /** A field bounded below by another on every record sums to no more. */
  lemma {:induction false} SumMonotone(data: seq<DailyMetrics>, f: IntField, g: IntField)
    requires forall k :: 0 <= k < |data| ==> Get(data[k], f) <= Get(data[k], g)
    ensures Sum(data, f) <= Sum(data, g)
  {
    if data != [] {
      SumMonotone(data[..|data| - 1], f, g);
    }
  }

  lemma {:induction false} SumLowerBound(data: seq<DailyMetrics>, f: IntField, lo: int)
    requires forall k :: 0 <= k < |data| ==> lo <= Get(data[k], f)
    ensures lo * |data| <= Sum(data, f)
  {
    if data != [] {
      SumLowerBound(data[..|data| - 1], f, lo);
    }
  }

  lemma SumRealBounds(data: seq<DailyMetrics>, f: RealField, lo: real, hi: real)
    requires forall k :: 0 <= k < |data| ==> lo <= GetReal(data[k], f) < hi
    ensures lo * |data| as real <= SumReal(data, f)
    ensures |data| > 0 ==> SumReal(data, f) < hi * |data| as real
  {
    SumRealTimes(data, f, lo, hi);
    TimesProduct(|data|, lo);
    TimesProduct(|data|, hi);
  }

  /** `x` added to itself `n` times. */
  function Times(n: nat, x: real): real
  {
    if n == 0 then 0.0 else Times(n - 1, x) + x
  }

  lemma {:induction false} TimesProduct(n: nat, x: real)
    ensures Times(n, x) == x * n as real
  {
    if n > 0 {
      TimesProduct(n - 1, x);
      assert x * n as real == x * (n - 1) as real + x;
    }
  }

  /** `SumRealBounds` with the bounds as repeated sums, by induction on the
      series. */
  lemma {:induction false} SumRealTimes(data: seq<DailyMetrics>, f: RealField, lo: real, hi: real)
    requires forall k :: 0 <= k < |data| ==> lo <= GetReal(data[k], f) < hi
    ensures Times(|data|, lo) <= SumReal(data, f)
    ensures |data| > 0 ==> SumReal(data, f) < Times(|data|, hi)
  {
    if data != [] {
      var prefix := data[..|data| - 1];
      assert forall k :: 0 <= k < |prefix| ==> prefix[k] == data[k];
      SumRealTimes(prefix, f, lo, hi);
    }
  }

  // ---------------------------------------------------------------------------
  // Fixed-window summaries
  // ---------------------------------------------------------------------------

  datatype PeriodSummary = PeriodSummary(
    totalRevenue: int,
    totalTransactions: int,
    avgSuccessRate: real,
    avgTransactionAmount: real)

  /** The four reductions of `currentPeriodSummary`/`previousPeriodSummary`;
      the two averages divide by the series length. */
  function Summarize(data: seq<DailyMetrics>): (p: PeriodSummary)
    requires |data| > 0
    ensures p.totalRevenue == Sum(data, Revenue) && p.totalTransactions == Sum(data, Transactions)
    ensures p.avgSuccessRate * |data| as real == SumReal(data, SuccessRate)
    ensures p.avgTransactionAmount * |data| as real == SumReal(data, AvgTransactionAmount)
  {
    PeriodSummary(
      totalRevenue := Sum(data, Revenue),
      totalTransactions := Sum(data, Transactions),
      avgSuccessRate := SumReal(data, SuccessRate) / |data| as real,
      avgTransactionAmount := SumReal(data, AvgTransactionAmount) / |data| as real)
  }

  /** A summary of generated records has totals of at least the per-day
      minimum times the length, and averages inside the per-day ranges. */
  lemma SummarizeBounds(data: seq<DailyMetrics>)
    requires |data| > 0
    requires forall k :: 0 <= k < |data| ==> WellFormed(data[k])
    ensures Summarize(data).totalRevenue >= 45000 * |data|
    ensures Summarize(data).totalTransactions >= 800 * |data|
    ensures 92.0 <= Summarize(data).avgSuccessRate < 99.0
    ensures 37.5 <= Summarize(data).avgTransactionAmount < 87.5
  {
    forall k | 0 <= k < |data|
      ensures 45000 <= Get(data[k], Revenue) && 800 <= Get(data[k], Transactions)
      ensures 92.0 <= GetReal(data[k], SuccessRate) < 99.0
      ensures 37.5 <= GetReal(data[k], AvgTransactionAmount) < 87.5
    {
      assert WellFormed(data[k]);
    }
    SumLowerBound(data, Revenue, 45000);
    SumLowerBound(data, Transactions, 800);
    AverageBounds(data, SuccessRate, 92.0, 99.0);
    AverageBounds(data, AvgTransactionAmount, 37.5, 87.5);
  }

  lemma AverageBounds(data: seq<DailyMetrics>, f: RealField, lo: real, hi: real)
    requires |data| > 0
    requires forall k :: 0 <= k < |data| ==> lo <= GetReal(data[k], f) < hi
    ensures lo <= SumReal(data, f) / |data| as real < hi
  {
    SumRealBounds(data, f, lo, hi);
    QuotientBounds(SumReal(data, f), |data| as real, lo, hi);
  }

  /** `currentPeriodSummary`: the summary of the 30-day series. */
  function CurrentPeriodSummary(draws30: seq<real>): (p: PeriodSummary)
    requires EnoughDraws(30, draws30)
    ensures p.totalRevenue >= 45000 * 30 && p.totalTransactions >= 800 * 30
    ensures 92.0 <= p.avgSuccessRate < 99.0 && 37.5 <= p.avgTransactionAmount < 87.5
  {
    var s := Series(30, draws30);
    SummarizeBounds(s);
    Summarize(s)
  }

  /** `previous30DaysMetrics`: the first, oldest, 30 records of a 60-day
      series, which cover 59 down to 30 days ago, the 30 days before the
      current window. */
  function Previous30DaysMetrics(draws60: seq<real>): (s: seq<DailyMetrics>)
    requires EnoughDraws(60, draws60)
    ensures |s| == 30
    ensures forall k :: 0 <= k < 30 ==> s[k] == Series(60, draws60)[k]
    ensures forall k :: 0 <= k < 30 ==> s[k].daysAgo == 59 - k && s[k].daysAgo >= 30
    ensures forall k :: 0 <= k < 30 ==> WellFormed(s[k])
  {
    Series(60, draws60)[..30]
  }

  /** `previousPeriodSummary`. */
  function PreviousPeriodSummary(draws60: seq<real>): (p: PeriodSummary)
    requires EnoughDraws(60, draws60)
    ensures p.totalRevenue >= 45000 * 30 && p.totalTransactions >= 800 * 30
    ensures 92.0 <= p.avgSuccessRate < 99.0 && 37.5 <= p.avgTransactionAmount < 87.5
  {
    var s := Previous30DaysMetrics(draws60);
    SummarizeBounds(s);
    Summarize(s)
  }

  datatype Comparison = Comparison(
    revenueChange: real,
    transactionsChange: real,
    successRateChange: real,
    avgAmountChange: real)

  /** The percentage changes of `periodComparison`. The source divides by the
      previous values without a zero guard, so they must be non-zero; the
      success rate change is a plain difference of averages. */
  function Compare(current: PeriodSummary, previous: PeriodSummary): (c: Comparison)
    requires previous.totalRevenue != 0 && previous.totalTransactions != 0
    requires previous.avgTransactionAmount != 0.0
    ensures c.revenueChange * previous.totalRevenue as real
            == (current.totalRevenue - previous.totalRevenue) as real * 100.0
    ensures c.transactionsChange * previous.totalTransactions as real
            == (current.totalTransactions - previous.totalTransactions) as real * 100.0
    ensures c.avgAmountChange * previous.avgTransactionAmount
            == (current.avgTransactionAmount - previous.avgTransactionAmount) * 100.0
    ensures c.successRateChange + previous.avgSuccessRate == current.avgSuccessRate
  {
    Comparison(
      revenueChange :=
        (current.totalRevenue - previous.totalRevenue) as real / previous.totalRevenue as real * 100.0,
      transactionsChange :=
        (current.totalTransactions - previous.totalTransactions) as real / previous.totalTransactions as real * 100.0,
      successRateChange := current.avgSuccessRate - previous.avgSuccessRate,
      avgAmountChange :=
        (current.avgTransactionAmount - previous.avgTransactionAmount) / previous.avgTransactionAmount * 100.0)
  }

  /** `periodComparison` over the generated series: the unguarded divisions
      are always defined, and the success rate moves by less than 7 points. */
  function PeriodComparison(draws30: seq<real>, draws60: seq<real>): (c: Comparison)
    requires EnoughDraws(30, draws30) && EnoughDraws(60, draws60)
    ensures -7.0 < c.successRateChange < 7.0
  {
    Compare(CurrentPeriodSummary(draws30), PreviousPeriodSummary(draws60))
  }

  /** The sign prefix of `formatPercentage`: `+` for zero and above, nothing
      for negatives (whose rendered digits carry their own minus sign). */
  function SignPrefix(value: real): (p: string)
    ensures p == "+" <==> value >= 0.0
    ensures p == "" <==> value < 0.0
  {
    if value >= 0.0 then "+" else ""
  }
}
