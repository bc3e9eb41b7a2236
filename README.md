# Payment dashboard metrics: a Dafny model

This project models the part of a payment-operations dashboard that is logic
rather than view code, and proves properties about it. There are three pieces.

- **Synthetic daily metrics** (`src/lib/mockData.ts`). `generateDailyMetrics(days)`
  builds one record per day, oldest first. Each record comes from twelve
  uniform draws: revenue, transaction counts, success rates, payment and
  withdrawal volumes and counts, attempts and hard declines. The 30-day
  summary, the "previous 30 of 60 days" summary and their `periodComparison`
  are folds over those records. The sign prefix of `formatPercentage` is also
  modelled.
- **Overview page** (`src/pages/Overview.tsx`):
  - the eight-field `calculateTotals` fold;
  - the zero-guarded `calculatePercentageChange`;
  - the seeded previous-period multiplier `0.92 + frac(sin(seed + index) * 10000) * 0.15`;
  - the range tables `dataByRange` and `seedByRange`;
  - the `previousPeriod` and `changes` objects;
  - the ±1 `getTrend` classifier.
- **Transactions page** (`src/pages/Transactions.tsx`):
  - the case-insensitive search over id and merchant;
  - the status-to-badge mapping;
  - the capitalised status label.

Modules:

- `MockData` (`mock_data.dfy`) holds the generator, the fixed-window summaries
  and the comparison.
  - `Math.random()` becomes an explicit `seq<real>` of draws in `[0, 1)`,
    read twelve per day in the order the source reads them. Record `k` uses
    draws `12k` to `12k + 11`.
  - The calendar date becomes `daysAgo`, the offset in days before today.
  - The generator itself is a `method` with the source's counting-down
    `while` loop. It is proved equal to the specification function `Series`.
  - Every record of `Series` satisfies `WellFormed`, which collects the
    bounds and relations the arithmetic guarantees.
- `Overview` (`overview.dfy`) holds the period totals, the previous period
  and the changes. `Math.sin` is a function parameter that nothing is
  assumed about.
- `Text` (`text.dfy`) holds ASCII lower- and upper-casing, `includes` and
  capitalisation.
- `Transactions` (`transactions.dfy`) holds the search filter and the
  badges.

Behaviour of the program that the model keeps as written:

- **No error for a short range.** `generateDailyMetrics(days)` with
  `days <= 0` runs its loop zero times and returns an empty array; it raises
  no error. `Series` and `GenerateDailyMetrics` do the same.
- **No zero guard in `periodComparison`.** It divides by the previous
  period's values without a guard. Only `calculatePercentageChange` on the
  Overview page has one. So `MockData.Compare` requires non-zero
  denominators, and `MockData.PeriodComparison` proves they hold for every
  pair of generated series.
- **Floored, not rounded.** The success rates and the average amount are cut
  down to whole hundredths with `Math.floor(x * 100) / 100`, never rounded up.
  The counts and volumes are floored to integers.
- **Hard declines are drawn on their own.** They are a 3–5% share of all
  attempts, drawn independently of how many attempts failed. They can
  therefore outnumber the failed attempts, and the net success rate can then
  exceed 100%. `MockData.HardDeclinesCanExceedFailedAttempts` exhibits a day
  with 1200 attempts, 1163 successes and 59 hard declines, whose net rate is
  101.92.

## Model

| member | source | states |
|---|---|---|
| MockData.Floor2 | src/lib/mockData.ts:80-81 | `Math.floor(x*100)/100` is a whole number of hundredths, at most `x` and within 0.01 below it |
| MockData.Floor2Monotone | src/lib/mockData.ts:80-81 | cutting to two decimals preserves order |
| MockData.Uniform | src/lib/mockData.ts:52-54 | `base + Math.random()*width` lies in `[base, base+width)` |
| MockData.FloorScale | src/lib/mockData.ts:58-67 | `floor(n * (base + r*width))` is more than `n*base - 1` and less than `n*(base+width)` |
| MockData.FailedCount | src/lib/mockData.ts:55 | the failed count floors `baseTransactions*(1 - rate/100)`; it is non-negative and at most the floored transaction count |
| MockData.AttemptRate | src/lib/mockData.ts:73-74 | a floored-to-hundredths success percentage is non-negative, and at most 100 when successes do not exceed attempts |
| MockData.AttemptRateAntitone | src/lib/mockData.ts:72-74 | the same successes over fewer attempts (the net rate, after hard declines) give a rate at least as high |
| MockData.DayRecord | src/lib/mockData.ts:52-97 | the record built from one day's draws satisfies `WellFormed`: revenue in [45000,70000), transactions in [800,1200), successRate in [92,99), 0 <= failed <= transactions, avg amount in [37.5,87.5), grossPaymentCount in [1200,1800) with totalPaymentCount a 85–97% share and never above it, grossWithdrawalsCount in [300,500) with totalWithdrawalsCount a 88–98% share and never above it, volumes the 150–250 and 200–350 per-count shares, allAttempts = grossPaymentCount, successfulAttempts = totalPaymentCount, 0 <= hardDeclines < allAttempts as a 3–5% share, gross rate in [0,100] and net rate >= gross rate |
| MockData.HardDeclinesCanExceedFailedAttempts | src/lib/mockData.ts:70-74 | hard declines are drawn apart from the failed attempts: draws with r[3] = 0 and r[4] = r[11] = 0.999 give 1200 attempts, 1163 successes and 59 hard declines, more than the 37 failed attempts, and a net success rate of 101.92 |
| MockData.Series | src/lib/mockData.ts:46-101 | the series has exactly `max(days, 0)` records; record `k` is for `days-1-k` days ago and is well-formed |
| MockData.GenerateDailyMetrics | src/lib/mockData.ts:46-101 | the counting-down loop that pushes one record per day returns exactly `Series(days, draws)`, including the empty result for `days <= 0` |
| MockData.SeriesChronological | src/lib/mockData.ts:50-51 | consecutive records are one day apart, oldest first, and the last record is today |
| MockData.Sum | src/lib/mockData.ts:114-115 | the `reduce` sum of an integer field starts at 0 for no records and is the field itself for one record; its laws are the `Sum…` lemmas below |
| MockData.SumReal | src/lib/mockData.ts:116-117 | the `reduce` sum of a real field starts at 0 for no records and is the field itself for one record |
| MockData.SumAppend | src/lib/mockData.ts:114-115 | a field's `reduce` sum over a concatenation is the sum of the two parts |
| MockData.SumMonotone | src/lib/mockData.ts:114-115 | a field that is at most another on every record sums to at most the other's sum |
| MockData.SumLowerBound | src/lib/mockData.ts:114-115 | a per-record lower bound times the length bounds the sum from below |
| MockData.SumRealBounds | src/lib/mockData.ts:116-117 | per-record bounds `[lo, hi)` on a real field bound its sum by `lo*n` and, for non-empty data, `hi*n` |
| MockData.AverageBounds | src/lib/mockData.ts:116-117 | the average of a real field over non-empty data lies in the per-record range |
| MockData.Summarize | src/lib/mockData.ts:113-118 | the totals are the revenue and transaction sums, and each average times the number of records gives back the sum it averages |
| MockData.SummarizeBounds | src/lib/mockData.ts:113-118 | a summary of well-formed records has totals of at least the per-day minimum times the length, and both averages inside the per-day ranges |
| MockData.CurrentPeriodSummary | src/lib/mockData.ts:113-118 | the 30-day summary has total revenue >= 1,350,000, total transactions >= 24,000, average success rate in [92,99) and average amount in [37.5,87.5) |
| MockData.Previous30DaysMetrics | src/lib/mockData.ts:121 | the slice is the first 30 records of the 60-day series, covering 59 down to 30 days ago, all well-formed |
| MockData.PreviousPeriodSummary | src/lib/mockData.ts:122-127 | the previous-window summary meets the same bounds as the current one |
| MockData.Compare | src/lib/mockData.ts:130-135 | each ratio change times its previous value is 100 times the difference; the success-rate change is a plain difference of the averages |
| MockData.PeriodComparison | src/lib/mockData.ts:130-135 | over generated series the unguarded divisions are defined, and the success-rate change lies strictly between -7 and 7 points |
| MockData.SignPrefix | src/lib/mockData.ts:232 | the prefix is `+` exactly for values >= 0 and empty exactly for negative values |
| Overview.SeededRandom | src/pages/Overview.tsx:22-25 | `x - floor(x)` lies in [0, 1) whatever `sin` returns |
| Overview.PreviousPeriodMultiplier | src/pages/Overview.tsx:27-30 | the multiplier lies in [0.92, 1.07) |
| Overview.MultiplierDependsOnSum | src/pages/Overview.tsx:27-30 | two seed/index pairs with the same sum give the same multiplier |
| Overview.CalculateTotals | src/pages/Overview.tsx:33-44 | total `k` (k = 1..8) is the left-fold sum of the matching record field |
| Overview.CalculateTotalsEmpty | src/pages/Overview.tsx:33-44 | the totals of no records are zero in all eight fields |
| Overview.CalculateTotalsAppend | src/pages/Overview.tsx:35-42 | the totals of `a + b` are the field-by-field sums of the totals of `a` and of `b` |
| Overview.TotalsRespectSubsets | src/pages/Overview.tsx:36-41 | over well-formed records, total totalPaymentCount <= total grossPaymentCount, likewise for withdrawals, and all eight totals are non-negative |
| Overview.CalculatePercentageChange | src/pages/Overview.tsx:47-50 | the change is 0 for a zero previous value, and otherwise satisfies `change * previous == (current - previous) * 100` |
| Overview.PercentageChangeExamples | src/pages/Overview.tsx:47-50 | (100,100) gives 0, (150,100) gives 50 and (50,0) gives 0 |
| Overview.PercentageChangeSign | src/pages/Overview.tsx:47-50 | against a positive previous value, the change is positive iff the value grew and negative iff it shrank |
| Overview.CompareAgreesWithPercentageChange | src/pages/Overview.tsx:47-50 | where its denominators are non-zero, the summary comparison's three ratio changes equal `calculatePercentageChange` |
| Overview.GetTrend | src/pages/Overview.tsx:129-133 | `up` iff change > 1, `down` iff change < -1, `neutral` iff -1 <= change <= 1 |
| Overview.TrendOfChange | src/pages/Overview.tsx:129-133 | against a positive previous value, the trend is up iff the value grew by more than 1% and down iff it shrank by more than 1% |
| Overview.SeedByRange | src/pages/Overview.tsx:85-90 | the custom range falls back to the 30-day seed |
| Overview.DataByRange | src/pages/Overview.tsx:77-82 | the custom range falls back to the 30-day series |
| Overview.PreviousPeriodOf | src/pages/Overview.tsx:102-114 | previous field `k` is `PreviousValue` for `(seed, k)`, the current total `k` times the multiplier for `(seed, k)` |
| Overview.PreviousPeriodScaled | src/pages/Overview.tsx:105-112 | every previous field `k` equals current total `k` times `generatePreviousPeriodMultiplier(seed, k)` |
| Overview.PreviousPeriodBounds | src/pages/Overview.tsx:105-112 | each previous value of a non-negative total lies between 92% and 107% of it |
| Overview.ChangesOf | src/pages/Overview.tsx:117-126 | change `k` is `calculatePercentageChange` of current total `k` against previous value `k` |
| Overview.OverviewFor | src/pages/Overview.tsx:96-126 | for the selected range, total `k` is the sum of field `k` over that range's series; previous value `k` is total `k` times the multiplier for the range's seed and `k`; change `k` is `calculatePercentageChange` of total `k` against previous value `k` |
| Overview.CustomMatchesThirtyDays | src/pages/Overview.tsx:77-90 | the custom range shows exactly what the 30-day range shows |
| Overview.ChangeOfScaled | src/pages/Overview.tsx:117-126 | a positive value compared with itself scaled by a factor in [0.92, 1.07) changes by more than -7% and less than +9% |
| Overview.ChangesBounded | src/pages/Overview.tsx:102-126 | for non-negative totals, every change is 0 when the total is 0 and lies in (-7%, +9%) otherwise |
| Overview.OverviewChangesBounded | src/pages/Overview.tsx:96-126 | for any selected range over generated series, every change badge reads 0 or lies in (-7%, +9%) |
| Text.LowerChar | src/pages/Transactions.tsx:31 | ASCII capitals move up 32 code points, to the small letter; every other character is unchanged |
| Text.UpperChar | src/pages/Transactions.tsx:23 | ASCII small letters move down 32 code points, to the capital; every other character is unchanged |
| Text.ToLower | src/pages/Transactions.tsx:31 | lower-casing keeps the length and lower-cases each character in place |
| Text.ToLowerIdempotent | src/pages/Transactions.tsx:31 | lower-casing twice is lower-casing once |
| Text.Includes | src/pages/Transactions.tsx:31-32 | the empty pattern is included in every text, and an included pattern is no longer than the text |
| Text.IncludesIff | src/pages/Transactions.tsx:31-32 | `includes` holds iff the pattern occurs at some index of the text |
| Text.Capitalize | src/pages/Transactions.tsx:23 | the length is kept, the first character is upper-cased and the rest is unchanged; the empty string stays empty |
| Transactions.GetStatusVariant | src/pages/Transactions.tsx:9-20 | success gives default, failed gives destructive and pending gives secondary, each iff; any other string gives outline |
| Transactions.StatusVariantInjective | src/pages/Transactions.tsx:9-19 | no status reaches the fallback, and distinct statuses get distinct variants |
| Transactions.GetStatusLabel | src/pages/Transactions.tsx:22-24 | the label has the status's length, an upper-cased first character and the rest unchanged |
| Transactions.StatusLabels | src/pages/Transactions.tsx:22-24 | the three statuses are labelled Success, Failed and Pending |
| Transactions.Matches | src/pages/Transactions.tsx:30-32 | the empty query matches every transaction, and a matching query is no longer than the id or the merchant |
| Transactions.FilterTransactions | src/pages/Transactions.tsx:29-33 | the search result is no longer than the list, and each transaction in it is listed and matches the query |
| Transactions.MatchesIff | src/pages/Transactions.tsx:30-32 | a transaction matches iff the lower-cased query occurs in its lower-cased id or in its lower-cased merchant |
| Transactions.FilterIsSubsequence | src/pages/Transactions.tsx:29-33 | the filtered list is an order-preserving subsequence of the input |
| Transactions.SubsequenceOfTail | src/pages/Transactions.tsx:29-33 | a subsequence of the tail is a subsequence of the whole list: the step `FilterIsSubsequence` takes when the filter drops the head |
| Transactions.FilterCounts | src/pages/Transactions.tsx:29-33 | each transaction occurs in the result as often as in the input when it matches, and not at all otherwise |
| Transactions.FilterMembership | src/pages/Transactions.tsx:29-33 | a transaction is in the result iff it is in the input and matches |
| Transactions.FilterEmptyQuery | src/pages/Transactions.tsx:27-33 | the initial empty query keeps every transaction, in order |
| Transactions.FilterIdempotent | src/pages/Transactions.tsx:29-33 | filtering the filtered list again with the same query changes nothing |
| Transactions.QueryCaseIgnored | src/pages/Transactions.tsx:31-32 | lower-casing the query first gives the same result |

## Left out

- The distribution of `Math.random()`. The draws are an input sequence, and only their range [0, 1) is used. Each series (7, 30, 60, 90 days) gets its own draws.
- `Math.sin` in `seededRandom`. It is an uninterpreted parameter, since its value is floating-point numerics.
- `new Date()`, `subDays` and `format` from date-fns. These read the wall clock; a record carries its day offset instead of the formatted date.
- The generator's `days` parameter is a Dafny `int`. A non-integer JavaScript number is not modelled.
- JavaScript numbers are exact reals here. Floating-point rounding in the products and quotients is not modelled; `Math.floor` is `.Floor`.
- Intl `formatCurrency`, `formatNumber`, `toFixed` and `toLocaleString`. These are locale and float formatting; only the sign prefix of `formatPercentage` is modelled.
- Unicode case mapping. `toLowerCase` and `toUpperCase` are modelled on ASCII letters only.
- The static tables (`paymentMethods`, `topMerchants`, `merchantVolumeDistribution`, `totalActiveMerchants`) and the values of `recentTransactions`. The search is proved for every list of transactions.
- The `timestamp` field of `Transaction`. It is taken from `Date.now()` and is not read by the search or the badges.
- React state and memoisation (`useState`, `useMemo`) and all JSX. The selected range and the query are explicit parameters.
- MockData.Summarize: the source's averages over an empty series would be NaN. The model requires a non-empty series; the source only applies it to 30-record series.
- MockData.Compare: it requires non-zero previous values, because the source divides without a guard. For generated series this is proved to hold.
- Layout, Sidebar, Header, App, Reports, Settings, the chart cards, MetricCard and DualMetricCard. These are layout, routing, theme toggling and presentation choices without arithmetic.
- The four module-level series being computed once, at import: 7, 30 and 90 days (`src/lib/mockData.ts:104-110`), and 60 days sliced to 30 (`src/lib/mockData.ts:121`); the summaries and `periodComparison` are module-level constants as well (`src/lib/mockData.ts:113-135`). The model treats each as a value computed from the draws passed in.
- The default argument `days = 30` of `generateDailyMetrics` (`src/lib/mockData.ts:46`). Every call site passes a value, so no behaviour is lost.
