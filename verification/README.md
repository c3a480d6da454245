# bucketgrowth, modelled in Dafny

`bucketgrowth` estimates how fast an object-storage bucket grows. It reads
daily samples of the bucket's size in bytes and its object count from a
monitoring service, derives monthly and yearly growth percentages, and
projects both quantities one and five years ahead. A small command-line tool
validates its arguments and prints the report.

This project models the arithmetic and bookkeeping of the package:

- `GoNumeric` (numeric.dfy): the pieces of Go arithmetic the code relies on.
  These are the integer quotient that truncates toward zero (`Quo`), the
  `float64` to `int64` conversion (`Trunc`), and `math.Pow` with an integral
  exponent on exact reals (`Pow`, `IntPow`).
- `Common` (common.dfy): the daily sample `DailyMetric`, the report types
  `Metrics` and `ProjectionMetrics`, and Go `error` values as `Option<Error>`.
- `Compound` (projection.dfy): `projection`, with its three guard returns and
  the compounding of a monthly rate over `12 * numYears` periods.
- `Growth` (growth.dfy): the naive `monthlyGrowth` (a first-match scan with a
  fallback to the earliest sample, then an integer quotient) and
  `yearlyGrowth` (an exponent computed as the integer `1 / (len - 1)`).
- `CloudWatch` (cloudwatch.dfy): the part of `Request.Measure` after the two
  metric requests. That covers error precedence, the empty-series error, the
  in-place sort by date, the totals and the four projections. It also holds
  `marshalDailyMetric` and `endOfResults`.
- `Flag` (flag.dfy): `guardOutputType` and `guardBucketArg` of the command.

Both growth functions in growth.go are modelled as the code computes them,
not as their comments describe them. `monthlyGrowth` divides integers, so its
result is always a whole multiple of 100. `yearlyGrowth` raises the
difference of the end values, not their ratio, to an integer exponent. That
exponent is one for two samples and zero for three or more, so the result
collapses to 0 for any longer series. The report's growth figures come from
`monthlyGrowthPct` and `yearlyGrowthPct`, which `Measure` calls
(cloudwatch.go:75-78) but whose bodies are not part of this model. `Measure` takes them
as function parameters and the model states only how their results are wired
into the report.

Dates are instants on a time line (`Date = int`). Equality of `time.Time` is
plain equality and `Before` is `<`. The calendar step `AddDate(0, -1, 0)` is
the function parameter `monthBack`.

## Model

| member | source | states |
|---|---|---|
| `GoNumeric.Quo` | growth.go:24 | Go's `/` on integers: the remainder `a - q*b` is smaller than `b` in magnitude and is zero or has the sign of `a`, and `q*b` never exceeds `a` in magnitude; division by zero is excluded |
| `GoNumeric.QuoSelf` | growth.go:24 | a value divided by itself is 1, and 0 divided by anything is 0 |
| `GoNumeric.Trunc` | cloudwatch.go:175 | `int64(x)` drops the fraction toward zero: `r <= x < r + 1` for non-negative `x`, `r - 1 < x <= r` for negative `x` |
| `GoNumeric.PowSmallExponents` | growth.go:36 | `math.Pow(x, 0)` is 1 and `math.Pow(x, 1)` is `x`, for every base |
| `GoNumeric.PowEvenNonNegative` | projection.go:20-23 | any base raised to an even natural power is non-negative |
| `GoNumeric.PowAtLeastOne` | projection.go:23 | a base of at least 1 raised to any natural power is at least 1 |
| `GoNumeric.IntPowEvenNonNegative` | projection.go:20-23 | an even integral power, negative exponents included, is non-negative |
| `Compound.Projection` | projection.go:7-27 | zero years gives 0 first; then a zero value gives 0; then a zero rate returns the value; a non-negative value never projects negative (and a non-positive one never positive); a positive value at a positive rate over at least a year never shrinks |
| `Compound.CompoundFactor` | projection.go:20-23 | `(1 + rate)^(12*numYears)` is non-negative, because the period count is even, and is at least 1 for a positive rate and at least one year |
| `Compound.ZeroYearsWinsOverZeroRate` | projection.go:8-18 | `projection(v, 0, 0) == 0`, not `v`: the year guard precedes the rate guard |
| `Compound.OneYearAtTenPercent` | projection_test.go:15-21 | `projection(1000, 1, 0.1) == 3138` (1.1^12 = 3.138428376721, truncated) |
| `Growth.FirstIndexOf` | growth.go:13-19 | the scan's stopping point: every earlier sample has another date, and the index is in range only if that sample has the sought date |
| `Growth.BaselineIndex` | growth.go:13-22 | the baseline is the first sample dated one month back if any is, and position 0 otherwise |
| `Growth.MonthlyGrowthOf` | growth.go:21-25 | the growth figure is a whole multiple of 100; a change smaller in magnitude than the baseline reads as 0; a positive baseline that has at least doubled reads as at least 100 |
| `Growth.MonthlyGrowth` | growth.go:9-26 | the scanning loop with its early exit computes exactly `MonthlyGrowthOf`; the series must be non-empty and the baseline non-zero, or Go panics |
| `Growth.QuoSmallChange` | growth.go:24 | the quotient of a change by its base is 0 when the change is smaller than the base, and at least 1 when a positive base has doubled |
| `Growth.LaterSamplesIgnored` | growth.go:14-19 | rewriting any sample after the first match, other than the last sample, changes neither the baseline nor the result |
| `Growth.FirstIndexOfUnchanged` | growth.go:14-19 | the first match does not depend on the samples after it |
| `Growth.SingleSampleNoMonthlyGrowth` | growth.go:13-25 | a single sample with a non-zero value is its own fallback baseline and gives 0 |
| `Growth.ConstantSeriesNoMonthlyGrowth` | growth.go:21-25 | a series of equal non-zero values gives 0 |
| `Growth.YearlyGrowth` | growth.go:30-39 | one sample divides by zero (excluded); two samples give `100 * ((last - first) - 1)`; three or more always give 0 |
| `Growth.ExponentOfYearly` | growth.go:35-36 | the integer exponent `1 / (len - 1)` is 1 for two samples and 0 for more |
| `Growth.TwoEqualSamplesYearly` | growth.go:35-38 | two samples of equal value read as a yearly growth of -100 |
| `Growth.YearlyGrowthReadsEndsOnly` | growth.go:32-36 | only the first and last totals matter; dates and middle samples do not |
| `CloudWatch.SortByDate` | cloudwatch.go:65-66 | after the sort the array is ordered by non-decreasing date and is a permutation of its former contents |
| `CloudWatch.InsertIntoPrefix` | cloudwatch.go:65 | one insertion step extends the date-ordered prefix by one element, leaves every element after position `i` as it was, and keeps the multiset of the array (so only the prefix is permuted) |
| `CloudWatch.SwapDown` | cloudwatch.go:65 | exchanging two neighbours keeps every other element and the multiset |
| `CloudWatch.Measure` | cloudwatch.go:48-93 | a size-request error wins, then an object-request error, then "Bucket is empty", each with the zero report and unsorted series; otherwise there is no error, both series are sorted permutations of their inputs, the totals are the values of latest-dated samples, the growth figures are those of the sorted series, and all four projections use the monthly figure / 100 over 1 and 5 years |
| `CloudWatch.MarshalDailyMetric` | cloudwatch.go:167-180 | a fresh array of the same length whose element `i` has datapoint `i`'s timestamp and its maximum truncated toward zero |
| `CloudWatch.EndOfResults` | cloudwatch.go:95-97 | true exactly when the token is empty |
| `CloudWatch.EndOfResultsCases` | cloudwatch_test.go:17-44 | `""` ends the results and `"somerandomvalue"` does not |
| `Flag.ScanOutputTypes` | cmd/bucketgrowth/flag.go:27-35 | the scan returns no error exactly when the flag is in the list, and `ErrUnsupportedOutputType` otherwise |
| `Flag.GuardOutputType` | cmd/bucketgrowth/flag.go:9-35 | succeeds exactly for "text" and "json"; every other flag gets `ErrUnsupportedOutputType` |
| `Flag.ScanIgnoresOrder` | cmd/bucketgrowth/flag.go:28-32 | two lists with the same members give the same verdict, whatever their order |
| `Flag.RejectsEmptyAndUpperCase` | cmd/bucketgrowth/flag.go:29-34 | `""`, `"JSON"` and `"Text"` are rejected: comparison is case-sensitive |
| `Flag.GuardBucketArg` | cmd/bucketgrowth/flag.go:37-47 | a non-empty bucket passes without help being shown; an empty one shows help and always fails, with the help's error if it had one and a blank error otherwise |

## Left out

- The metric requests `sizeData` and `objectData`, `strPtr` and `int32Ptr` (cloudwatch.go:99-165, 182-188): network I/O. The two series, or the request errors, are parameters of `Measure`.
- CloudWatch.Measure: both request outcomes are given up front, so the model cannot show that the object series is never requested after a failed size request. Only the precedence of the errors is stated.
- The clocks: the package-level `now` read at start-up and the local `now` in `Measure`. Both only bound the requested time window.
- `monthlyGrowthPct`, `yearlyGrowthPct`, `midpointGrowthRate`, `findMetricByDate`, `average` and `ErrDailyMetricNotFound`: their bodies are not part of this model. `Measure` receives the two growth functions as parameters.
- Floating point: growth percentages, rates and datapoint maxima are exact reals, and `math.Pow` is exact. NaN, infinities, rounding and the precision lost when converting large integers are not modelled.
- Compound.Projection: Go's conversion of an infinity to `int64` has no defined result. The one input that produces it (a negative year count with a non-zero value at rate -1) is excluded by the precondition.
- CloudWatch.MarshalDailyMetric: a nil `Timestamp` or `Maximum` pointer (cloudwatch.go:172, 175) makes Go panic; the precondition excludes such datapoints. A maximum outside the `int64` range converts to an undefined value in Go; the model truncates without bounds.
- `int64` overflow: values, differences and `growthRate * 100` are unbounded integers. The overflow of `MinInt64 / -1` is not modelled either.
- Growth.MonthlyGrowth: returns the integer `growthRate * 100`. Go converts it to `float64`, which is exact below 2^53.
- `time.Time`: locations, monotonic readings and the calendar arithmetic of `AddDate` are abstracted into an integer instant and the `monthBack` parameter.
- Go compares `error` values by identity; the model compares them by message.
- The command's `perform`, `displayMetrics` and `main`, and cmd/bucketgrowth/main.go (an older copy of the same command): configuration loading, printing and formatting.
- The empty `TestMeasure` test and its `Mock` type, which assert nothing.
