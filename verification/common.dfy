/** Values shared by the whole `bucketgrowth` package: the optional-value and
    error types that stand for Go's `error` returns, the daily sample and the
    report types declared in cloudwatch.go. */
module Common {

  /** A possibly absent value; `None` plays the role of Go's `nil` error. */
  datatype Option<+T> = None | Some(value: T)

  /** A Go `error` value, identified by its message. */
  datatype Error = Error(message: string)

  /** A point in time (`time.Time`), reduced to an instant on a time line:
      `==` is plain equality and `Before` is `<`. Time zones and monotonic
      clock readings are not modelled. */
  type Date = int

  /** One daily observation: a date and the integer value measured that day. */
  datatype DailyMetric = DailyMetric(Date: Date, Total: int)

  /** The four projected values of a report. */
  datatype ProjectionMetrics = ProjectionMetrics(
    Size1Year: int, Size5Year: int,
    Object1Year: int, Object5Year: int)

  /** The report returned by `Request.Measure`. Growth percentages are
      `float64` in the source and real numbers here. */
  datatype Metrics = Metrics(
    TotalSizeBytes: int, TotalObjectCount: int,
    SizeGrowthMonthly: real, SizeGrowthYearly: real,
    ObjectGrowthMonthly: real, ObjectGrowthYearly: real,
    Projections: ProjectionMetrics)

  /** Go's zero value `Metrics{}`, returned beside every error. */
  const ZeroMetrics: Metrics :=
    Metrics(0, 0, 0.0, 0.0, 0.0, 0.0, ProjectionMetrics(0, 0, 0, 0))

  /** The last sample of a non-empty series. */
  function Last(s: seq<DailyMetric>): DailyMetric
    requires |s| > 0
  {
    s[|s| - 1]
  }
}
