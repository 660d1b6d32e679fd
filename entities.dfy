/**
 * The values the analysers consume and produce: driving periods, the per-profile
 * configuration, the per-period analysis and the day's history analysis.
 * Absolute timestamps and times of day are whole seconds.
 */
module Entities {

  /** Seconds in one day. */
  const SecondsPerDay: int := 86400

  /** A `TimeSpan` of `h` hours, `m` minutes and `s` seconds, in seconds. */
  function Hms(h: int, m: int, s: int): int {
    h * 3600 + m * 60 + s
  }

  /** The time of day of an absolute timestamp: seconds since the preceding midnight. */
  function TimeOfDay(t: int): (tod: int)
    ensures 0 <= tod < SecondsPerDay
    ensures (t - tod) % SecondsPerDay == 0
  {
    t % SecondsPerDay
  }

  /** Two timestamps that lie whole days from their times of day differ by whole days minus the difference of those times. */
  lemma DayMultipleDifference(x: int, y: int)
    requires x % SecondsPerDay == 0 && y % SecondsPerDay == 0
    ensures (x - y) % SecondsPerDay == 0
  {
    var i, j := x / SecondsPerDay, y / SecondsPerDay;
    assert x == SecondsPerDay * i && y == SecondsPerDay * j;
    assert x - y == SecondsPerDay * (i - j);
  }

  /** One observed interval of driving, with absolute start and end. */
  datatype Period = Period(start: int, end: int, averageSpeed: real)

  /**
   * The tunables of one profile. `startTime` and `endTime` are times of day
   * bounding the daily analysis window.
   */
  datatype DriverConfiguration = DriverConfiguration(
    startTime: int,
    endTime: int,
    maxSpeed: real,
    ratingForExceedingSpeedLimit: real,
    isPenaltyApplicable: bool,
    penaltyForUndocumentedPeriod: real)

  /** The analysis of one documented period or of one undocumented gap. */
  datatype PeriodAnalysis = PeriodAnalysis(
    startTime: int,
    endTime: int,
    duration: int,
    rating: real,
    isUndocumented: bool)

  /** The result of analysing a day: documented duration in seconds, and the rating. */
  datatype HistoryAnalysis = HistoryAnalysis(analysedDuration: int, driverRating: real)

  /** The result for a null or empty history. */
  const ZeroAnalysis: HistoryAnalysis := HistoryAnalysis(0, 0.0)

  /** `t` lies in the half-open interval [lo, hi). */
  predicate Within(t: int, lo: int, hi: int) {
    lo <= t < hi
  }
}
