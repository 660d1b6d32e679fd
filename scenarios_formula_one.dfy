/** The motorsport profile on the canned history. */
module FormulaOneScenarios {
  import opened Wrappers
  import opened Entities
  import opened SpeedTrim
  import opened Scenarios
  import Base = BaseDriverAnalyser
  import F1 = FormulaOneAnalyser

  /** The motorsport test configuration: limit 200, rated 1 above it, no penalty. */
  const FormulaOneTestConfiguration: DriverConfiguration :=
    DriverConfiguration(0, 0, 200.0, 1.0, false, 0.0)

  /** The same with the penalty on at factor 0.5. */
  const FormulaOnePenaltyConfiguration: DriverConfiguration :=
    DriverConfiguration(0, 0, 200.0, 1.0, true, 0.5)

  /** The trim drops the idle first and last periods and keeps the stop at 12:35. */
  lemma FormulaOneValidPeriods()
    ensures F1.GetValidPeriods(History) == [H1, H2, H3, H4, H5]
  {
    assert FirstMoving(History) == 1;
    assert LastMoving(History) == 5;
    assert History[1..6] == [H1, H2, H3, H4, H5];
  }

  /** Each entry keeps its own times of day and elapsed time and is rated against 200. */
  lemma FormulaOnePeriodScores()
    ensures F1.ScorePeriod(FormulaOneTestConfiguration, H1) == PeriodAnalysis(8 * 3600 + 54 * 60, 9 * 3600 + 28 * 60, 2040, 28.0 / 200.0, false)
    ensures F1.ScorePeriod(FormulaOneTestConfiguration, H2) == PeriodAnalysis(9 * 3600 + 28 * 60, 9 * 3600 + 35 * 60, 420, 33.0 / 200.0, false)
    ensures F1.ScorePeriod(FormulaOneTestConfiguration, H3) == PeriodAnalysis(9 * 3600 + 50 * 60, 12 * 3600 + 35 * 60, 9900, 25.0 / 200.0, false)
    ensures F1.ScorePeriod(FormulaOneTestConfiguration, H4) == PeriodAnalysis(12 * 3600 + 35 * 60, 13 * 3600 + 30 * 60, 3300, 0.0, false)
    ensures F1.ScorePeriod(FormulaOneTestConfiguration, H5) == PeriodAnalysis(13 * 3600 + 30 * 60, 19 * 3600 + 12 * 60, 20520, 29.0 / 200.0, false)
  {
    HistoryTimesOfDay();
  }

  lemma FormulaOneScores()
    ensures F1.ScoredPeriods(FormulaOneTestConfiguration, [H1, H2, H3, H4, H5]) == [
      PeriodAnalysis(8 * 3600 + 54 * 60, 9 * 3600 + 28 * 60, 2040, 28.0 / 200.0, false),
      PeriodAnalysis(9 * 3600 + 28 * 60, 9 * 3600 + 35 * 60, 420, 33.0 / 200.0, false),
      PeriodAnalysis(9 * 3600 + 50 * 60, 12 * 3600 + 35 * 60, 9900, 25.0 / 200.0, false),
      PeriodAnalysis(12 * 3600 + 35 * 60, 13 * 3600 + 30 * 60, 3300, 0.0, false),
      PeriodAnalysis(13 * 3600 + 30 * 60, 19 * 3600 + 12 * 60, 20520, 29.0 / 200.0, false)]
  {
    FormulaOnePeriodScores();
  }

  /** Between consecutive periods the only gap is the 15 minutes from 09:35 to 09:50. */
  lemma FormulaOneInternalGaps()
    ensures Base.InternalGap(FormulaOneTestConfiguration, H1, H2) == None
    ensures Base.InternalGap(FormulaOneTestConfiguration, H2, H3) == Some(Base.Undocumented(9 * 3600 + 35 * 60, 9 * 3600 + 50 * 60))
    ensures Base.InternalGap(FormulaOneTestConfiguration, H3, H4) == None
    ensures Base.InternalGap(FormulaOneTestConfiguration, H4, H5) == None
  {
    HistoryTimesOfDay();
  }

  lemma FormulaOneGaps()
    ensures F1.UndocumentedPeriods(FormulaOneTestConfiguration, [H1, H2, H3, H4, H5]) ==
      [Base.Undocumented(9 * 3600 + 35 * 60, 9 * 3600 + 50 * 60)]
  {
    var c, v := FormulaOneTestConfiguration, [H1, H2, H3, H4, H5];
    var g := Base.Undocumented(9 * 3600 + 35 * 60, 9 * 3600 + 50 * 60);
    FormulaOneInternalGaps();
    assert v[0] == H1 && v[1] == H2 && v[2] == H3 && v[3] == H4 && v[4] == H5;
    assert F1.InternalGapsUpTo(c, v, 2) == [];
    assert F1.InternalGapsUpTo(c, v, 3) == [g];
    assert F1.InternalGapsUpTo(c, v, 4) == [g];
  }

  /** The motorsport entries for the canned history: five scored periods, then the one gap. */
  const FormulaOneEntries: seq<PeriodAnalysis> := [
    PeriodAnalysis(8 * 3600 + 54 * 60, 9 * 3600 + 28 * 60, 2040, 28.0 / 200.0, false),
    PeriodAnalysis(9 * 3600 + 28 * 60, 9 * 3600 + 35 * 60, 420, 33.0 / 200.0, false),
    PeriodAnalysis(9 * 3600 + 50 * 60, 12 * 3600 + 35 * 60, 9900, 25.0 / 200.0, false),
    PeriodAnalysis(12 * 3600 + 35 * 60, 13 * 3600 + 30 * 60, 3300, 0.0, false),
    PeriodAnalysis(13 * 3600 + 30 * 60, 19 * 3600 + 12 * 60, 20520, 29.0 / 200.0, false),
    Base.Undocumented(9 * 3600 + 35 * 60, 9 * 3600 + 50 * 60)]

  lemma FormulaOnePeriodAnalyses()
    ensures F1.PeriodAnalyses(FormulaOneTestConfiguration, [H1, H2, H3, H4, H5]) == FormulaOneEntries
  {
    FormulaOneScores();
    FormulaOneGaps();
  }

  /** The sums over the last three entries. */
  lemma FormulaOneTailSums(es: seq<PeriodAnalysis>)
    requires es == FormulaOneEntries
    ensures Base.TotalDuration(es[3..]) == 24720 && Base.WeightedSum(es[3..]) == 2975.4 && Base.DocumentedDuration(es[3..]) == 23820
  {
    assert es[6..] == [];
    SuffixSums(es, 5);
    assert Base.TotalDuration(es[5..]) == 900 && Base.WeightedSum(es[5..]) == 0.0 && Base.DocumentedDuration(es[5..]) == 0;
    SuffixSums(es, 4);
    assert Base.TotalDuration(es[4..]) == 21420 && Base.WeightedSum(es[4..]) == 2975.4 && Base.DocumentedDuration(es[4..]) == 20520;
    SuffixSums(es, 3);
  }

  lemma FormulaOneMiddleSums(es: seq<PeriodAnalysis>)
    requires es == FormulaOneEntries
    ensures Base.TotalDuration(es[1..]) == 35040 && Base.WeightedSum(es[1..]) == 4282.2 && Base.DocumentedDuration(es[1..]) == 34140
  {
    FormulaOneTailSums(es);
    SuffixSums(es, 2);
    assert Base.TotalDuration(es[2..]) == 34620 && Base.WeightedSum(es[2..]) == 4212.9 && Base.DocumentedDuration(es[2..]) == 33720;
    SuffixSums(es, 1);
  }

  /** The totals over the motorsport entries: 10 h 18 min, 10 h 3 min of them documented, 4567.8 rating-weighted seconds. */
  lemma FormulaOneSums(es: seq<PeriodAnalysis>)
    requires es == FormulaOneEntries
    ensures Base.TotalDuration(es) == 37080 && Base.WeightedSum(es) == 4567.8 && Base.DocumentedDuration(es) == 36180
  {
    FormulaOneMiddleSums(es);
    SuffixSums(es, 0);
    assert es[0..] == es;
  }

  lemma FormulaOneAggregate()
    ensures Base.Aggregatable(FormulaOneEntries)
    ensures Base.ComputeHistoryAnalysis(FormulaOneTestConfiguration, FormulaOneEntries) == HistoryAnalysis(10 * 3600 + 3 * 60, 7613.0 / 61800.0)
  {
    FormulaOneSums(FormulaOneEntries);
    var r := Base.ComputeHistoryAnalysis(FormulaOneTestConfiguration, FormulaOneEntries);
    assert r.driverRating * 37080.0 == 4567.8;
  }

  /**
   * Formula One on the canned history: 10 h 3 min analysed, rated 4567.8 / 37080
   * (about 0.1232), the 15-minute gap counting towards the divisor only.
   */
  lemma FormulaOneOnHistory()
    ensures F1.CanAnalyse(FormulaOneTestConfiguration, Some(History))
    ensures F1.Analyse(FormulaOneTestConfiguration, Some(History)) == HistoryAnalysis(10 * 3600 + 3 * 60, 7613.0 / 61800.0)
  {
    FormulaOneValidPeriods();
    FormulaOnePeriodAnalyses();
    FormulaOneAggregate();
  }

  /** With the penalty on the analysed time stays 10 h 3 min and the rating halves. */
  lemma FormulaOneWithPenaltyOnHistory()
    ensures F1.CanAnalyse(FormulaOnePenaltyConfiguration, Some(History))
    ensures F1.Analyse(FormulaOnePenaltyConfiguration, Some(History)) == HistoryAnalysis(10 * 3600 + 3 * 60, 7613.0 / 123600.0)
  {
    FormulaOneOnHistory();
    F1.FactorIgnoredWithoutPenalty(FormulaOneTestConfiguration, FormulaOnePenaltyConfiguration.(isPenaltyApplicable := false), History);
    F1.PenaltyScalesRating(FormulaOnePenaltyConfiguration, History);
  }

  /** One 09:00 to 17:00 period at the limit, and the same above it. */
  const AtLimitRun: Period := Period(1476316800 + 9 * 3600, 1476316800 + 17 * 3600, 200.0)
  const OverLimitRun: Period := Period(1476316800 + 9 * 3600, 1476316800 + 17 * 3600, 210.0)

  /** A single period at the limit: 8 hours rated 1. */
  lemma FormulaOneAtLimitSinglePeriod()
    ensures F1.CanAnalyse(FormulaOneTestConfiguration, Some([AtLimitRun]))
    ensures F1.Analyse(FormulaOneTestConfiguration, Some([AtLimitRun])) == HistoryAnalysis(8 * 3600, 1.0)
  {
    F1.SingleFullyRatedPeriod(FormulaOneTestConfiguration, AtLimitRun);
  }

  /** A single period above the limit takes the substitute rating, 1: again 8 hours rated 1. */
  lemma FormulaOneOverLimitSinglePeriod()
    ensures F1.CanAnalyse(FormulaOneTestConfiguration, Some([OverLimitRun]))
    ensures F1.Analyse(FormulaOneTestConfiguration, Some([OverLimitRun])) == HistoryAnalysis(8 * 3600, 1.0)
  {
    F1.SingleFullyRatedPeriod(FormulaOneTestConfiguration, OverLimitRun);
  }

  /**
   * A moving period of no length survives the trim but weighs nothing, so the
   * weighted sum is 0 and so is the rating, and it documents no time.
   */
  lemma FormulaOneSameStartAndEndIsZero()
    ensures F1.CanAnalyse(FormulaOneTestConfiguration, Some([SameStartAndEnd]))
    ensures F1.Analyse(FormulaOneTestConfiguration, Some([SameStartAndEnd])) == ZeroAnalysis
  {
    var c, p := FormulaOneTestConfiguration, SameStartAndEnd;
    assert F1.GetValidPeriods([p]) == [p];
    var e := F1.ScorePeriod(c, p);
    assert e.duration == p.end - p.start == 0 && !e.isUndocumented;
    assert F1.PeriodAnalyses(c, [p]) == [e];
    assert [e][0] == e && [e][1..] == [];
    assert Base.WeightedSum([e]) == (e.duration as real) * e.rating + Base.WeightedSum([]);
    assert Base.WeightedSum([e]) == 0.0;
    assert Base.DocumentedDuration([e]) == e.duration + Base.DocumentedDuration([]);
    assert F1.Analyse(c, Some([p])) == Base.ComputeHistoryAnalysis(c, [e]);
  }

  /** A history in which nothing moves is trimmed to nothing and gives zero. */
  lemma FormulaOneZeroSpeedIsZero()
    ensures F1.CanAnalyse(FormulaOneTestConfiguration, Some(ZeroSpeedHistory))
    ensures F1.Analyse(FormulaOneTestConfiguration, Some(ZeroSpeedHistory)) == ZeroAnalysis
  {
    F1.StationaryHistoryRatesZero(FormulaOneTestConfiguration, ZeroSpeedHistory);
  }

  /** Two stretches at the limit, 09:00 to 11:00 and 12:00 to 17:00. */
  const MorningRun: Period := Period(1476316800 + 9 * 3600, 1476316800 + 11 * 3600, 200.0)
  const AfternoonRun: Period := Period(1476316800 + 12 * 3600, 1476316800 + 17 * 3600, 200.0)

  lemma TwoRunsTimesOfDay()
    ensures TimeOfDay(MorningRun.start) == 9 * 3600 && TimeOfDay(MorningRun.end) == 11 * 3600
    ensures TimeOfDay(AfternoonRun.start) == 12 * 3600 && TimeOfDay(AfternoonRun.end) == 17 * 3600
  {
    OnCannedDay(MorningRun.start);
    OnCannedDay(MorningRun.end);
    OnCannedDay(AfternoonRun.start);
    OnCannedDay(AfternoonRun.end);
  }

  /** Both stretches move, so the trim keeps both; they rate 1 and the hour between them is the one gap. */
  lemma TwoRunsPeriodAnalyses()
    ensures F1.GetValidPeriods([MorningRun, AfternoonRun]) == [MorningRun, AfternoonRun]
    ensures F1.PeriodAnalyses(FormulaOnePenaltyConfiguration, [MorningRun, AfternoonRun]) == UndocumentedHourEntries
  {
    var c, v := FormulaOnePenaltyConfiguration, [MorningRun, AfternoonRun];
    assert FirstMoving(v) == 0 && LastMoving(v) == 1;
    assert v[0..2] == v;
    TwoRunsTimesOfDay();
    assert F1.ScoredPeriods(c, v) == [F1.ScorePeriod(c, MorningRun), F1.ScorePeriod(c, AfternoonRun)];
    assert Base.InternalGap(c, MorningRun, AfternoonRun) == Some(Base.Undocumented(11 * 3600, 12 * 3600));
    assert F1.InternalGapsUpTo(c, v, 1) == [];
  }

  /**
   * Formula One with the penalty on: 7 hours at the limit with a 1-hour internal gap
   * gives 25200 / 28800 = 0.875, halved to 0.4375.
   */
  lemma FormulaOneUndocumentedHourWithPenalty()
    ensures F1.CanAnalyse(FormulaOnePenaltyConfiguration, Some([MorningRun, AfternoonRun]))
    ensures F1.Analyse(FormulaOnePenaltyConfiguration, Some([MorningRun, AfternoonRun])) == HistoryAnalysis(7 * 3600, 0.4375)
  {
    TwoRunsPeriodAnalyses();
    UndocumentedHourSums();
    var r := Base.ComputeHistoryAnalysis(FormulaOnePenaltyConfiguration, UndocumentedHourEntries);
    assert r.driverRating * 28800.0 == 25200.0 * 0.5;
  }
}
