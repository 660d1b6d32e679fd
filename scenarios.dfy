/**
 * The canned driving data and the results the analysers give on it. The canned day
 * is 2016-10-13 UTC; every period is offset from its midnight.
 */
module Scenarios {
  import opened Wrappers
  import opened Entities
  import opened BaseDriverAnalyser
  import Delivery = DeliveryDriverAnalyser

  // Timestamps are written out as 1476316800 (2016-10-13T00:00:00Z in seconds since
  // the epoch) plus hours and minutes, so that each is a literal.

  // The canned history: idle until 08:54, then driving with a stop from 12:35 to 13:30,
  // idle again from 19:12 to midnight.
  const H0: Period := Period(1476316800, 1476316800 + 8 * 3600 + 54 * 60, 0.0)
  const H1: Period := Period(1476316800 + 8 * 3600 + 54 * 60, 1476316800 + 9 * 3600 + 28 * 60, 28.0)
  const H2: Period := Period(1476316800 + 9 * 3600 + 28 * 60, 1476316800 + 9 * 3600 + 35 * 60, 33.0)
  const H3: Period := Period(1476316800 + 9 * 3600 + 50 * 60, 1476316800 + 12 * 3600 + 35 * 60, 25.0)
  const H4: Period := Period(1476316800 + 12 * 3600 + 35 * 60, 1476316800 + 13 * 3600 + 30 * 60, 0.0)
  const H5: Period := Period(1476316800 + 13 * 3600 + 30 * 60, 1476316800 + 19 * 3600 + 12 * 60, 29.0)
  const H6: Period := Period(1476316800 + 19 * 3600 + 12 * 60, 1476316800 + 24 * 3600, 0.0)
  const History: seq<Period> := [H0, H1, H2, H3, H4, H5, H6]

  /** A single period of no length at 09:00, driven at 30. */
  const SameStartAndEnd: Period := Period(1476316800 + 9 * 3600, 1476316800 + 9 * 3600, 30.0)

  /** Four stationary periods, all before 09:00: the zero-speed history of the Formula One and getaway fixtures. */
  const ZeroSpeedHistory: seq<Period> := [
    Period(1476316800, 1476316800 + 2 * 3600, 0.0),
    Period(1476316800 + 3 * 3600 + 10 * 60, 1476316800 + 4 * 3600, 0.0),
    Period(1476316800 + 5 * 3600 + 20 * 60, 1476316800 + 7 * 3600, 0.0),
    Period(1476316800 + 7 * 3600 + 12 * 60, 1476316800 + 8 * 3600 + 59 * 60, 0.0)
  ]

  /** The times of day of the canned history's endpoints; the last period ends at the next midnight. */
  lemma HistoryTimesOfDay()
    ensures TimeOfDay(H0.start) == 0 && TimeOfDay(H0.end) == 8 * 3600 + 54 * 60
    ensures TimeOfDay(H1.start) == 8 * 3600 + 54 * 60 && TimeOfDay(H1.end) == 9 * 3600 + 28 * 60
    ensures TimeOfDay(H2.start) == 9 * 3600 + 28 * 60 && TimeOfDay(H2.end) == 9 * 3600 + 35 * 60
    ensures TimeOfDay(H3.start) == 9 * 3600 + 50 * 60 && TimeOfDay(H3.end) == 12 * 3600 + 35 * 60
    ensures TimeOfDay(H4.start) == 12 * 3600 + 35 * 60 && TimeOfDay(H4.end) == 13 * 3600 + 30 * 60
    ensures TimeOfDay(H5.start) == 13 * 3600 + 30 * 60 && TimeOfDay(H5.end) == 19 * 3600 + 12 * 60
    ensures TimeOfDay(H6.start) == 19 * 3600 + 12 * 60 && TimeOfDay(H6.end) == 0
  {
  }

  /** The delivery test configuration: 09:00 to 17:00, limit 30, every other setting left at its default. */
  const DeliveryTestConfiguration: DriverConfiguration :=
    DriverConfiguration(9 * 3600, 17 * 3600, 30.0, 0.0, false, 0.0)

  /** A list whose periods all overlap the window passes the filter unchanged. */
  lemma {:induction false} FilterKeepsOverlapping(c: DriverConfiguration, s: seq<Period>)
    requires forall p | p in s :: OverlapsWindow(c, p)
    ensures WindowFilter(c, s) == s
  {
    if s != [] {
      assert forall p | p in s[1..] :: p in s;
      FilterKeepsOverlapping(c, s[1..]);
      assert s == [s[0]] + s[1..];
    }
  }

  /** On the canned day the time of day is the offset from 1476316800. */
  lemma OnCannedDay(t: int)
    requires 1476316800 <= t < 1476316800 + 24 * 3600
    ensures TimeOfDay(t) == t - 1476316800
  {
    assert 1476316800 == 17087 * SecondsPerDay;
  }

  /** One step of each sum over a suffix of the entries. */
  lemma SuffixSums(es: seq<PeriodAnalysis>, k: nat)
    requires k < |es|
    ensures TotalDuration(es[k..]) == es[k].duration + TotalDuration(es[k + 1..])
    ensures WeightedSum(es[k..]) == (es[k].duration as real) * es[k].rating + WeightedSum(es[k + 1..])
    ensures DocumentedDuration(es[k..]) == (if es[k].isUndocumented then 0 else es[k].duration) + DocumentedDuration(es[k + 1..])
  {
    assert es[k..][1..] == es[k + 1..];
  }

  /** Under the delivery window only the first and last (idle) periods fall outside. */
  lemma DeliveryOverlaps()
    ensures !OverlapsWindow(DeliveryTestConfiguration, H0) && !OverlapsWindow(DeliveryTestConfiguration, H6)
    ensures OverlapsWindow(DeliveryTestConfiguration, H1) && OverlapsWindow(DeliveryTestConfiguration, H2)
    ensures OverlapsWindow(DeliveryTestConfiguration, H3) && OverlapsWindow(DeliveryTestConfiguration, H4)
    ensures OverlapsWindow(DeliveryTestConfiguration, H5)
  {
    HistoryTimesOfDay();
  }

  lemma HistoryMiddleSorted()
    ensures SortedByStart([H1, H2, H3, H4, H5])
  {
  }

  lemma DeliveryDropsFirst()
    ensures WindowFilter(DeliveryTestConfiguration, History) == WindowFilter(DeliveryTestConfiguration, [H1, H2, H3, H4, H5, H6])
  {
    DeliveryOverlaps();
    assert History == [] + [H0] + [H1, H2, H3, H4, H5, H6];
    WindowFilterSkipsOutside(DeliveryTestConfiguration, [], H0, [H1, H2, H3, H4, H5, H6]);
  }

  lemma DeliveryDropsLast()
    ensures WindowFilter(DeliveryTestConfiguration, [H1, H2, H3, H4, H5, H6]) == WindowFilter(DeliveryTestConfiguration, [H1, H2, H3, H4, H5])
  {
    var mid := [H1, H2, H3, H4, H5];
    DeliveryOverlaps();
    assert [H1, H2, H3, H4, H5, H6] == mid + [H6] + [];
    WindowFilterSkipsOutside(DeliveryTestConfiguration, mid, H6, []);
    assert mid + [] == mid;
  }

  lemma DeliveryKeepsMiddle()
    ensures WindowFilter(DeliveryTestConfiguration, [H1, H2, H3, H4, H5]) == [H1, H2, H3, H4, H5]
  {
    DeliveryOverlaps();
    FilterKeepsOverlapping(DeliveryTestConfiguration, [H1, H2, H3, H4, H5]);
  }

  /** The delivery window keeps the five periods between the idle ends of the canned history. */
  lemma DeliveryValidPeriods()
    ensures GetValidPeriods(DeliveryTestConfiguration, History) == [H1, H2, H3, H4, H5]
  {
    DeliveryDropsFirst();
    DeliveryDropsLast();
    DeliveryKeepsMiddle();
    HistoryMiddleSorted();
    SortByStartOfSorted([H1, H2, H3, H4, H5]);
  }

  /** The delivery scorer clips the first and last valid periods to 09:00 and 17:00 and rates 33 above the limit as 0. */
  lemma DeliveryPeriodScores()
    ensures ScorePeriod(DeliveryTestConfiguration, H1) == PeriodAnalysis(9 * 3600, 9 * 3600 + 28 * 60, 1680, 28.0 / 30.0, false)
    ensures ScorePeriod(DeliveryTestConfiguration, H2) == PeriodAnalysis(9 * 3600 + 28 * 60, 9 * 3600 + 35 * 60, 420, 0.0, false)
    ensures ScorePeriod(DeliveryTestConfiguration, H3) == PeriodAnalysis(9 * 3600 + 50 * 60, 12 * 3600 + 35 * 60, 9900, 25.0 / 30.0, false)
    ensures ScorePeriod(DeliveryTestConfiguration, H4) == PeriodAnalysis(12 * 3600 + 35 * 60, 13 * 3600 + 30 * 60, 3300, 0.0, false)
    ensures ScorePeriod(DeliveryTestConfiguration, H5) == PeriodAnalysis(13 * 3600 + 30 * 60, 17 * 3600, 12600, 29.0 / 30.0, false)
  {
    HistoryTimesOfDay();
  }

  lemma DeliveryScoredList()
    ensures ScoredPeriods(DeliveryTestConfiguration, [H1, H2, H3, H4, H5]) == [
      ScorePeriod(DeliveryTestConfiguration, H1), ScorePeriod(DeliveryTestConfiguration, H2),
      ScorePeriod(DeliveryTestConfiguration, H3), ScorePeriod(DeliveryTestConfiguration, H4),
      ScorePeriod(DeliveryTestConfiguration, H5)]
  {
  }

  lemma DeliveryScores()
    ensures ScoredPeriods(DeliveryTestConfiguration, [H1, H2, H3, H4, H5]) == [
      PeriodAnalysis(9 * 3600, 9 * 3600 + 28 * 60, 1680, 28.0 / 30.0, false),
      PeriodAnalysis(9 * 3600 + 28 * 60, 9 * 3600 + 35 * 60, 420, 0.0, false),
      PeriodAnalysis(9 * 3600 + 50 * 60, 12 * 3600 + 35 * 60, 9900, 25.0 / 30.0, false),
      PeriodAnalysis(12 * 3600 + 35 * 60, 13 * 3600 + 30 * 60, 3300, 0.0, false),
      PeriodAnalysis(13 * 3600 + 30 * 60, 17 * 3600, 12600, 29.0 / 30.0, false)]
  {
    DeliveryScoredList();
    DeliveryPeriodScores();
  }

  /** Among the delivery valid periods the only gap is the 15 minutes from 09:35 to 09:50. */
  lemma DeliveryGaps()
    ensures UndocumentedPeriods(DeliveryTestConfiguration, [H1, H2, H3, H4, H5]) ==
      [Undocumented(9 * 3600 + 35 * 60, 9 * 3600 + 50 * 60)]
  {
    HistoryTimesOfDay();
    var c, v := DeliveryTestConfiguration, [H1, H2, H3, H4, H5];
    assert GapAt(c, v, 0) == None;
    assert GapAt(c, v, 1) == None;
    assert GapAt(c, v, 2) == Some(Undocumented(9 * 3600 + 35 * 60, 9 * 3600 + 50 * 60));
    assert GapAt(c, v, 3) == None;
    assert GapAt(c, v, 4) == None;
    var g := Undocumented(9 * 3600 + 35 * 60, 9 * 3600 + 50 * 60);
    assert GapsUpTo(c, v, 1) == [];
    assert GapsUpTo(c, v, 2) == [];
    assert GapsUpTo(c, v, 3) == [g];
    assert GapsUpTo(c, v, 4) == [g];
  }

  /** The delivery entries for the canned history: five scored periods, then the one gap. */
  const DeliveryEntries: seq<PeriodAnalysis> := [
    PeriodAnalysis(9 * 3600, 9 * 3600 + 28 * 60, 1680, 28.0 / 30.0, false),
    PeriodAnalysis(9 * 3600 + 28 * 60, 9 * 3600 + 35 * 60, 420, 0.0, false),
    PeriodAnalysis(9 * 3600 + 50 * 60, 12 * 3600 + 35 * 60, 9900, 25.0 / 30.0, false),
    PeriodAnalysis(12 * 3600 + 35 * 60, 13 * 3600 + 30 * 60, 3300, 0.0, false),
    PeriodAnalysis(13 * 3600 + 30 * 60, 17 * 3600, 12600, 29.0 / 30.0, false),
    Undocumented(9 * 3600 + 35 * 60, 9 * 3600 + 50 * 60)]

  lemma DeliveryPeriodAnalyses()
    ensures PeriodAnalyses(DeliveryTestConfiguration, [H1, H2, H3, H4, H5]) == DeliveryEntries
  {
    DeliveryScores();
    DeliveryGaps();
  }

  /** The sums over the last three entries. */
  lemma DeliveryTailSums(es: seq<PeriodAnalysis>)
    requires es == DeliveryEntries
    ensures TotalDuration(es[3..]) == 16800 && WeightedSum(es[3..]) == 12180.0 && DocumentedDuration(es[3..]) == 15900
  {
    assert es[6..] == [];
    SuffixSums(es, 5);
    assert TotalDuration(es[5..]) == 900 && WeightedSum(es[5..]) == 0.0 && DocumentedDuration(es[5..]) == 0;
    SuffixSums(es, 4);
    assert TotalDuration(es[4..]) == 13500 && WeightedSum(es[4..]) == 12180.0 && DocumentedDuration(es[4..]) == 12600;
    SuffixSums(es, 3);
  }

  lemma DeliveryMiddleSums(es: seq<PeriodAnalysis>)
    requires es == DeliveryEntries
    ensures TotalDuration(es[1..]) == 27120 && WeightedSum(es[1..]) == 20430.0 && DocumentedDuration(es[1..]) == 26220
  {
    DeliveryTailSums(es);
    SuffixSums(es, 2);
    assert TotalDuration(es[2..]) == 26700 && WeightedSum(es[2..]) == 20430.0 && DocumentedDuration(es[2..]) == 25800;
    SuffixSums(es, 1);
  }

  /** The totals over the delivery entries: 8 hours, 7 h 45 min of them documented, 21998 rating-weighted seconds. */
  lemma DeliverySums(es: seq<PeriodAnalysis>)
    requires es == DeliveryEntries
    ensures TotalDuration(es) == 28800 && WeightedSum(es) == 21998.0 && DocumentedDuration(es) == 27900
  {
    DeliveryMiddleSums(es);
    SuffixSums(es, 0);
    assert es[0..] == es;
  }

  /** The aggregate of the delivery entries, without penalty. */
  lemma DeliveryAggregate()
    ensures Aggregatable(DeliveryEntries)
    ensures ComputeHistoryAnalysis(DeliveryTestConfiguration, DeliveryEntries) == HistoryAnalysis(7 * 3600 + 45 * 60, 10999.0 / 14400.0)
  {
    DeliverySums(DeliveryEntries);
    var r := ComputeHistoryAnalysis(DeliveryTestConfiguration, DeliveryEntries);
    assert r.driverRating * 28800.0 == 21998.0;
  }

  /**
   * Delivery on the canned history: 7 h 45 min analysed, rated 21998 / 28800
   * (about 0.7638). The 15-minute gap at 09:35 counts towards the divisor only.
   */
  lemma DeliveryOnHistory()
    ensures Delivery.CanAnalyse(DeliveryTestConfiguration, Some(History))
    ensures Delivery.Analyse(DeliveryTestConfiguration, Some(History)) == HistoryAnalysis(7 * 3600 + 45 * 60, 10999.0 / 14400.0)
  {
    DeliveryValidPeriods();
    DeliveryPeriodAnalyses();
    DeliveryAggregate();
  }

  /** The delivery test configuration with the penalty on at factor 0.5. */
  const DeliveryPenaltyConfiguration: DriverConfiguration :=
    DriverConfiguration(9 * 3600, 17 * 3600, 30.0, 0.0, true, 0.5)

  /**
   * Delivery with the penalty on, on the canned history: the same 7 h 45 min, the
   * rating halved to 10999 / 28800 (about 0.3819).
   */
  lemma DeliveryWithPenaltyOnHistory()
    ensures Delivery.CanAnalyse(DeliveryPenaltyConfiguration, Some(History))
    ensures Delivery.Analyse(DeliveryPenaltyConfiguration, Some(History)) == HistoryAnalysis(7 * 3600 + 45 * 60, 10999.0 / 28800.0)
  {
    DeliveryOnHistory();
    Delivery.FactorIgnoredWithoutPenalty(DeliveryTestConfiguration, DeliveryPenaltyConfiguration.(isPenaltyApplicable := false), History);
    Delivery.PenaltyScalesRating(DeliveryPenaltyConfiguration, History);
  }

  /** Two stretches at exactly the limit, 09:00 to 11:00 and 12:00 to 17:00, with the hour between undocumented. */
  const P0: Period := Period(1476316800 + 9 * 3600, 1476316800 + 11 * 3600, 30.0)
  const P1: Period := Period(1476316800 + 12 * 3600, 1476316800 + 17 * 3600, 30.0)

  lemma UndocumentedHourTimesOfDay()
    ensures TimeOfDay(P0.start) == 9 * 3600 && TimeOfDay(P0.end) == 11 * 3600
    ensures TimeOfDay(P1.start) == 12 * 3600 && TimeOfDay(P1.end) == 17 * 3600
  {
  }

  lemma UndocumentedHourValidPeriods()
    ensures GetValidPeriods(DeliveryPenaltyConfiguration, [P0, P1]) == [P0, P1]
  {
    UndocumentedHourTimesOfDay();
    FilterKeepsOverlapping(DeliveryPenaltyConfiguration, [P0, P1]);
    SortByStartOfSorted([P0, P1]);
  }

  /** Both stretches rate 1; the hour between them is the one gap. */
  const UndocumentedHourEntries: seq<PeriodAnalysis> := [
    PeriodAnalysis(9 * 3600, 11 * 3600, 7200, 1.0, false),
    PeriodAnalysis(12 * 3600, 17 * 3600, 18000, 1.0, false),
    Undocumented(11 * 3600, 12 * 3600)]

  lemma UndocumentedHourPeriodAnalyses()
    ensures PeriodAnalyses(DeliveryPenaltyConfiguration, [P0, P1]) == UndocumentedHourEntries
  {
    UndocumentedHourTimesOfDay();
    var c, v := DeliveryPenaltyConfiguration, [P0, P1];
    assert ScoredPeriods(c, v) == [ScorePeriod(c, P0), ScorePeriod(c, P1)];
    assert GapAt(c, v, 0) == None;
    assert GapAt(c, v, 1) == Some(Undocumented(11 * 3600, 12 * 3600));
    assert GapsUpTo(c, v, 1) == [];
  }

  /** Eight hours in all, seven of them documented and rated 1. */
  lemma UndocumentedHourSums()
    ensures TotalDuration(UndocumentedHourEntries) == 28800
    ensures WeightedSum(UndocumentedHourEntries) == 25200.0
    ensures DocumentedDuration(UndocumentedHourEntries) == 25200
  {
    var es := UndocumentedHourEntries;
    assert es[3..] == [];
    SuffixSums(es, 2);
    SuffixSums(es, 1);
    SuffixSums(es, 0);
    assert es[0..] == es;
  }

  lemma UndocumentedHourAggregate()
    ensures Aggregatable(UndocumentedHourEntries)
    ensures ComputeHistoryAnalysis(DeliveryPenaltyConfiguration, UndocumentedHourEntries) == HistoryAnalysis(7 * 3600, 0.4375)
  {
    UndocumentedHourSums();
    var r := ComputeHistoryAnalysis(DeliveryPenaltyConfiguration, UndocumentedHourEntries);
    assert r.driverRating * 28800.0 == 25200.0 * 0.5;
  }

  /**
   * Delivery with the penalty on: 7 hours at the limit with a 1-hour gap gives
   * 25200 / 28800 = 0.875, halved to 0.4375.
   */
  lemma DeliveryUndocumentedHourWithPenalty()
    ensures Delivery.CanAnalyse(DeliveryPenaltyConfiguration, Some([P0, P1]))
    ensures Delivery.Analyse(DeliveryPenaltyConfiguration, Some([P0, P1])) == HistoryAnalysis(7 * 3600, 0.4375)
  {
    UndocumentedHourValidPeriods();
    UndocumentedHourPeriodAnalyses();
    UndocumentedHourAggregate();
  }
}
