/**
 * The one-hour getaway window, 13:00 to 14:00 with limit 80, on the canned history,
 * under the delivery pipeline and under the getaway profile.
 */
module GetawayScenarios {
  import opened Wrappers
  import opened Entities
  import opened BaseDriverAnalyser
  import opened SpeedTrim
  import opened Scenarios
  import Delivery = DeliveryDriverAnalyser
  import Getaway = GetawayDriverAnalyser

  /** The getaway test configuration: 13:00 to 14:00, limit 80, every other setting left at its default. */
  const GetawayTestConfiguration: DriverConfiguration :=
    DriverConfiguration(13 * 3600, 14 * 3600, 80.0, 0.0, false, 0.0)

  /** Only the stop that ends at 13:30 and the drive that starts there reach into the window. */
  lemma GetawayOverlaps()
    ensures !OverlapsWindow(GetawayTestConfiguration, H0) && !OverlapsWindow(GetawayTestConfiguration, H1)
    ensures !OverlapsWindow(GetawayTestConfiguration, H2) && !OverlapsWindow(GetawayTestConfiguration, H3)
    ensures OverlapsWindow(GetawayTestConfiguration, H4) && OverlapsWindow(GetawayTestConfiguration, H5)
    ensures !OverlapsWindow(GetawayTestConfiguration, H6)
  {
    HistoryTimesOfDay();
  }

  lemma GetawayFilterTrimmed()
    ensures WindowFilter(GetawayTestConfiguration, [H1, H2, H3, H4, H5]) == [H4, H5]
  {
    var c := GetawayTestConfiguration;
    GetawayOverlaps();
    FilterKeepsOverlapping(c, [H4, H5]);
    assert WindowFilter(c, [H3, H4, H5]) == [H4, H5];
    assert WindowFilter(c, [H2, H3, H4, H5]) == [H4, H5];
  }

  lemma GetawayFilter()
    ensures WindowFilter(GetawayTestConfiguration, History) == [H4, H5]
  {
    var c := GetawayTestConfiguration;
    GetawayOverlaps();
    GetawayFilterTrimmed();
    assert WindowFilter(c, [H6]) == [];
    assert WindowFilter(c, [H5, H6]) == [H5];
    assert WindowFilter(c, [H4, H5, H6]) == [H4, H5];
    assert WindowFilter(c, [H3, H4, H5, H6]) == [H4, H5];
    assert WindowFilter(c, [H2, H3, H4, H5, H6]) == [H4, H5];
    assert WindowFilter(c, [H1, H2, H3, H4, H5, H6]) == [H4, H5];
  }

  /** The window keeps the two periods around 13:30. */
  lemma GetawayValidPeriods()
    ensures GetValidPeriods(GetawayTestConfiguration, History) == [H4, H5]
  {
    GetawayFilter();
    SortByStartOfSorted([H4, H5]);
  }

  /** The trim drops only the idle first and last periods. */
  lemma HistoryTrim()
    ensures TrimEdges(History) == [H1, H2, H3, H4, H5]
  {
    assert FirstMoving(History) == 1;
    assert LastMoving(History) == 5;
    assert History[1..6] == [H1, H2, H3, H4, H5];
  }

  /** After the trim the window keeps the same two periods. */
  lemma GetawayTrimmedValidPeriods()
    ensures Getaway.GetawayValidPeriods(GetawayTestConfiguration, History) == [H4, H5]
  {
    HistoryTrim();
    GetawayFilterTrimmed();
    SortByStartOfSorted([H4, H5]);
    assert GetValidPeriods(GetawayTestConfiguration, [H1, H2, H3, H4, H5]) == [H4, H5];
  }

  /** The stop is clipped to 13:00 and rated 0; the drive is clipped to 14:00 and rated 29 / 80. No gap remains. */
  const GetawayEntries: seq<PeriodAnalysis> := [
    PeriodAnalysis(13 * 3600, 13 * 3600 + 30 * 60, 1800, 0.0, false),
    PeriodAnalysis(13 * 3600 + 30 * 60, 14 * 3600, 1800, 29.0 / 80.0, false)]

  lemma GetawayPeriodScores()
    ensures ScorePeriod(GetawayTestConfiguration, H4) == PeriodAnalysis(13 * 3600, 13 * 3600 + 30 * 60, 1800, 0.0, false)
    ensures ScorePeriod(GetawayTestConfiguration, H5) == PeriodAnalysis(13 * 3600 + 30 * 60, 14 * 3600, 1800, 29.0 / 80.0, false)
  {
    HistoryTimesOfDay();
  }

  lemma GetawayScoredList()
    ensures ScoredPeriods(GetawayTestConfiguration, [H4, H5]) ==
      [ScorePeriod(GetawayTestConfiguration, H4), ScorePeriod(GetawayTestConfiguration, H5)]
  {
  }

  lemma GetawayScores()
    ensures ScoredPeriods(GetawayTestConfiguration, [H4, H5]) == GetawayEntries
  {
    GetawayScoredList();
    GetawayPeriodScores();
  }

  lemma GetawayGaps()
    ensures UndocumentedPeriods(GetawayTestConfiguration, [H4, H5]) == []
  {
    HistoryTimesOfDay();
    var c, v := GetawayTestConfiguration, [H4, H5];
    assert GapAt(c, v, 0) == None;
    assert InternalGap(c, H4, H5) == None;
    assert GapAt(c, v, 1) == None;
    assert GapsUpTo(c, v, 1) == [];
  }

  lemma GetawayPeriodAnalyses()
    ensures PeriodAnalyses(GetawayTestConfiguration, [H4, H5]) == GetawayEntries
  {
    GetawayScores();
    GetawayGaps();
    assert GetawayEntries + [] == GetawayEntries;
  }

  lemma GetawayAggregate()
    ensures Aggregatable(GetawayEntries)
    ensures ComputeHistoryAnalysis(GetawayTestConfiguration, GetawayEntries) == HistoryAnalysis(3600, 29.0 / 160.0)
  {
    var es := GetawayEntries;
    assert es[2..] == [];
    SuffixSums(es, 1);
    SuffixSums(es, 0);
    assert es[0..] == es;
    assert TotalDuration(es) == 3600 && WeightedSum(es) == 652.5 && DocumentedDuration(es) == 3600;
    var r := ComputeHistoryAnalysis(GetawayTestConfiguration, es);
    assert r.driverRating * 3600.0 == 652.5;
  }

  /**
   * The delivery pipeline with the getaway window on the canned history: one hour
   * analysed, rated 652.5 / 3600 (about 0.1813).
   */
  lemma DeliveryOnGetawayWindow()
    ensures Delivery.CanAnalyse(GetawayTestConfiguration, Some(History))
    ensures Delivery.Analyse(GetawayTestConfiguration, Some(History)) == HistoryAnalysis(3600, 29.0 / 160.0)
  {
    GetawayValidPeriods();
    GetawayPeriodAnalyses();
    GetawayAggregate();
  }

  /** The getaway profile gives the same result: the periods its trim removes lie outside the window anyway. */
  lemma GetawayOnHistory()
    ensures Getaway.CanAnalyse(GetawayTestConfiguration, Some(History))
    ensures Getaway.Analyse(GetawayTestConfiguration, Some(History)) == HistoryAnalysis(3600, 29.0 / 160.0)
  {
    GetawayTrimmedValidPeriods();
    GetawayPeriodAnalyses();
    GetawayAggregate();
  }

  /** One period at 80 from 09:00 to 17:00. */
  const GetawayAtLimitRun: Period := Period(1476316800 + 9 * 3600, 1476316800 + 17 * 3600, 80.0)

  /** Under the getaway window it is clipped to 13:00 to 14:00: one hour rated 1. */
  lemma DeliveryAtLimitOnGetawayWindow()
    ensures Delivery.CanAnalyse(GetawayTestConfiguration, Some([GetawayAtLimitRun]))
    ensures Delivery.Analyse(GetawayTestConfiguration, Some([GetawayAtLimitRun])) == HistoryAnalysis(3600, 1.0)
  {
    OnCannedDay(GetawayAtLimitRun.start);
    OnCannedDay(GetawayAtLimitRun.end);
    SpeedAtLimitRatesOne(GetawayTestConfiguration);
    Delivery.WindowCoveredAtFullRating(GetawayTestConfiguration, GetawayAtLimitRun);
  }

  /** The getaway profile agrees: its trim keeps the one moving period. */
  lemma GetawayAtLimit()
    ensures Getaway.CanAnalyse(GetawayTestConfiguration, Some([GetawayAtLimitRun]))
    ensures Getaway.Analyse(GetawayTestConfiguration, Some([GetawayAtLimitRun])) == HistoryAnalysis(3600, 1.0)
  {
    DeliveryAtLimitOnGetawayWindow();
    SingleMovingUntrimmed(GetawayAtLimitRun);
    GetawayAtLimitDefined();
    Getaway.IsDeliveryOnTrimmed(GetawayTestConfiguration, [GetawayAtLimitRun]);
  }

  /** A lone moving period survives the edge trim. */
  lemma SingleMovingUntrimmed(p: Period)
    requires Moving(p)
    ensures TrimEdges([p]) == [p]
  {
    assert FirstMoving([p]) == 0 && LastMoving([p]) == 0;
  }

  lemma GetawayAtLimitDefined()
    ensures Getaway.CanAnalyse(GetawayTestConfiguration, Some([GetawayAtLimitRun]))
  {
    OnCannedDay(GetawayAtLimitRun.start);
    OnCannedDay(GetawayAtLimitRun.end);
    Getaway.AnalyseDefined(GetawayTestConfiguration, [GetawayAtLimitRun]);
  }

  /** Under the 13:00 to 14:00 window, a period of no length at 09:00 does not overlap and gives zero. */
  lemma DeliverySameStartAndEndOnGetawayWindow()
    ensures Delivery.CanAnalyse(GetawayTestConfiguration, Some([SameStartAndEnd]))
    ensures Delivery.Analyse(GetawayTestConfiguration, Some([SameStartAndEnd])) == ZeroAnalysis
  {
    OnCannedDay(SameStartAndEnd.start);
    var c, p := GetawayTestConfiguration, SameStartAndEnd;
    assert !OverlapsWindow(c, p);
    assert WindowFilter(c, [p]) == [];
    assert GetValidPeriods(c, [p]) == [];
    assert PeriodAnalyses(c, []) == [];
  }

  /** The getaway profile agrees: the period moves, so the trim keeps it, and the window drops it. */
  lemma GetawaySameStartAndEndIsZero()
    ensures Getaway.CanAnalyse(GetawayTestConfiguration, Some([SameStartAndEnd]))
    ensures Getaway.Analyse(GetawayTestConfiguration, Some([SameStartAndEnd])) == ZeroAnalysis
  {
    DeliverySameStartAndEndOnGetawayWindow();
    OnCannedDay(SameStartAndEnd.start);
    assert !OverlapsWindow(GetawayTestConfiguration, SameStartAndEnd);
    SingleMovingUntrimmed(SameStartAndEnd);
    Getaway.AnalyseDefined(GetawayTestConfiguration, [SameStartAndEnd]);
    Getaway.IsDeliveryOnTrimmed(GetawayTestConfiguration, [SameStartAndEnd]);
  }

  /** Under the 13:00 to 14:00 window, the zero-speed history lies wholly before the window and gives zero. */
  lemma DeliveryZeroSpeedOnGetawayWindow()
    ensures Delivery.CanAnalyse(GetawayTestConfiguration, Some(ZeroSpeedHistory))
    ensures Delivery.Analyse(GetawayTestConfiguration, Some(ZeroSpeedHistory)) == ZeroAnalysis
  {
    var c, h := GetawayTestConfiguration, ZeroSpeedHistory;
    forall i | 0 <= i < |h|
      ensures !OverlapsWindow(c, h[i])
    {
      OnCannedDay(h[i].end);
    }
    assert WindowFilter(c, h[3..]) == [];
    assert WindowFilter(c, h[2..]) == [];
    assert WindowFilter(c, h[1..]) == [];
    assert WindowFilter(c, h) == [];
    assert GetValidPeriods(c, h) == [];
    assert PeriodAnalyses(c, []) == [];
  }

  /** The getaway profile agrees: nothing moves, so the trim leaves nothing. */
  lemma GetawayZeroSpeedIsZero()
    ensures Getaway.CanAnalyse(GetawayTestConfiguration, Some(ZeroSpeedHistory))
    ensures Getaway.Analyse(GetawayTestConfiguration, Some(ZeroSpeedHistory)) == ZeroAnalysis
  {
    Getaway.StationaryHistoryRatesZero(GetawayTestConfiguration, ZeroSpeedHistory);
  }
}
