/** The delivery profile on the edge-case histories: nothing in the window, all above the limit, all at it. */
module DeliveryEdgeScenarios {
  import opened Wrappers
  import opened Entities
  import opened BaseDriverAnalyser
  import opened Scenarios
  import Delivery = DeliveryDriverAnalyser

  /** Four drives, all over by 08:59. */
  const N0: Period := Period(1476316800, 1476316800 + 2 * 3600, 30.0)
  const N1: Period := Period(1476316800 + 3 * 3600 + 10 * 60, 1476316800 + 4 * 3600, 28.0)
  const N2: Period := Period(1476316800 + 5 * 3600 + 20 * 60, 1476316800 + 7 * 3600, 33.0)
  const N3: Period := Period(1476316800 + 7 * 3600 + 12 * 60, 1476316800 + 8 * 3600 + 59 * 60, 12.0)

  lemma NonPermittedTimesOfDay()
    ensures TimeOfDay(N0.start) == 0 && TimeOfDay(N0.end) == 2 * 3600
    ensures TimeOfDay(N1.start) == 3 * 3600 + 10 * 60 && TimeOfDay(N1.end) == 4 * 3600
    ensures TimeOfDay(N2.start) == 5 * 3600 + 20 * 60 && TimeOfDay(N2.end) == 7 * 3600
    ensures TimeOfDay(N3.start) == 7 * 3600 + 12 * 60 && TimeOfDay(N3.end) == 8 * 3600 + 59 * 60
  {
  }

  /** A history wholly outside the window analyses to zero, though it is not empty. */
  lemma DeliveryNonPermittedIsZero()
    ensures Delivery.CanAnalyse(DeliveryTestConfiguration, Some([N0, N1, N2, N3]))
    ensures Delivery.Analyse(DeliveryTestConfiguration, Some([N0, N1, N2, N3])) == ZeroAnalysis
  {
    NonPermittedTimesOfDay();
    var c := DeliveryTestConfiguration;
    assert !OverlapsWindow(c, N0) && !OverlapsWindow(c, N1) && !OverlapsWindow(c, N2) && !OverlapsWindow(c, N3);
    assert WindowFilter(c, [N3]) == [];
    assert WindowFilter(c, [N2, N3]) == [];
    assert WindowFilter(c, [N1, N2, N3]) == [];
    assert WindowFilter(c, [N0, N1, N2, N3]) == [];
    assert GetValidPeriods(c, [N0, N1, N2, N3]) == [];
    assert PeriodAnalyses(c, []) == [];
  }

  /** A period of no length at the window's start ends at 09:00, which is not after it: zero. */
  lemma DeliverySameStartAndEndIsZero()
    ensures Delivery.CanAnalyse(DeliveryTestConfiguration, Some([SameStartAndEnd]))
    ensures Delivery.Analyse(DeliveryTestConfiguration, Some([SameStartAndEnd])) == ZeroAnalysis
  {
    OnCannedDay(SameStartAndEnd.start);
    var c, p := DeliveryTestConfiguration, SameStartAndEnd;
    assert !OverlapsWindow(c, p);
    assert WindowFilter(c, [p]) == [];
    assert GetValidPeriods(c, [p]) == [];
    assert PeriodAnalyses(c, []) == [];
  }

  /** One period at exactly the limit; the rating is 1 and the analysed time is its part inside the window. */
  lemma SinglePeriodAtLimit(p: Period)
    requires CoversWindowAtLimit(p)
    ensures Delivery.CanAnalyse(DeliveryTestConfiguration, Some([p]))
    ensures Delivery.Analyse(DeliveryTestConfiguration, Some([p])) == HistoryAnalysis(8 * 3600, 1.0)
  {
    OnCannedDay(p.start);
    OnCannedDay(p.end);
    SpeedAtLimitRatesOne(DeliveryTestConfiguration);
    Delivery.WindowCoveredAtFullRating(DeliveryTestConfiguration, p);
  }

  /** A period at 30 that covers the whole window, beginning at or before 09:00 and ending at or after 17:00 on the canned day. */
  predicate CoversWindowAtLimit(p: Period) {
    1476316800 <= p.start <= 1476316800 + 9 * 3600 &&
    1476316800 + 17 * 3600 <= p.end < 1476316800 + 24 * 3600 &&
    p.averageSpeed == 30.0
  }

  /** Driving at the limit from 09:00 to 17:00 rates 1 over 8 hours. */
  lemma DeliveryAtLimitWholeWindow()
    ensures Delivery.CanAnalyse(DeliveryTestConfiguration, Some([Period(1476316800 + 9 * 3600, 1476316800 + 17 * 3600, 30.0)]))
    ensures Delivery.Analyse(DeliveryTestConfiguration, Some([Period(1476316800 + 9 * 3600, 1476316800 + 17 * 3600, 30.0)])) ==
      HistoryAnalysis(8 * 3600, 1.0)
  {
    SinglePeriodAtLimit(Period(1476316800 + 9 * 3600, 1476316800 + 17 * 3600, 30.0));
  }

  /** Driving at the limit from 08:00 to 18:00 is clipped to the window: again 1 over 8 hours. */
  lemma DeliveryAtLimitBeyondWindow()
    ensures Delivery.CanAnalyse(DeliveryTestConfiguration, Some([Period(1476316800 + 8 * 3600, 1476316800 + 18 * 3600, 30.0)]))
    ensures Delivery.Analyse(DeliveryTestConfiguration, Some([Period(1476316800 + 8 * 3600, 1476316800 + 18 * 3600, 30.0)])) ==
      HistoryAnalysis(8 * 3600, 1.0)
  {
    SinglePeriodAtLimit(Period(1476316800 + 8 * 3600, 1476316800 + 18 * 3600, 30.0));
  }

  /** Four drives inside the window, all above the limit. */
  const E0: Period := Period(1476316800 + 9 * 3600, 1476316800 + 11 * 3600, 32.0)
  const E1: Period := Period(1476316800 + 11 * 3600 + 10 * 60, 1476316800 + 13 * 3600 + 30 * 60, 40.0)
  const E2: Period := Period(1476316800 + 14 * 3600 + 40 * 60, 1476316800 + 15 * 3600, 35.0)
  const E3: Period := Period(1476316800 + 15 * 3600 + 9 * 60, 1476316800 + 16 * 3600 + 59 * 60, 45.0)

  lemma SpeedingTimesOfDay()
    ensures TimeOfDay(E0.start) == 9 * 3600 && TimeOfDay(E0.end) == 11 * 3600
    ensures TimeOfDay(E1.start) == 11 * 3600 + 10 * 60 && TimeOfDay(E1.end) == 13 * 3600 + 30 * 60
    ensures TimeOfDay(E2.start) == 14 * 3600 + 40 * 60 && TimeOfDay(E2.end) == 15 * 3600
    ensures TimeOfDay(E3.start) == 15 * 3600 + 9 * 60 && TimeOfDay(E3.end) == 16 * 3600 + 59 * 60
  {
  }

  lemma SpeedingValidPeriods()
    ensures GetValidPeriods(DeliveryTestConfiguration, [E0, E1, E2, E3]) == [E0, E1, E2, E3]
  {
    SpeedingTimesOfDay();
    var c := DeliveryTestConfiguration;
    assert OverlapsWindow(c, E0) && OverlapsWindow(c, E1) && OverlapsWindow(c, E2) && OverlapsWindow(c, E3);
    FilterKeepsOverlapping(c, [E0, E1, E2, E3]);
    assert SortedByStart([E0, E1, E2, E3]);
    SortByStartOfSorted([E0, E1, E2, E3]);
  }

  lemma SpeedingScoredDurations()
    ensures TotalDuration(ScoredPeriods(DeliveryTestConfiguration, [E0, E1, E2, E3])) == 6 * 3600 + 30 * 60
  {
    SpeedingTimesOfDay();
    var c := DeliveryTestConfiguration;
    var s := ScoredPeriods(c, [E0, E1, E2, E3]);
    assert s[0].duration == 7200 && s[1].duration == 8400 && s[2].duration == 1200 && s[3].duration == 6600;
    assert s[3..][1..] == [];
    assert TotalDuration(s[3..]) == 6600;
    assert TotalDuration(s[2..]) == 7800;
    assert TotalDuration(s[1..]) == 16200;
  }

  lemma SpeedingAggregate()
    ensures PipelineDefined(DeliveryTestConfiguration, [E0, E1, E2, E3])
    ensures ComputeHistoryAnalysis(DeliveryTestConfiguration, PeriodAnalyses(DeliveryTestConfiguration, [E0, E1, E2, E3])).driverRating == 0.0
  {
    SpeedingEntriesWeighZero(DeliveryTestConfiguration, [E0, E1, E2, E3]);
  }

  /**
   * A history driven wholly above the limit, with the substitute rating 0, rates 0;
   * the analysed time is still its 6 h 30 min inside the window.
   */
  lemma DeliverySpeedingRatesZero()
    ensures Delivery.CanAnalyse(DeliveryTestConfiguration, Some([E0, E1, E2, E3]))
    ensures Delivery.Analyse(DeliveryTestConfiguration, Some([E0, E1, E2, E3])) == HistoryAnalysis(6 * 3600 + 30 * 60, 0.0)
  {
    SpeedingValidPeriods();
    SpeedingAggregate();
    SpeedingScoredDurations();
  }
}
