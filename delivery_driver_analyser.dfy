/**
 * The delivery profile: the shared pipeline as it stands — window filter, clipping
 * scorer, window-aware gap detector, aggregator — behind a null/empty guard.
 */
module DeliveryDriverAnalyser {
  import opened Wrappers
  import opened Entities
  import opened BaseDriverAnalyser

  /** What `Analyse` needs in order not to throw: nothing for a null history, a defined pipeline otherwise. */
  predicate CanAnalyse(c: DriverConfiguration, history: Option<seq<Period>>) {
    history.Some? ==> PipelineDefined(c, GetValidPeriods(c, history.value))
  }

  /**
   * DeliveryDriverAnalyser.Analyse: the zero result for a null or empty history,
   * otherwise the aggregate of the scored valid periods and the gaps among them.
   * Only the scored periods count towards the analysed duration.
   */
  function Analyse(c: DriverConfiguration, history: Option<seq<Period>>): (r: HistoryAnalysis)
    requires CanAnalyse(c, history)
    ensures history.None? || history.value == [] ==> r == ZeroAnalysis
    ensures history.Some? ==> r.analysedDuration == TotalDuration(ScoredPeriods(c, GetValidPeriods(c, history.value)))
  {
    if history.None? || history.value == [] then ZeroAnalysis
    else
      var valid := GetValidPeriods(c, history.value);
      var scored := ScoredPeriods(c, valid);
      var gaps := UndocumentedPeriods(c, valid);
      DocumentedExcludesGaps(scored, gaps);
      ComputeHistoryAnalysis(c, scored + gaps)
  }

  /**
   * With a positive speed limit, an ordered window, and no window-overlapping period
   * that wraps past midnight, nothing divides by zero.
   */
  lemma AnalyseDefined(c: DriverConfiguration, h: seq<Period>)
    requires c.maxSpeed > 0.0 && c.startTime <= c.endTime
    requires forall p | p in h && OverlapsWindow(c, p) :: TimeOfDay(p.start) <= TimeOfDay(p.end)
    ensures CanAnalyse(c, Some(h))
  {
    ValidPeriodsFromHistory(c, h);
    WindowPipelineDefined(c, GetValidPeriods(c, h));
  }

  /** Every valid period comes from the history and overlaps the window. */
  lemma ValidPeriodsFromHistory(c: DriverConfiguration, h: seq<Period>)
    ensures forall i | 0 <= i < |GetValidPeriods(c, h)| ::
              GetValidPeriods(c, h)[i] in h && OverlapsWindow(c, GetValidPeriods(c, h)[i])
  {
    var valid := GetValidPeriods(c, h);
    assert forall i | 0 <= i < |valid| :: valid[i] in valid;
  }

  /**
   * With a positive speed limit, an ordered window, non-negative speeds, a substitute
   * rating and penalty factor in [0, 1], and no window-overlapping period that wraps
   * past midnight, the rating lies in [0, 1] and the analysed duration is not negative.
   */
  lemma RatingInUnitInterval(c: DriverConfiguration, h: seq<Period>)
    requires c.maxSpeed > 0.0 && c.startTime <= c.endTime
    requires 0.0 <= c.ratingForExceedingSpeedLimit <= 1.0 && 0.0 <= PenaltyMultiplier(c) <= 1.0
    requires forall p | p in h :: p.averageSpeed >= 0.0
    requires forall p | p in h && OverlapsWindow(c, p) :: TimeOfDay(p.start) <= TimeOfDay(p.end)
    ensures CanAnalyse(c, Some(h))
    ensures 0.0 <= Analyse(c, Some(h)).driverRating <= 1.0
    ensures Analyse(c, Some(h)).analysedDuration >= 0
  {
    var valid := GetValidPeriods(c, h);
    ValidPeriodsFromHistory(c, h);
    WindowPipelineDefined(c, valid);
    EntriesRatedInUnitInterval(c, valid);
    var scored, gaps := ScoredPeriods(c, valid), UndocumentedPeriods(c, valid);
    assert PeriodAnalyses(c, valid) == scored + gaps;
    EntriesRatingBounded(c, scored, gaps);
    if h != [] {
      assert Analyse(c, Some(h)) == ComputeHistoryAnalysis(c, scored + gaps);
    }
  }

  /**
   * A single period whose times of day reach from the window's start to its end,
   * rated 1 (at the limit, or above it when the substitute rating is 1), is clipped
   * to the window and rated 1 (times the penalty, when it applies) over the window's
   * whole length.
   */
  lemma WindowCoveredAtFullRating(c: DriverConfiguration, p: Period)
    requires c.startTime < c.endTime
    requires TimeOfDay(p.start) <= c.startTime && c.endTime <= TimeOfDay(p.end)
    requires Rateable(c, p) && SpeedRating(c, p.averageSpeed) == 1.0
    ensures CanAnalyse(c, Some([p]))
    ensures Analyse(c, Some([p])) == HistoryAnalysis(c.endTime - c.startTime, PenaltyMultiplier(c))
  {
    CoveringPeriodEntries(c, p);
    SingleEntryAnalysis(c, ScorePeriod(c, p));
    assert Analyse(c, Some([p])) == ComputeHistoryAnalysis(c, [ScorePeriod(c, p)]);
  }

  /** Such a period is the only valid one; it yields one entry rated 1 over the window and no gap. */
  lemma CoveringPeriodEntries(c: DriverConfiguration, p: Period)
    requires c.startTime < c.endTime
    requires TimeOfDay(p.start) <= c.startTime && c.endTime <= TimeOfDay(p.end)
    requires Rateable(c, p) && SpeedRating(c, p.averageSpeed) == 1.0
    ensures GetValidPeriods(c, [p]) == [p]
    ensures PeriodAnalyses(c, [p]) == [ScorePeriod(c, p)]
    ensures ScorePeriod(c, p).rating == 1.0 && ScorePeriod(c, p).duration == c.endTime - c.startTime
  {
    CoveringPeriodValid(c, p);
    SinglePeriodGaps(c, p);
    assert ScoredPeriods(c, [p]) == [ScorePeriod(c, p)];
  }

  lemma CoveringPeriodValid(c: DriverConfiguration, p: Period)
    requires c.startTime < c.endTime && TimeOfDay(p.start) <= c.startTime && c.endTime <= TimeOfDay(p.end)
    ensures GetValidPeriods(c, [p]) == [p]
  {
    assert WindowFilter(c, [p][1..]) == [];
    assert WindowFilter(c, [p]) == [p];
    SortByStartOfSorted([p]);
  }

  /** When no period moves, the rating is 0 (the speed limit being positive). */
  lemma StationaryRatesZero(c: DriverConfiguration, h: seq<Period>)
    requires c.maxSpeed > 0.0
    requires forall p | p in h :: p.averageSpeed == 0.0
    requires CanAnalyse(c, Some(h))
    ensures Analyse(c, Some(h)).driverRating == 0.0
  {
    var valid := GetValidPeriods(c, h);
    assert forall i | 0 <= i < |valid| :: valid[i] in h;
    StationaryEntriesWeighZero(c, valid);
  }

  /** A period that does not overlap the window changes nothing, wherever it stands in the history. */
  lemma OutsideWindowIgnored(c: DriverConfiguration, before: seq<Period>, p: Period, after: seq<Period>)
    requires !OverlapsWindow(c, p)
    requires CanAnalyse(c, Some(before + after))
    ensures CanAnalyse(c, Some(before + [p] + after))
    ensures Analyse(c, Some(before + [p] + after)) == Analyse(c, Some(before + after))
  {
    var with, without := before + [p] + after, before + after;
    OutsideWindowFiltered(c, before, p, after);
    var valid := GetValidPeriods(c, without);
    if without == [] {
      assert valid == [];
      assert PeriodAnalyses(c, valid) == [];
    } else {
      assert Analyse(c, Some(without)) == ComputeHistoryAnalysis(c, PeriodAnalyses(c, valid));
    }
    assert Analyse(c, Some(with)) == ComputeHistoryAnalysis(c, PeriodAnalyses(c, valid));
  }

  lemma OutsideWindowFiltered(c: DriverConfiguration, before: seq<Period>, p: Period, after: seq<Period>)
    requires !OverlapsWindow(c, p)
    ensures GetValidPeriods(c, before + [p] + after) == GetValidPeriods(c, before + after)
  {
    WindowFilterSkipsOutside(c, before, p, after);
  }

  /**
   * Turning the penalty on keeps the analysed duration and multiplies the rating by
   * the penalty factor; nothing else in the configuration needs to change.
   */
  lemma PenaltyScalesRating(c: DriverConfiguration, h: seq<Period>)
    requires CanAnalyse(c.(isPenaltyApplicable := false), Some(h))
    ensures CanAnalyse(c.(isPenaltyApplicable := true), Some(h))
    ensures Analyse(c.(isPenaltyApplicable := true), Some(h)) ==
      Scaled(Analyse(c.(isPenaltyApplicable := false), Some(h)), c.penaltyForUndocumentedPeriod)
  {
    ValidPeriodsIgnorePenalty(c.(isPenaltyApplicable := false), c.(isPenaltyApplicable := true), h);
    PipelinePenaltyScales(c, GetValidPeriods(c.(isPenaltyApplicable := false), h));
    if h == [] {
      assert 0.0 * c.penaltyForUndocumentedPeriod == 0.0;
    }
  }

  /** While the penalty is off its factor is never read: configurations that score alike analyse alike. */
  lemma FactorIgnoredWithoutPenalty(c: DriverConfiguration, d: DriverConfiguration, h: seq<Period>)
    requires SameScoring(c, d) && !c.isPenaltyApplicable && !d.isPenaltyApplicable
    requires CanAnalyse(c, Some(h))
    ensures CanAnalyse(d, Some(h))
    ensures Analyse(c, Some(h)) == Analyse(d, Some(h))
  {
    ValidPeriodsIgnorePenalty(c, d, h);
    EntriesIgnorePenalty(c, d, GetValidPeriods(c, h));
  }
}
