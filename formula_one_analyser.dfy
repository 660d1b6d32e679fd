/**
 * The motorsport profile: no daily window. The valid periods are the zero-speed
 * edge-trimmed history in input order; scoring takes raw times of day and absolute
 * durations; only gaps between consecutive periods are reported.
 */
module FormulaOneAnalyser {
  import opened Wrappers
  import opened Entities
  import Base = BaseDriverAnalyser
  import opened SpeedTrim

  /** The valid periods: the edge-trimmed history (`SpeedTrim.TrimEdges`). */
  function GetValidPeriods(h: seq<Period>): (r: seq<Period>)
    ensures FirstMoving(h) == |h| ==> r == []
    ensures FirstMoving(h) < |h| ==> r == h[FirstMoving(h)..LastMoving(h) + 1]
  {
    TrimEdges(h)
  }

  /**
   * A documented entry without clipping: the raw times of day, the absolute elapsed
   * time (which differs from the time-of-day difference by whole days) and the speed rating.
   */
  function ScorePeriod(c: DriverConfiguration, p: Period): (a: PeriodAnalysis)
    requires Base.Rateable(c, p)
    ensures a.startTime == TimeOfDay(p.start) && a.endTime == TimeOfDay(p.end)
    ensures a.duration == p.end - p.start
    ensures (a.duration - (a.endTime - a.startTime)) % SecondsPerDay == 0
    ensures a.rating == Base.SpeedRating(c, p.averageSpeed) && !a.isUndocumented
  {
    DayMultipleDifference(p.end - TimeOfDay(p.end), p.start - TimeOfDay(p.start));
    PeriodAnalysis(TimeOfDay(p.start), TimeOfDay(p.end), p.end - p.start, Base.SpeedRating(c, p.averageSpeed), false)
  }

  /** The documented entries, one per valid period, in order. */
  function ScoredPeriods(c: DriverConfiguration, ps: seq<Period>): (r: seq<PeriodAnalysis>)
    requires Base.AllRateable(c, ps)
    ensures |r| == |ps|
    ensures forall i | 0 <= i < |ps| :: r[i] == ScorePeriod(c, ps[i])
  {
    if ps == [] then [] else [ScorePeriod(c, ps[0])] + ScoredPeriods(c, ps[1..])
  }

  /** FormulaOneAnalyser.AnalyseValidPeriodList: one unclipped, rated entry per valid period. */
  method AnalyseValidPeriodList(c: DriverConfiguration, validPeriods: seq<Period>) returns (r: seq<PeriodAnalysis>)
    requires Base.AllRateable(c, validPeriods)
    ensures |r| == |validPeriods|
    ensures forall i | 0 <= i < |r| :: r[i] == ScorePeriod(c, validPeriods[i])
    ensures r == ScoredPeriods(c, validPeriods)
  {
    r := [];
    var i := 0;
    while i < |validPeriods|
      invariant 0 <= i <= |validPeriods|
      invariant |r| == i
      invariant forall k | 0 <= k < i :: r[k] == ScorePeriod(c, validPeriods[k])
    {
      r := r + [ScorePeriod(c, validPeriods[i])];
      i := i + 1;
    }
  }

  /** The gap between periods `i - 1` and `i`, as the internal rule sees it. */
  function Between(ps: seq<Period>, i: nat): (g: PeriodAnalysis)
    requires 1 <= i < |ps|
    ensures g.isUndocumented && g.rating == 0.0
    ensures g.startTime == TimeOfDay(ps[i - 1].end) && g.endTime == TimeOfDay(ps[i].start)
  {
    Base.Undocumented(TimeOfDay(ps[i - 1].end), TimeOfDay(ps[i].start))
  }

  /**
   * The gaps yielded by the indices 1 .. k-1: each is a positive-length gap between
   * two consecutive periods, so there is never a leading or trailing one.
   */
  function InternalGapsUpTo(c: DriverConfiguration, ps: seq<Period>, k: nat): (r: seq<PeriodAnalysis>)
    requires k <= |ps|
    ensures k <= 1 ==> r == []
    ensures k >= 1 ==> |r| <= k - 1
    ensures Base.AllGaps(r)
    ensures forall j | 0 <= j < |r| :: exists i | 1 <= i < k :: r[j] == Between(ps, i)
  {
    if k <= 1 then []
    else
      var prefix := InternalGapsUpTo(c, ps, k - 1);
      var last := Base.InternalGap(c, ps[k - 2], ps[k - 1]);
      assert last.Some? ==> last.value == Between(ps, k - 1);
      prefix + ToSeq(last)
  }

  /** The undocumented entries for the valid periods. */
  function UndocumentedPeriods(c: DriverConfiguration, ps: seq<Period>): (r: seq<PeriodAnalysis>)
    ensures |ps| >= 1 ==> |r| <= |ps| - 1
    ensures Base.AllGaps(r)
  {
    InternalGapsUpTo(c, ps, |ps|)
  }

  /** FormulaOneAnalyser.AnalyseUndocumentedPeriodList: a pass from index 1 appending each internal gap. */
  method AnalyseUndocumentedPeriodList(c: DriverConfiguration, validPeriods: seq<Period>) returns (r: seq<PeriodAnalysis>)
    ensures r == UndocumentedPeriods(c, validPeriods)
    ensures Base.AllGaps(r)
    ensures |validPeriods| >= 1 ==> |r| <= |validPeriods| - 1
  {
    r := [];
    var i := 1;
    while i < |validPeriods|
      invariant 1 <= i
      invariant |validPeriods| >= 1 ==> i <= |validPeriods|
      invariant r == InternalGapsUpTo(c, validPeriods, if i <= |validPeriods| then i else |validPeriods|)
    {
      r := r + ToSeq(Base.InternalGap(c, validPeriods[i - 1], validPeriods[i]));
      i := i + 1;
    }
  }

  /** The scored valid periods followed by their internal gaps. */
  function PeriodAnalyses(c: DriverConfiguration, valid: seq<Period>): seq<PeriodAnalysis>
    requires Base.AllRateable(c, valid)
  {
    ScoredPeriods(c, valid) + UndocumentedPeriods(c, valid)
  }

  /** What `Analyse` needs in order not to throw. */
  predicate CanAnalyse(c: DriverConfiguration, history: Option<seq<Period>>) {
    history.Some? ==>
      var valid := GetValidPeriods(history.value);
      Base.AllRateable(c, valid) && Base.Aggregatable(PeriodAnalyses(c, valid))
  }

  /**
   * FormulaOneAnalyser.Analyse: the zero result for a null or empty history, otherwise
   * the aggregate of the trimmed periods' entries and their internal gaps. Only the
   * scored periods count towards the analysed duration.
   */
  function Analyse(c: DriverConfiguration, history: Option<seq<Period>>): (r: HistoryAnalysis)
    requires CanAnalyse(c, history)
    ensures history.None? || history.value == [] ==> r == ZeroAnalysis
    ensures history.Some? ==> r.analysedDuration == Base.TotalDuration(ScoredPeriods(c, GetValidPeriods(history.value)))
  {
    if history.None? || history.value == [] then ZeroAnalysis
    else
      var valid := GetValidPeriods(history.value);
      var scored := ScoredPeriods(c, valid);
      var gaps := UndocumentedPeriods(c, valid);
      Base.DocumentedExcludesGaps(scored, gaps);
      Base.ComputeHistoryAnalysis(c, scored + gaps)
  }

  /** Every valid period comes from the history. */
  lemma ValidPeriodsFromHistory(h: seq<Period>)
    ensures forall i | 0 <= i < |GetValidPeriods(h)| :: GetValidPeriods(h)[i] in h
  {
    var valid := GetValidPeriods(h);
    TrimEdgesSubMultiset(h);
    assert forall i | 0 <= i < |valid| :: valid[i] in multiset(valid);
  }

  /** No entry has a negative duration when no valid period ends before it starts. */
  lemma EntryDurationsNonNegative(c: DriverConfiguration, valid: seq<Period>)
    requires Base.AllRateable(c, valid)
    requires forall i | 0 <= i < |valid| :: valid[i].start <= valid[i].end
    ensures forall i | 0 <= i < |PeriodAnalyses(c, valid)| :: PeriodAnalyses(c, valid)[i].duration >= 0
  {
    var scored, gaps := ScoredPeriods(c, valid), UndocumentedPeriods(c, valid);
    var es := scored + gaps;
    forall i | 0 <= i < |es| ensures es[i].duration >= 0 {
      if i >= |scored| { assert es[i] == gaps[i - |scored|]; }
    }
  }

  /** Every entry is rated in [0, 1] when the speeds are not negative and the substitute rating lies in [0, 1]. */
  lemma EntryRatingsInUnitInterval(c: DriverConfiguration, valid: seq<Period>)
    requires c.maxSpeed > 0.0 && 0.0 <= c.ratingForExceedingSpeedLimit <= 1.0
    requires forall i | 0 <= i < |valid| :: valid[i].averageSpeed >= 0.0
    ensures Base.AllRateable(c, valid)
    ensures forall i | 0 <= i < |PeriodAnalyses(c, valid)| :: 0.0 <= PeriodAnalyses(c, valid)[i].rating <= 1.0
  {
    var scored, gaps := ScoredPeriods(c, valid), UndocumentedPeriods(c, valid);
    var es := scored + gaps;
    forall i | 0 <= i < |es| ensures 0.0 <= es[i].rating <= 1.0 {
      if i >= |scored| { assert es[i] == gaps[i - |scored|]; }
    }
  }

  /** With a positive speed limit and no period ending before it starts, nothing divides by zero. */
  lemma AnalyseDefined(c: DriverConfiguration, h: seq<Period>)
    requires c.maxSpeed > 0.0
    requires forall p | p in h :: p.start <= p.end
    ensures CanAnalyse(c, Some(h))
  {
    ValidPeriodsFromHistory(h);
    EntryDurationsNonNegative(c, GetValidPeriods(h));
    Base.NonNegativeDurationsAggregatable(PeriodAnalyses(c, GetValidPeriods(h)));
  }

  /**
   * With a positive speed limit, a substitute rating and penalty factor in [0, 1],
   * non-negative speeds and no period ending before it starts, the rating lies in
   * [0, 1] and the analysed duration is not negative.
   */
  lemma RatingInUnitInterval(c: DriverConfiguration, h: seq<Period>)
    requires c.maxSpeed > 0.0
    requires 0.0 <= c.ratingForExceedingSpeedLimit <= 1.0 && 0.0 <= Base.PenaltyMultiplier(c) <= 1.0
    requires forall p | p in h :: p.averageSpeed >= 0.0 && p.start <= p.end
    ensures CanAnalyse(c, Some(h))
    ensures 0.0 <= Analyse(c, Some(h)).driverRating <= 1.0
    ensures Analyse(c, Some(h)).analysedDuration >= 0
  {
    var valid := GetValidPeriods(h);
    ValidPeriodsFromHistory(h);
    EntryRatingsInUnitInterval(c, valid);
    EntryDurationsNonNegative(c, valid);
    var scored, gaps := ScoredPeriods(c, valid), UndocumentedPeriods(c, valid);
    assert PeriodAnalyses(c, valid) == scored + gaps;
    Base.EntriesRatingBounded(c, scored, gaps);
    if h != [] {
      assert Analyse(c, Some(h)) == Base.ComputeHistoryAnalysis(c, scored + gaps);
    }
  }

  /** When no period moves, the valid list is empty and the result is zero. */
  lemma StationaryHistoryRatesZero(c: DriverConfiguration, h: seq<Period>)
    requires forall i | 0 <= i < |h| :: !Moving(h[i])
    ensures CanAnalyse(c, Some(h))
    ensures Analyse(c, Some(h)) == ZeroAnalysis
  {
    assert FirstMoving(h) == |h|;
    assert PeriodAnalyses(c, []) == [];
  }

  /**
   * A lone moving period rated 1 is analysed over its whole elapsed time, rated at the
   * penalty multiplier: the trim keeps it and there is no gap.
   */
  lemma SingleFullyRatedPeriod(c: DriverConfiguration, p: Period)
    requires Moving(p) && p.start < p.end
    requires Base.Rateable(c, p) && Base.SpeedRating(c, p.averageSpeed) == 1.0
    ensures CanAnalyse(c, Some([p]))
    ensures Analyse(c, Some([p])) == HistoryAnalysis(p.end - p.start, Base.PenaltyMultiplier(c))
  {
    assert FirstMoving([p]) == 0 && LastMoving([p]) == 0;
    assert GetValidPeriods([p]) == [p];
    assert ScoredPeriods(c, [p]) == [ScorePeriod(c, p)];
    assert PeriodAnalyses(c, [p]) == [ScorePeriod(c, p)];
    Base.SingleEntryAnalysis(c, ScorePeriod(c, p));
  }

  /** The entries do not depend on whether the penalty applies. */
  lemma {:induction false} ScoredSameScoring(c: DriverConfiguration, d: DriverConfiguration, ps: seq<Period>)
    requires Base.SameScoring(c, d) && Base.AllRateable(c, ps)
    ensures Base.AllRateable(d, ps) && ScoredPeriods(c, ps) == ScoredPeriods(d, ps)
  {
    if ps != [] {
      ScoredSameScoring(c, d, ps[1..]);
    }
  }

  /** The internal gaps read the window's start time and nothing else of the configuration. */
  lemma {:induction false} InternalGapsSameStart(c: DriverConfiguration, d: DriverConfiguration, ps: seq<Period>, k: nat)
    requires c.startTime == d.startTime && k <= |ps|
    ensures InternalGapsUpTo(c, ps, k) == InternalGapsUpTo(d, ps, k)
  {
    if k > 1 {
      InternalGapsSameStart(c, d, ps, k - 1);
    }
  }

  /** Configurations that score alike produce the same entries. */
  lemma EntriesSameScoring(c: DriverConfiguration, d: DriverConfiguration, valid: seq<Period>)
    requires Base.SameScoring(c, d) && Base.AllRateable(c, valid)
    ensures Base.AllRateable(d, valid) && PeriodAnalyses(c, valid) == PeriodAnalyses(d, valid)
  {
    ScoredSameScoring(c, d, valid);
    InternalGapsSameStart(c, d, valid, |valid|);
  }

  /**
   * Turning the penalty on keeps the analysed duration and multiplies the rating by
   * the penalty factor.
   */
  lemma PenaltyScalesRating(c: DriverConfiguration, h: seq<Period>)
    requires CanAnalyse(c.(isPenaltyApplicable := false), Some(h))
    ensures CanAnalyse(c.(isPenaltyApplicable := true), Some(h))
    ensures Analyse(c.(isPenaltyApplicable := true), Some(h)) ==
      Base.Scaled(Analyse(c.(isPenaltyApplicable := false), Some(h)), c.penaltyForUndocumentedPeriod)
  {
    EntriesSameScoring(c.(isPenaltyApplicable := false), c.(isPenaltyApplicable := true), GetValidPeriods(h));
    Base.PenaltyIsExactMultiplier(c, PeriodAnalyses(c.(isPenaltyApplicable := false), GetValidPeriods(h)));
    if h == [] {
      assert 0.0 * c.penaltyForUndocumentedPeriod == 0.0;
    }
  }

  /** While the penalty is off its factor is never read: configurations that score alike analyse alike. */
  lemma FactorIgnoredWithoutPenalty(c: DriverConfiguration, d: DriverConfiguration, h: seq<Period>)
    requires Base.SameScoring(c, d) && !c.isPenaltyApplicable && !d.isPenaltyApplicable
    requires CanAnalyse(c, Some(h))
    ensures CanAnalyse(d, Some(h))
    ensures Analyse(c, Some(h)) == Analyse(d, Some(h))
  {
    EntriesSameScoring(c, d, GetValidPeriods(h));
  }
}
