/**
 * The getaway profile: the zero-speed edge trim followed by the shared window filter
 * and sort; scoring, gap detection and aggregation are the shared ones.
 */
module GetawayDriverAnalyser {
  import opened Wrappers
  import opened Entities
  import opened BaseDriverAnalyser
  import opened SpeedTrim
  import Delivery = DeliveryDriverAnalyser

  /**
   * GetawayDriverAnalyser.GetValidPeriods: the periods of the trimmed history that
   * overlap the window, ordered by start; nothing at all when no period moves.
   */
  function GetawayValidPeriods(c: DriverConfiguration, h: seq<Period>): (r: seq<Period>)
    ensures SortedByStart(r)
    ensures forall p :: p in r <==> p in TrimEdges(h) && OverlapsWindow(c, p)
    ensures forall p :: multiset(r)[p] == if OverlapsWindow(c, p) then multiset(TrimEdges(h))[p] else 0
    ensures multiset(r) <= multiset(h)
    ensures FirstMoving(h) == |h| ==> r == []
  {
    var trimmed := TrimEdges(h);
    TrimEdgesSubMultiset(h);
    var r := GetValidPeriods(c, trimmed);
    assert multiset(r) <= multiset(trimmed) by {
      assert forall p :: multiset(r)[p] <= multiset(trimmed)[p];
    }
    r
  }

  /** What `Analyse` needs in order not to throw. */
  predicate CanAnalyse(c: DriverConfiguration, history: Option<seq<Period>>) {
    history.Some? ==> PipelineDefined(c, GetawayValidPeriods(c, history.value))
  }

  /**
   * GetawayDriverAnalyser.Analyse: the zero result for a null or empty history,
   * otherwise the aggregate of the scored valid periods and the gaps among them.
   */
  function Analyse(c: DriverConfiguration, history: Option<seq<Period>>): (r: HistoryAnalysis)
    requires CanAnalyse(c, history)
    ensures history.None? || history.value == [] ==> r == ZeroAnalysis
    ensures history.Some? ==> r.analysedDuration == TotalDuration(ScoredPeriods(c, GetawayValidPeriods(c, history.value)))
  {
    if history.None? || history.value == [] then ZeroAnalysis
    else
      var valid := GetawayValidPeriods(c, history.value);
      var scored := ScoredPeriods(c, valid);
      var gaps := UndocumentedPeriods(c, valid);
      DocumentedExcludesGaps(scored, gaps);
      ComputeHistoryAnalysis(c, scored + gaps)
  }

  /** The getaway profile is the delivery pipeline run on the edge-trimmed history. */
  lemma IsDeliveryOnTrimmed(c: DriverConfiguration, h: seq<Period>)
    requires CanAnalyse(c, Some(h))
    ensures Delivery.CanAnalyse(c, Some(TrimEdges(h)))
    ensures Analyse(c, Some(h)) == Delivery.Analyse(c, Some(TrimEdges(h)))
  {
    var trimmed := TrimEdges(h);
    var valid := GetawayValidPeriods(c, h);
    assert valid == GetValidPeriods(c, trimmed);
    if h != [] && trimmed == [] {
      assert valid == [];
      assert PeriodAnalyses(c, valid) == [];
      assert Analyse(c, Some(h)) == ComputeHistoryAnalysis(c, []);
    }
  }

  /**
   * With a positive speed limit, an ordered window, and no window-overlapping period
   * that wraps past midnight, nothing divides by zero.
   */
  lemma AnalyseDefined(c: DriverConfiguration, h: seq<Period>)
    requires c.maxSpeed > 0.0 && c.startTime <= c.endTime
    requires forall p | p in h && OverlapsWindow(c, p) :: TimeOfDay(p.start) <= TimeOfDay(p.end)
    ensures CanAnalyse(c, Some(h))
  {
    var valid := GetawayValidPeriods(c, h);
    forall i | 0 <= i < |valid| ensures valid[i] in h && OverlapsWindow(c, valid[i]) {
      assert valid[i] in multiset(valid);
    }
    WindowPipelineDefined(c, valid);
  }

  /**
   * Under the delivery profile's conditions the rating lies in [0, 1] and the
   * analysed duration is not negative, the trim only removing periods.
   */
  lemma RatingInUnitInterval(c: DriverConfiguration, h: seq<Period>)
    requires c.maxSpeed > 0.0 && c.startTime <= c.endTime
    requires 0.0 <= c.ratingForExceedingSpeedLimit <= 1.0 && 0.0 <= PenaltyMultiplier(c) <= 1.0
    requires forall p | p in h :: p.averageSpeed >= 0.0
    requires forall p | p in h && OverlapsWindow(c, p) :: TimeOfDay(p.start) <= TimeOfDay(p.end)
    ensures CanAnalyse(c, Some(h))
    ensures 0.0 <= Analyse(c, Some(h)).driverRating <= 1.0
    ensures Analyse(c, Some(h)).analysedDuration >= 0
  {
    var trimmed := TrimEdges(h);
    forall p | p in trimmed ensures p in h {
      TrimEdgesSubMultiset(h);
      assert p in multiset(trimmed);
    }
    Delivery.RatingInUnitInterval(c, trimmed);
    AnalyseDefined(c, h);
    IsDeliveryOnTrimmed(c, h);
  }

  /** A history in which no period moves yields the zero result. */
  lemma StationaryHistoryRatesZero(c: DriverConfiguration, h: seq<Period>)
    requires forall i | 0 <= i < |h| :: !Moving(h[i])
    ensures CanAnalyse(c, Some(h))
    ensures Analyse(c, Some(h)) == ZeroAnalysis
  {
    assert FirstMoving(h) == |h|;
    assert PeriodAnalyses(c, []) == [];
  }
}
