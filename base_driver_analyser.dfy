/**
 * The shared scoring pipeline: the window filter, the per-period scorer that clips
 * to the window, the window-aware gap detector and the aggregator.
 */
module BaseDriverAnalyser {
  import opened Wrappers
  import opened Entities

  // ---------------------------------------------------------------------------
  // Window filter (GetValidPeriods)
  // ---------------------------------------------------------------------------

  /** A period overlaps the daily window when it ends after the window opens and starts before it closes. */
  predicate OverlapsWindow(c: DriverConfiguration, p: Period) {
    TimeOfDay(p.end) > c.startTime && TimeOfDay(p.start) < c.endTime
  }

  /**
   * For a period and a window that both have positive length, overlapping means
   * sharing an instant. A zero-length period inside the window still overlaps.
   */
  lemma OverlapsIffSharedInstant(c: DriverConfiguration, p: Period)
    requires TimeOfDay(p.start) < TimeOfDay(p.end) && c.startTime < c.endTime
    ensures OverlapsWindow(c, p) <==>
              exists t :: Within(t, TimeOfDay(p.start), TimeOfDay(p.end)) && Within(t, c.startTime, c.endTime)
  {
    var a := TimeOfDay(p.start);
    if OverlapsWindow(c, p) {
      var t := if a < c.startTime then c.startTime else a;
      assert Within(t, a, TimeOfDay(p.end)) && Within(t, c.startTime, c.endTime);
    }
  }

  /** The periods of `h` that overlap the window, in their input order. */
  function WindowFilter(c: DriverConfiguration, h: seq<Period>): (r: seq<Period>)
    ensures |r| <= |h|
  {
    if h == [] then []
    else (if OverlapsWindow(c, h[0]) then [h[0]] else []) + WindowFilter(c, h[1..])
  }

  /** The filter keeps every overlapping period as often as it occurs, and nothing else. */
  lemma {:induction false} WindowFilterCounts(c: DriverConfiguration, h: seq<Period>)
    ensures forall p :: multiset(WindowFilter(c, h))[p] == if OverlapsWindow(c, p) then multiset(h)[p] else 0
  {
    if h != [] {
      WindowFilterCounts(c, h[1..]);
      assert h == [h[0]] + h[1..];
    }
  }

  lemma {:induction false} WindowFilterAppend(c: DriverConfiguration, a: seq<Period>, b: seq<Period>)
    ensures WindowFilter(c, a + b) == WindowFilter(c, a) + WindowFilter(c, b)
  {
    if a == [] {
      assert a + b == b;
    } else {
      assert (a + b)[1..] == a[1..] + b;
      WindowFilterAppend(c, a[1..], b);
    }
  }

  /** A period outside the window leaves the filtered list unchanged. */
  lemma WindowFilterSkipsOutside(c: DriverConfiguration, before: seq<Period>, p: Period, after: seq<Period>)
    requires !OverlapsWindow(c, p)
    ensures WindowFilter(c, before + [p] + after) == WindowFilter(c, before + after)
  {
    var x, y := WindowFilter(c, before), WindowFilter(c, after);
    assert WindowFilter(c, [p]) == [] by {
      assert [p][1..] == [];
    }
    WindowFilterAppend(c, before, [p]);
    assert WindowFilter(c, before + [p]) == x;
    WindowFilterAppend(c, before + [p], after);
    WindowFilterAppend(c, before, after);
  }

  /** Non-decreasing absolute start times. */
  predicate SortedByStart(s: seq<Period>) {
    forall i, j | 0 <= i < j < |s| :: s[i].start <= s[j].start
  }

  /** Inserts `p` into the sorted `s` before every element that does not start earlier. */
  function InsertByStart(p: Period, s: seq<Period>): (r: seq<Period>)
    requires SortedByStart(s)
    ensures |r| == |s| + 1
    ensures r[0] == p || (s != [] && r[0] == s[0])
    ensures SortedByStart(r)
    ensures multiset(r) == multiset(s) + multiset{p}
  {
    if s == [] || p.start <= s[0].start then
      ConsSorted(p, s);
      [p] + s
    else
      SortedTail(s);
      var rest := InsertByStart(p, s[1..]);
      assert s[0].start <= rest[0].start by {
        if s[1..] != [] { assert s[1..][0] == s[1]; }
      }
      ConsSorted(s[0], rest);
      assert multiset(s) == multiset{s[0]} + multiset(s[1..]) by {
        assert s == [s[0]] + s[1..];
      }
      [s[0]] + rest
  }

  lemma SortedTail(s: seq<Period>)
    requires SortedByStart(s) && s != []
    ensures SortedByStart(s[1..])
  {
    var t := s[1..];
    forall i, j | 0 <= i < j < |t| ensures t[i].start <= t[j].start {
      assert t[i] == s[i + 1] && t[j] == s[j + 1];
    }
  }

  /** A period that starts no later than the head of a sorted list can be put in front of it. */
  lemma ConsSorted(x: Period, s: seq<Period>)
    requires SortedByStart(s) && (s != [] ==> x.start <= s[0].start)
    ensures SortedByStart([x] + s)
  {
    var r := [x] + s;
    forall i, j | 0 <= i < j < |r| ensures r[i].start <= r[j].start {
      if i == 0 {
        assert r[j] == s[j - 1];
      } else {
        assert r[i] == s[i - 1] && r[j] == s[j - 1];
      }
    }
  }

  /** A stable sort by absolute start time, as LINQ's `OrderBy`. */
  function SortByStart(s: seq<Period>): (r: seq<Period>)
    ensures SortedByStart(r)
    ensures multiset(r) == multiset(s)
    ensures |r| == |s|
  {
    if s == [] then []
    else
      assert s == [s[0]] + s[1..];
      InsertByStart(s[0], SortByStart(s[1..]))
  }

  /** The periods of `s` that start at `k`, in their order in `s`. */
  function WithStart(s: seq<Period>, k: int): (r: seq<Period>)
    ensures |r| <= |s|
  {
    if s == [] then [] else (if s[0].start == k then [s[0]] else []) + WithStart(s[1..], k)
  }

  /** Insertion puts `p` ahead of every period with the same start, and keeps their order. */
  lemma {:induction false} InsertWithStart(p: Period, s: seq<Period>, k: int)
    requires SortedByStart(s)
    ensures WithStart(InsertByStart(p, s), k) == (if p.start == k then [p] else []) + WithStart(s, k)
  {
    var r := InsertByStart(p, s);
    if s == [] || p.start <= s[0].start {
      assert r == [p] + s;
      assert r[0] == p && r[1..] == s;
    } else {
      SortedTail(s);
      var rest := InsertByStart(p, s[1..]);
      InsertWithStart(p, s[1..], k);
      assert r == [s[0]] + rest;
      assert r[0] == s[0] && r[1..] == rest;
      var head := if s[0].start == k then [s[0]] else [];
      assert WithStart(r, k) == head + WithStart(rest, k);
      assert WithStart(s, k) == head + WithStart(s[1..], k);
      assert p.start == k ==> head == [];
    }
  }

  /** The sort is stable: periods with the same start keep their input order. */
  lemma {:induction false} SortByStartStable(s: seq<Period>, k: int)
    ensures WithStart(SortByStart(s), k) == WithStart(s, k)
  {
    if s != [] {
      SortByStartStable(s[1..], k);
      InsertWithStart(s[0], SortByStart(s[1..]), k);
    }
  }

  /** Sorting a list that is already ordered by start leaves it unchanged. */
  lemma {:induction false} SortByStartOfSorted(s: seq<Period>)
    requires SortedByStart(s)
    ensures SortByStart(s) == s
  {
    if s != [] {
      SortByStartOfSorted(s[1..]);
      assert s == [s[0]] + s[1..];
    }
  }

  /** The periods that overlap the window, each as often as in `h`, ordered by start. */
  function GetValidPeriods(c: DriverConfiguration, h: seq<Period>): (r: seq<Period>)
    ensures SortedByStart(r)
    ensures forall p :: multiset(r)[p] == if OverlapsWindow(c, p) then multiset(h)[p] else 0
    ensures forall p :: p in r <==> p in h && OverlapsWindow(c, p)
    ensures |r| <= |h|
    ensures SortedByStart(WindowFilter(c, h)) ==> r == WindowFilter(c, h)
  {
    WindowFilterCounts(c, h);
    var w := WindowFilter(c, h);
    assert SortedByStart(w) ==> SortByStart(w) == w by {
      if SortedByStart(w) { SortByStartOfSorted(w); }
    }
    var r := SortByStart(w);
    assert forall p :: p in r <==> multiset(r)[p] > 0;
    assert forall p :: p in h <==> multiset(h)[p] > 0;
    r
  }

  // ---------------------------------------------------------------------------
  // Per-period scorer (AnalyseValidPeriodList)
  // ---------------------------------------------------------------------------

  /** The source divides by `MaxSpeed` unless the speed exceeds it; a zero divisor throws. */
  predicate Rateable(c: DriverConfiguration, p: Period) {
    p.averageSpeed > c.maxSpeed || c.maxSpeed != 0.0
  }

  predicate AllRateable(c: DriverConfiguration, ps: seq<Period>) {
    forall i | 0 <= i < |ps| :: Rateable(c, ps[i])
  }

  /** The rating of one average speed: the substitute above the limit, the fraction of the limit otherwise. */
  function SpeedRating(c: DriverConfiguration, speed: real): (r: real)
    requires speed > c.maxSpeed || c.maxSpeed != 0.0
    ensures speed > c.maxSpeed ==> r == c.ratingForExceedingSpeedLimit
    ensures speed <= c.maxSpeed ==> r * c.maxSpeed == speed
    ensures 0.0 <= speed <= c.maxSpeed ==> 0.0 <= r <= 1.0
  {
    if speed > c.maxSpeed then c.ratingForExceedingSpeedLimit else speed / c.maxSpeed
  }

  /**
   * A documented period clipped to the window: its span is the intersection of the
   * period's time-of-day span with the window.
   */
  function ScorePeriod(c: DriverConfiguration, p: Period): (a: PeriodAnalysis)
    requires Rateable(c, p)
    ensures forall t :: Within(t, a.startTime, a.endTime) <==>
                          Within(t, TimeOfDay(p.start), TimeOfDay(p.end)) && Within(t, c.startTime, c.endTime)
    ensures a.startTime >= c.startTime && a.startTime >= TimeOfDay(p.start)
    ensures a.startTime == c.startTime || a.startTime == TimeOfDay(p.start)
    ensures a.endTime <= c.endTime && a.endTime <= TimeOfDay(p.end)
    ensures a.endTime == c.endTime || a.endTime == TimeOfDay(p.end)
    ensures a.duration == a.endTime - a.startTime
    ensures a.rating == SpeedRating(c, p.averageSpeed) && !a.isUndocumented
  {
    var startTime := if TimeOfDay(p.start) < c.startTime then c.startTime else TimeOfDay(p.start);
    var endTime := if TimeOfDay(p.end) > c.endTime then c.endTime else TimeOfDay(p.end);
    PeriodAnalysis(startTime, endTime, endTime - startTime, SpeedRating(c, p.averageSpeed), false)
  }

  /** A clipped period that overlaps a well-ordered window and does not wrap past midnight has a non-negative length no longer than the period's own. */
  lemma ClippedDurationBounds(c: DriverConfiguration, p: Period)
    requires Rateable(c, p) && OverlapsWindow(c, p)
    requires c.startTime <= c.endTime && TimeOfDay(p.start) <= TimeOfDay(p.end)
    ensures 0 <= ScorePeriod(c, p).duration <= TimeOfDay(p.end) - TimeOfDay(p.start)
    ensures ScorePeriod(c, p).duration <= c.endTime - c.startTime
  {
  }

  /**
   * A period whose time of day wraps past midnight with both ends inside the window
   * keeps its inverted bounds, so its entry has a negative duration.
   */
  lemma MidnightWrapInsideWindow(c: DriverConfiguration, p: Period)
    requires Rateable(c, p)
    requires c.startTime <= TimeOfDay(p.end) < TimeOfDay(p.start) <= c.endTime
    ensures ScorePeriod(c, p).startTime == TimeOfDay(p.start) && ScorePeriod(c, p).endTime == TimeOfDay(p.end)
    ensures ScorePeriod(c, p).duration == TimeOfDay(p.end) - TimeOfDay(p.start) < 0
  {
  }

  /** The documented entries for a list of valid periods, one per period, in order. */
  function ScoredPeriods(c: DriverConfiguration, ps: seq<Period>): (r: seq<PeriodAnalysis>)
    requires AllRateable(c, ps)
    ensures |r| == |ps|
    ensures forall i | 0 <= i < |ps| :: r[i] == ScorePeriod(c, ps[i])
  {
    if ps == [] then [] else [ScorePeriod(c, ps[0])] + ScoredPeriods(c, ps[1..])
  }

  /** BaseDriverAnalyser.AnalyseValidPeriodList: fills a list with one clipped, rated entry per valid period. */
  method AnalyseValidPeriodList(c: DriverConfiguration, validPeriods: seq<Period>) returns (r: seq<PeriodAnalysis>)
    requires AllRateable(c, validPeriods)
    ensures |r| == |validPeriods|
    ensures forall i | 0 <= i < |r| :: r[i] == ScorePeriod(c, validPeriods[i])
    ensures r == ScoredPeriods(c, validPeriods)
  {
    r := [];
    var i := 0;
    while i < |validPeriods|
      invariant 0 <= i <= |validPeriods|
      invariant |r| == i
      invariant forall k | 0 <= k < i :: r[k] == ScorePeriod(c, validPeriods[k])
    {
      r := r + [ScorePeriod(c, validPeriods[i])];
      i := i + 1;
    }
  }

  // ---------------------------------------------------------------------------
  // Gap detector (AnalyseUndocumentedPeriodList)
  // ---------------------------------------------------------------------------

  /** An undocumented entry covering [from, to), rated 0. */
  function Undocumented(from: int, to: int): (g: PeriodAnalysis)
    ensures g.isUndocumented && g.rating == 0.0
    ensures g.startTime == from && g.endTime == to && g.duration == to - from
  {
    PeriodAnalysis(from, to, to - from, 0.0, true)
  }

  /** A gap between two consecutive valid periods, when the later one starts after the window opens and after the earlier one ends. */
  function InternalGap(c: DriverConfiguration, prev: Period, cur: Period): (g: Option<PeriodAnalysis>)
    ensures g.Some? <==> TimeOfDay(cur.start) > c.startTime && TimeOfDay(cur.start) > TimeOfDay(prev.end)
    ensures g.Some? ==> g.value == Undocumented(TimeOfDay(prev.end), TimeOfDay(cur.start))
  {
    if TimeOfDay(cur.start) > c.startTime && TimeOfDay(cur.start) > TimeOfDay(prev.end) then
      Some(Undocumented(TimeOfDay(prev.end), TimeOfDay(cur.start)))
    else
      None
  }

  /**
   * The gap index `i` yields: the leading gap (only for i = 0), else the trailing gap
   * (only for the last index), else the internal gap before period i. The first
   * applicable branch wins.
   */
  function GapAt(c: DriverConfiguration, ps: seq<Period>, i: nat): (g: Option<PeriodAnalysis>)
    requires i < |ps|
    ensures g.Some? ==> g.value.isUndocumented && g.value.rating == 0.0
    ensures g.Some? ==> g.value.duration == g.value.endTime - g.value.startTime > 0
    ensures i == 0 && TimeOfDay(ps[0].start) > c.startTime ==> g == Some(Undocumented(c.startTime, TimeOfDay(ps[0].start)))
    ensures i == 0 && TimeOfDay(ps[0].start) <= c.startTime && (|ps| >= 2 || TimeOfDay(ps[0].end) >= c.endTime) ==> g == None
    ensures i == |ps| - 1 && !(i == 0 && TimeOfDay(ps[0].start) > c.startTime) && TimeOfDay(ps[i].end) < c.endTime ==>
              g == Some(Undocumented(TimeOfDay(ps[i].end), c.endTime))
    ensures 0 < i < |ps| - 1 ==> g == InternalGap(c, ps[i - 1], ps[i])
    ensures 0 < i == |ps| - 1 && TimeOfDay(ps[i].end) >= c.endTime ==> g == InternalGap(c, ps[i - 1], ps[i])
  {
    if i == 0 && TimeOfDay(ps[i].start) > c.startTime then
      Some(Undocumented(c.startTime, TimeOfDay(ps[i].start)))
    else if i == |ps| - 1 && TimeOfDay(ps[i].end) < c.endTime then
      Some(Undocumented(TimeOfDay(ps[i].end), c.endTime))
    else if i > 0 then
      InternalGap(c, ps[i - 1], ps[i])
    else
      None
  }

  /** Every entry is an undocumented gap of positive length, rated 0. */
  predicate AllGaps(gs: seq<PeriodAnalysis>) {
    forall j | 0 <= j < |gs| ::
      gs[j].isUndocumented && gs[j].rating == 0.0 && gs[j].duration == gs[j].endTime - gs[j].startTime > 0
  }

  /** The gaps yielded by the indices below `k`, in index order. */
  function GapsUpTo(c: DriverConfiguration, ps: seq<Period>, k: nat): (r: seq<PeriodAnalysis>)
    requires k <= |ps|
    ensures |r| <= k
    ensures AllGaps(r)
  {
    if k == 0 then [] else GapsUpTo(c, ps, k - 1) + ToSeq(GapAt(c, ps, k - 1))
  }

  /** The undocumented entries for a list of valid periods. */
  function UndocumentedPeriods(c: DriverConfiguration, ps: seq<Period>): (r: seq<PeriodAnalysis>)
    ensures |r| <= |ps| && AllGaps(r)
  {
    GapsUpTo(c, ps, |ps|)
  }

  /** BaseDriverAnalyser.AnalyseUndocumentedPeriodList: one pass over the indices, appending each index's gap. */
  method AnalyseUndocumentedPeriodList(c: DriverConfiguration, validPeriods: seq<Period>) returns (r: seq<PeriodAnalysis>)
    ensures r == UndocumentedPeriods(c, validPeriods)
    ensures |r| <= |validPeriods| && AllGaps(r)
  {
    r := [];
    var i := 0;
    while i < |validPeriods|
      invariant 0 <= i <= |validPeriods|
      invariant r == GapsUpTo(c, validPeriods, i)
    {
      r := r + ToSeq(GapAt(c, validPeriods, i));
      i := i + 1;
    }
  }

  /** Gaps found among periods that all overlap the window lie inside the window. */
  lemma {:induction false} GapsWithinWindow(c: DriverConfiguration, ps: seq<Period>, k: nat)
    requires k <= |ps|
    requires forall i | 0 <= i < |ps| :: OverlapsWindow(c, ps[i])
    ensures forall j | 0 <= j < |GapsUpTo(c, ps, k)| ::
              c.startTime <= GapsUpTo(c, ps, k)[j].startTime && GapsUpTo(c, ps, k)[j].endTime <= c.endTime
  {
    if k > 0 {
      GapsWithinWindow(c, ps, k - 1);
    }
  }

  /** With a single period, a leading gap suppresses the trailing gap. */
  lemma SinglePeriodGaps(c: DriverConfiguration, p: Period)
    ensures UndocumentedPeriods(c, [p]) ==
      if TimeOfDay(p.start) > c.startTime then [Undocumented(c.startTime, TimeOfDay(p.start))]
      else if TimeOfDay(p.end) < c.endTime then [Undocumented(TimeOfDay(p.end), c.endTime)]
      else []
  {
    assert GapsUpTo(c, [p], 0) == [];
  }

  /** At the last index of two or more, a trailing gap suppresses the internal gap before the last period. */
  lemma TrailingGapSuppressesInternal(c: DriverConfiguration, ps: seq<Period>)
    requires |ps| >= 2
    requires TimeOfDay(ps[|ps| - 1].end) < c.endTime
    ensures GapAt(c, ps, |ps| - 1) == Some(Undocumented(TimeOfDay(ps[|ps| - 1].end), c.endTime))
  {
  }

  // ---------------------------------------------------------------------------
  // Aggregator (ComputeHistoryAnalysis)
  // ---------------------------------------------------------------------------

  /** The summed duration of all entries, the divisor of the mean rating. */
  function TotalDuration(es: seq<PeriodAnalysis>): int {
    if es == [] then 0 else es[0].duration + TotalDuration(es[1..])
  }

  /** The summed duration-times-rating of all entries, the dividend of the mean rating. */
  function WeightedSum(es: seq<PeriodAnalysis>): real {
    if es == [] then 0.0 else (es[0].duration as real) * es[0].rating + WeightedSum(es[1..])
  }

  /** The summed duration of the documented entries. */
  function DocumentedDuration(es: seq<PeriodAnalysis>): int {
    if es == [] then 0
    else (if es[0].isUndocumented then 0 else es[0].duration) + DocumentedDuration(es[1..])
  }

  /** The source divides the weighted sum by the total duration when the sum is positive; a zero total throws. */
  predicate Aggregatable(es: seq<PeriodAnalysis>) {
    WeightedSum(es) > 0.0 ==> TotalDuration(es) != 0
  }

  /** The factor applied to the mean rating: the penalty when it applies, 1 otherwise. */
  function PenaltyMultiplier(c: DriverConfiguration): (m: real)
  {
    if c.isPenaltyApplicable then c.penaltyForUndocumentedPeriod else 1.0
  }

  /**
   * The day's result: the duration-weighted mean rating of all entries (0 unless the
   * weighted sum is positive), scaled by the penalty whenever it applies, and the
   * total length of the documented entries.
   */
  function ComputeHistoryAnalysis(c: DriverConfiguration, es: seq<PeriodAnalysis>): (r: HistoryAnalysis)
    requires Aggregatable(es)
    ensures es == [] ==> r == ZeroAnalysis
    ensures r.analysedDuration == DocumentedDuration(es)
    ensures WeightedSum(es) > 0.0 ==>
              r.driverRating * (TotalDuration(es) as real) == WeightedSum(es) * PenaltyMultiplier(c)
    ensures WeightedSum(es) <= 0.0 ==> r.driverRating == 0.0
  {
    if es == [] then ZeroAnalysis
    else
      var weightedSum := WeightedSum(es);
      var total := TotalDuration(es) as real;
      var rating := if weightedSum > 0.0 then weightedSum / total else 0.0;
      assert weightedSum > 0.0 ==> rating * total == weightedSum;
      var penalised := if c.isPenaltyApplicable then rating * c.penaltyForUndocumentedPeriod else rating;
      HistoryAnalysis(DocumentedDuration(es), penalised)
  }

  lemma {:induction false} TotalDurationAppend(a: seq<PeriodAnalysis>, b: seq<PeriodAnalysis>)
    ensures TotalDuration(a + b) == TotalDuration(a) + TotalDuration(b)
    ensures WeightedSum(a + b) == WeightedSum(a) + WeightedSum(b)
    ensures DocumentedDuration(a + b) == DocumentedDuration(a) + DocumentedDuration(b)
  {
    if a == [] {
      assert a + b == b;
    } else {
      var ab := a + b;
      assert ab[0] == a[0] && ab[1..] == a[1..] + b;
      TotalDurationAppend(a[1..], b);
    }
  }

  /** A list split around position `i` is its front, that entry, and its back. */
  lemma SplitAround(b: seq<PeriodAnalysis>, i: nat)
    requires i < |b|
    ensures b == b[..i] + ([b[i]] + b[i + 1..])
    ensures ([b[i]] + b[i + 1..])[0] == b[i] && ([b[i]] + b[i + 1..])[1..] == b[i + 1..]
  {
  }

  /** Removing entry `i` from the total leaves the total of the others. */
  lemma TotalSplitAt(b: seq<PeriodAnalysis>, i: nat)
    requires i < |b|
    ensures TotalDuration(b) == b[i].duration + TotalDuration(b[..i] + b[i + 1..])
  {
    SplitAround(b, i);
    TotalDurationAppend(b[..i], [b[i]] + b[i + 1..]);
    TotalDurationAppend(b[..i], b[i + 1..]);
  }

  /** Removing entry `i` from the weighted sum leaves the weighted sum of the others. */
  lemma {:induction false} WeightedSplitAt(b: seq<PeriodAnalysis>, i: nat)
    requires i < |b|
    ensures WeightedSum(b) == (b[i].duration as real) * b[i].rating + WeightedSum(b[..i] + b[i + 1..])
  {
    var rest := b[..i] + b[i + 1..];
    if i == 0 {
      assert rest == b[1..];
    } else {
      var t := b[1..];
      var inner := t[..i - 1] + t[i..];
      WeightedSplitAt(t, i - 1);
      assert rest == [b[0]] + inner;
      assert rest[0] == b[0] && rest[1..] == inner;
      var h, w := (b[0].duration as real) * b[0].rating, (b[i].duration as real) * b[i].rating;
      assert t[i - 1] == b[i];
      assert WeightedSum(t) == w + WeightedSum(inner);
      assert WeightedSum(rest) == h + WeightedSum(inner);
      assert WeightedSum(b) == h + WeightedSum(t);
    }
  }

  /** Removing entry `i` from the documented duration leaves that of the others. */
  lemma DocumentedSplitAt(b: seq<PeriodAnalysis>, i: nat)
    requires i < |b|
    ensures DocumentedDuration(b) ==
              (if b[i].isUndocumented then 0 else b[i].duration) + DocumentedDuration(b[..i] + b[i + 1..])
  {
    SplitAround(b, i);
    TotalDurationAppend(b[..i], [b[i]] + b[i + 1..]);
    TotalDurationAppend(b[..i], b[i + 1..]);
  }

  /** The head of `a` occurs in its permutation `b`; what remains of each is again a permutation. */
  lemma MatchHead(a: seq<PeriodAnalysis>, b: seq<PeriodAnalysis>) returns (i: nat)
    requires a != [] && multiset(a) == multiset(b)
    ensures i < |b| && b[i] == a[0]
    ensures multiset(a[1..]) == multiset(b[..i] + b[i + 1..])
  {
    var x := a[0];
    assert x in multiset(b);
    i :| 0 <= i < |b| && b[i] == x;
    var rest := b[..i] + b[i + 1..];
    assert b == b[..i] + [x] + b[i + 1..];
    assert multiset(b) == multiset(b[..i]) + multiset{x} + multiset(b[i + 1..]);
    assert a == [x] + a[1..];
    assert multiset(a) == multiset{x} + multiset(a[1..]);
    assert multiset(rest) == multiset(b[..i]) + multiset(b[i + 1..]);
    assert multiset(a[1..]) == multiset(a) - multiset{x};
    assert multiset(rest) == multiset(b) - multiset{x};
  }

  lemma {:induction false} TotalIgnoresOrder(a: seq<PeriodAnalysis>, b: seq<PeriodAnalysis>)
    requires multiset(a) == multiset(b)
    ensures TotalDuration(a) == TotalDuration(b)
    decreases |a|
  {
    if a == [] {
      assert |b| == |multiset(b)| == 0;
    } else {
      var i := MatchHead(a, b);
      TotalIgnoresOrder(a[1..], b[..i] + b[i + 1..]);
      TotalSplitAt(b, i);
    }
  }

  lemma {:induction false} WeightedIgnoresOrder(a: seq<PeriodAnalysis>, b: seq<PeriodAnalysis>)
    requires multiset(a) == multiset(b)
    ensures WeightedSum(a) == WeightedSum(b)
    decreases |a|
  {
    if a == [] {
      assert |b| == |multiset(b)| == 0;
    } else {
      var i := MatchHead(a, b);
      var rest := b[..i] + b[i + 1..];
      WeightedIgnoresOrder(a[1..], rest);
      WeightedSplitAt(b, i);
      var w := (a[0].duration as real) * a[0].rating;
      assert WeightedSum(b) == w + WeightedSum(rest);
      assert WeightedSum(a) == w + WeightedSum(a[1..]);
    }
  }

  lemma {:induction false} DocumentedIgnoresOrder(a: seq<PeriodAnalysis>, b: seq<PeriodAnalysis>)
    requires multiset(a) == multiset(b)
    ensures DocumentedDuration(a) == DocumentedDuration(b)
    decreases |a|
  {
    if a == [] {
      assert |b| == |multiset(b)| == 0;
    } else {
      var i := MatchHead(a, b);
      DocumentedIgnoresOrder(a[1..], b[..i] + b[i + 1..]);
      DocumentedSplitAt(b, i);
    }
  }

  /** Reordering the entries, as the aggregator's sort by start does, changes neither the duration nor the rating. */
  lemma ComputeIgnoresOrder(c: DriverConfiguration, a: seq<PeriodAnalysis>, b: seq<PeriodAnalysis>)
    requires multiset(a) == multiset(b) && Aggregatable(a)
    ensures Aggregatable(b)
    ensures ComputeHistoryAnalysis(c, a) == ComputeHistoryAnalysis(c, b)
  {
    TotalIgnoresOrder(a, b);
    WeightedIgnoresOrder(a, b);
    DocumentedIgnoresOrder(a, b);
    if a == [] || b == [] {
      assert |a| == |multiset(a)| == |multiset(b)| == |b|;
    }
  }

  /** With no negative duration, the documented entries make up part of the total and never more. */
  lemma {:induction false} DocumentedWithinTotal(es: seq<PeriodAnalysis>)
    requires forall i | 0 <= i < |es| :: es[i].duration >= 0
    ensures 0 <= DocumentedDuration(es) <= TotalDuration(es)
  {
    if es != [] {
      DocumentedWithinTotal(es[1..]);
    }
  }

  /** When no entry has a negative duration, a positive weighted sum implies a positive total. */
  lemma {:induction false} NonNegativeDurationsAggregatable(es: seq<PeriodAnalysis>)
    requires forall i | 0 <= i < |es| :: es[i].duration >= 0
    ensures TotalDuration(es) >= 0
    ensures TotalDuration(es) == 0 ==> WeightedSum(es) == 0.0
    ensures Aggregatable(es)
  {
    if es != [] {
      NonNegativeDurationsAggregatable(es[1..]);
    }
  }

  /** With non-negative durations and ratings in [0, 1], the weighted sum lies between 0 and the total. */
  lemma {:induction false} WeightedSumBounds(es: seq<PeriodAnalysis>)
    requires forall i | 0 <= i < |es| :: es[i].duration >= 0 && 0.0 <= es[i].rating <= 1.0
    ensures 0.0 <= WeightedSum(es) <= TotalDuration(es) as real
  {
    if es != [] {
      var d, f := es[0].duration as real, es[0].rating;
      var w, t := WeightedSum(es[1..]), TotalDuration(es[1..]);
      WeightedSumBounds(es[1..]);
      assert WeightedSum(es) == d * f + w;
      assert TotalDuration(es) == es[0].duration + t;
      WeightedStepBounds(d, f, w, t as real);
    }
  }

  /** One step of the weighted sum: adding `d * f`, with `f` in [0, 1], to a sum bounded by `t` keeps it bounded by `d + t`. */
  lemma WeightedStepBounds(d: real, f: real, w: real, t: real)
    requires d >= 0.0 && 0.0 <= f <= 1.0 && 0.0 <= w <= t
    ensures 0.0 <= d * f + w <= d + t
  {
    assert d * (1.0 - f) >= 0.0;
  }

  /** With non-negative durations and ratings in [0, 1], the rating lies in [0, penalty multiplier]. */
  lemma RatingBounded(c: DriverConfiguration, es: seq<PeriodAnalysis>)
    requires forall i | 0 <= i < |es| :: es[i].duration >= 0 && 0.0 <= es[i].rating <= 1.0
    requires PenaltyMultiplier(c) >= 0.0
    ensures Aggregatable(es)
    ensures 0.0 <= ComputeHistoryAnalysis(c, es).driverRating <= PenaltyMultiplier(c)
  {
    NonNegativeDurationsAggregatable(es);
    WeightedSumBounds(es);
    if WeightedSum(es) > 0.0 {
      RatioBounds(ComputeHistoryAnalysis(c, es).driverRating, TotalDuration(es) as real, WeightedSum(es), PenaltyMultiplier(c));
    }
  }

  /** A rating `r` with `r * t == w * m`, where `0 < w <= t`, lies between 0 and `m`. */
  lemma RatioBounds(r: real, t: real, w: real, m: real)
    requires 0.0 < w <= t && m >= 0.0 && r * t == w * m
    ensures 0.0 <= r <= m
  {
    assert w * m <= t * m;
    assert (m - r) * t >= 0.0;
  }

  /** A rating `r` with `r * t == w * m`, where `t == w > 0`, is `m`. */
  lemma CancelPositive(r: real, t: real, w: real, m: real)
    requires t > 0.0 && t == w && r * t == w * m
    ensures r == m
  {
    assert (r - m) * t == 0.0;
  }

  /** A lone documented entry rated 1 over a positive duration aggregates to that duration, rated at the penalty multiplier. */
  lemma SingleEntryAnalysis(c: DriverConfiguration, a: PeriodAnalysis)
    requires a.duration > 0 && a.rating == 1.0 && !a.isUndocumented
    ensures Aggregatable([a])
    ensures ComputeHistoryAnalysis(c, [a]) == HistoryAnalysis(a.duration, PenaltyMultiplier(c))
  {
    var d := a.duration as real;
    assert [a][1..] == [];
    assert TotalDuration([a]) == a.duration;
    assert WeightedSum([a]) == d;
    assert DocumentedDuration([a]) == a.duration;
    CancelPositive(ComputeHistoryAnalysis(c, [a]).driverRating, TotalDuration([a]) as real, WeightedSum([a]), PenaltyMultiplier(c));
  }

  /** The same result with its rating multiplied by `factor`. */
  function Scaled(a: HistoryAnalysis, factor: real): HistoryAnalysis {
    HistoryAnalysis(a.analysedDuration, a.driverRating * factor)
  }

  /**
   * Turning the penalty on multiplies the rating by the penalty, whether or not any
   * gap exists, and leaves the analysed duration as it is.
   */
  lemma PenaltyIsExactMultiplier(c: DriverConfiguration, es: seq<PeriodAnalysis>)
    requires Aggregatable(es)
    ensures ComputeHistoryAnalysis(c.(isPenaltyApplicable := true), es) ==
            Scaled(ComputeHistoryAnalysis(c.(isPenaltyApplicable := false), es), c.penaltyForUndocumentedPeriod)
  {
  }

  /** When every entry's rating is 0, the rating of the day is 0. */
  lemma {:induction false} ZeroRatingsWeighZero(es: seq<PeriodAnalysis>)
    requires forall i | 0 <= i < |es| :: es[i].rating == 0.0
    ensures WeightedSum(es) == 0.0
  {
    if es != [] {
      ZeroRatingsWeighZero(es[1..]);
    }
  }

  /** Gaps never add to the documented duration: it is the total length of the scored periods. */
  lemma {:induction false} DocumentedExcludesGaps(scored: seq<PeriodAnalysis>, gaps: seq<PeriodAnalysis>)
    requires forall i | 0 <= i < |scored| :: !scored[i].isUndocumented
    requires forall i | 0 <= i < |gaps| :: gaps[i].isUndocumented
    ensures DocumentedDuration(scored + gaps) == TotalDuration(scored)
  {
    TotalDurationAppend(scored, gaps);
    DocumentedOfDocumented(scored);
    DocumentedOfGaps(gaps);
  }

  lemma {:induction false} DocumentedOfDocumented(es: seq<PeriodAnalysis>)
    requires forall i | 0 <= i < |es| :: !es[i].isUndocumented
    ensures DocumentedDuration(es) == TotalDuration(es)
  {
    if es != [] {
      DocumentedOfDocumented(es[1..]);
    }
  }

  lemma {:induction false} DocumentedOfGaps(es: seq<PeriodAnalysis>)
    requires forall i | 0 <= i < |es| :: es[i].isUndocumented
    ensures DocumentedDuration(es) == 0
  {
    if es != [] {
      DocumentedOfGaps(es[1..]);
    }
  }

  // ---------------------------------------------------------------------------
  // The shared pipeline's precondition
  // ---------------------------------------------------------------------------

  /** The scored valid periods followed by their gaps: the list the aggregator receives. */
  function PeriodAnalyses(c: DriverConfiguration, valid: seq<Period>): seq<PeriodAnalysis>
    requires AllRateable(c, valid)
  {
    ScoredPeriods(c, valid) + UndocumentedPeriods(c, valid)
  }

  /** Neither the scorer nor the aggregator divides by zero on these valid periods. */
  predicate PipelineDefined(c: DriverConfiguration, valid: seq<Period>) {
    AllRateable(c, valid) && Aggregatable(PeriodAnalyses(c, valid))
  }

  /** The pipeline is defined, and no entry has a negative duration, on periods that all overlap an ordered window without wrapping past midnight. */
  lemma WindowPipelineDefined(c: DriverConfiguration, valid: seq<Period>)
    requires c.maxSpeed != 0.0 && c.startTime <= c.endTime
    requires forall i | 0 <= i < |valid| :: OverlapsWindow(c, valid[i]) && TimeOfDay(valid[i].start) <= TimeOfDay(valid[i].end)
    ensures PipelineDefined(c, valid)
    ensures forall i | 0 <= i < |PeriodAnalyses(c, valid)| :: PeriodAnalyses(c, valid)[i].duration >= 0
  {
    var scored, gaps := ScoredPeriods(c, valid), UndocumentedPeriods(c, valid);
    forall i | 0 <= i < |valid| ensures scored[i].duration >= 0 {
      ClippedDurationBounds(c, valid[i]);
    }
    var es := scored + gaps;
    forall i | 0 <= i < |es| ensures es[i].duration >= 0 {
      if i >= |scored| { assert es[i] == gaps[i - |scored|]; }
    }
    NonNegativeDurationsAggregatable(es);
  }

  /**
   * When every entry has a non-negative duration and a rating in [0, 1] and the
   * penalty multiplier lies in [0, 1], so does the rating, and the documented
   * entries alone have a non-negative total.
   */
  lemma EntriesRatingBounded(c: DriverConfiguration, scored: seq<PeriodAnalysis>, gaps: seq<PeriodAnalysis>)
    requires 0.0 <= PenaltyMultiplier(c) <= 1.0
    requires forall i | 0 <= i < |scored + gaps| :: (scored + gaps)[i].duration >= 0 && 0.0 <= (scored + gaps)[i].rating <= 1.0
    ensures Aggregatable(scored + gaps)
    ensures 0.0 <= ComputeHistoryAnalysis(c, scored + gaps).driverRating <= 1.0
    ensures TotalDuration(scored) >= 0
  {
    var es := scored + gaps;
    RatingBounded(c, es);
    assert forall i | 0 <= i < |scored| :: scored[i] == es[i];
    NonNegativeDurationsAggregatable(scored);
  }

  /** Under the same conditions, with non-negative speeds and a substitute rating in [0, 1], every entry is rated within [0, 1]. */
  lemma EntriesRatedInUnitInterval(c: DriverConfiguration, valid: seq<Period>)
    requires c.maxSpeed > 0.0 && 0.0 <= c.ratingForExceedingSpeedLimit <= 1.0
    requires forall i | 0 <= i < |valid| :: valid[i].averageSpeed >= 0.0
    ensures AllRateable(c, valid)
    ensures forall i | 0 <= i < |PeriodAnalyses(c, valid)| :: 0.0 <= PeriodAnalyses(c, valid)[i].rating <= 1.0
  {
    var scored, gaps := ScoredPeriods(c, valid), UndocumentedPeriods(c, valid);
    var es := scored + gaps;
    forall i | 0 <= i < |es| ensures 0.0 <= es[i].rating <= 1.0 {
      if i >= |scored| { assert es[i] == gaps[i - |scored|]; }
    }
  }

  /** When no valid period moves and the speed limit is positive, every entry is rated 0. */
  lemma StationaryEntriesWeighZero(c: DriverConfiguration, valid: seq<Period>)
    requires c.maxSpeed > 0.0
    requires forall i | 0 <= i < |valid| :: valid[i].averageSpeed == 0.0
    ensures AllRateable(c, valid)
    ensures WeightedSum(PeriodAnalyses(c, valid)) == 0.0
  {
    var scored, gaps := ScoredPeriods(c, valid), UndocumentedPeriods(c, valid);
    var es := scored + gaps;
    forall i | 0 <= i < |es| ensures es[i].rating == 0.0 {
      if i >= |scored| { assert es[i] == gaps[i - |scored|]; }
    }
    ZeroRatingsWeighZero(es);
  }

  /** With the substitute rating 0, entries for periods driven above the limit weigh nothing. */
  lemma SpeedingEntriesWeighZero(c: DriverConfiguration, valid: seq<Period>)
    requires c.ratingForExceedingSpeedLimit == 0.0
    requires forall i | 0 <= i < |valid| :: valid[i].averageSpeed > c.maxSpeed
    ensures AllRateable(c, valid)
    ensures WeightedSum(PeriodAnalyses(c, valid)) == 0.0
  {
    var scored, gaps := ScoredPeriods(c, valid), UndocumentedPeriods(c, valid);
    var es := scored + gaps;
    forall i | 0 <= i < |es| ensures es[i].rating == 0.0 {
      if i >= |scored| { assert es[i] == gaps[i - |scored|]; }
    }
    ZeroRatingsWeighZero(es);
  }

  /** A speed exactly at the limit is rated 1. */
  lemma SpeedAtLimitRatesOne(c: DriverConfiguration)
    requires c.maxSpeed != 0.0
    ensures SpeedRating(c, c.maxSpeed) == 1.0
  {
  }

  /** Two configurations that agree on the window, the limit and the substitute rating; they may differ in the penalty. */
  predicate SameScoring(c: DriverConfiguration, d: DriverConfiguration) {
    c.startTime == d.startTime && c.endTime == d.endTime &&
    c.maxSpeed == d.maxSpeed && c.ratingForExceedingSpeedLimit == d.ratingForExceedingSpeedLimit
  }

  /** Two configurations with the same daily window. */
  predicate SameWindow(c: DriverConfiguration, d: DriverConfiguration) {
    c.startTime == d.startTime && c.endTime == d.endTime
  }

  /** The filter reads the window and nothing else of the configuration. */
  lemma {:induction false} WindowFilterSameWindow(c: DriverConfiguration, d: DriverConfiguration, h: seq<Period>)
    requires SameWindow(c, d)
    ensures WindowFilter(c, h) == WindowFilter(d, h)
  {
    if h != [] {
      WindowFilterSameWindow(c, d, h[1..]);
    }
  }

  /** The gap detector reads the window and nothing else of the configuration. */
  lemma {:induction false} GapsSameWindow(c: DriverConfiguration, d: DriverConfiguration, ps: seq<Period>, k: nat)
    requires SameWindow(c, d) && k <= |ps|
    ensures GapsUpTo(c, ps, k) == GapsUpTo(d, ps, k)
  {
    if k > 0 {
      GapsSameWindow(c, d, ps, k - 1);
    }
  }

  /** The penalty settings play no part in choosing the valid periods. */
  lemma ValidPeriodsIgnorePenalty(c: DriverConfiguration, d: DriverConfiguration, h: seq<Period>)
    requires SameScoring(c, d)
    ensures GetValidPeriods(c, h) == GetValidPeriods(d, h)
  {
    WindowFilterSameWindow(c, d, h);
  }

  lemma {:induction false} ScoredSameScoring(c: DriverConfiguration, d: DriverConfiguration, ps: seq<Period>)
    requires SameScoring(c, d) && AllRateable(c, ps)
    ensures AllRateable(d, ps) && ScoredPeriods(c, ps) == ScoredPeriods(d, ps)
  {
    if ps != [] {
      ScoredSameScoring(c, d, ps[1..]);
    }
  }

  /** The penalty settings play no part in scoring periods or finding gaps. */
  lemma EntriesIgnorePenalty(c: DriverConfiguration, d: DriverConfiguration, valid: seq<Period>)
    requires SameScoring(c, d) && AllRateable(c, valid)
    ensures AllRateable(d, valid)
    ensures PeriodAnalyses(c, valid) == PeriodAnalyses(d, valid)
  {
    ScoredSameScoring(c, d, valid);
    GapsSameWindow(c, d, valid, |valid|);
  }

  /** On a fixed list of valid periods, turning the penalty on scales the day's rating and nothing else. */
  lemma PipelinePenaltyScales(c: DriverConfiguration, valid: seq<Period>)
    requires PipelineDefined(c.(isPenaltyApplicable := false), valid)
    ensures PipelineDefined(c.(isPenaltyApplicable := true), valid)
    ensures PeriodAnalyses(c.(isPenaltyApplicable := true), valid) == PeriodAnalyses(c.(isPenaltyApplicable := false), valid)
    ensures ComputeHistoryAnalysis(c.(isPenaltyApplicable := true), PeriodAnalyses(c.(isPenaltyApplicable := true), valid)) ==
      Scaled(ComputeHistoryAnalysis(c.(isPenaltyApplicable := false), PeriodAnalyses(c.(isPenaltyApplicable := false), valid)),
             c.penaltyForUndocumentedPeriod)
  {
    EntriesIgnorePenalty(c.(isPenaltyApplicable := false), c.(isPenaltyApplicable := true), valid);
    PenaltyIsExactMultiplier(c, PeriodAnalyses(c.(isPenaltyApplicable := false), valid));
  }
}
