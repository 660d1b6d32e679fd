# Driver-scoring analysers, modelled in Dafny

This project models the scoring engine of `InterviewTest.DriverData`: the analysers that
turn one day's driving history (a list of periods, each with an absolute start, an
absolute end and an average speed) into a `HistoryAnalysis`, meaning an analysed
(documented) duration and a driver rating.

`BaseDriverAnalyser` provides a four-step pipeline that the profiles share:

1. **Window filter** (`GetValidPeriods`). Keep the periods whose time of day overlaps
   the configured daily window, ordered by absolute start.
2. **Scorer** (`AnalyseValidPeriodList`). Clip each kept period to the window. Rate it
   `speed / MaxSpeed`, or `RatingForExceedingSpeedLimit` when it is over the limit.
3. **Gap detector** (`AnalyseUndocumentedPeriodList`). Emit rating-0 "undocumented"
   entries for a leading gap, a trailing gap or a gap between consecutive periods. One
   if / else-if chain decides which gap each index yields.
4. **Aggregator** (`ComputeHistoryAnalysis`). Take the duration-weighted mean rating,
   or 0 unless the weighted sum is positive. Multiply it by the penalty factor when the
   penalty applies. Report the summed length of the documented entries.

The profiles:

- **Delivery** runs the pipeline as it stands, behind a null/empty guard.
- **Formula One** trims the zero-speed periods off both ends of the history and uses no
  window. It scores the raw times of day and the absolute elapsed time, and reports
  internal gaps only.
- **Getaway** applies the same edge trim, then the base window filter.
- **Friendly** reports last end minus first start, rated 1.

`AnalyserLookup` maps four case-sensitive names to these profiles with preset
configurations.

The model has these layers:

- **Values.** Timestamps are whole seconds (`int`), and a time of day is
  `t % 86400`. Speeds and ratings are `real`.
- **Profiles.** Each profile is a module of functions over a `DriverConfiguration`
  value. An analyser holds nothing but its read-only configuration.
- **Loops.** The two list-building loops of the base and Formula One analysers are
  methods with loop invariants. Each is proved equal to the specification function that
  the pure `Analyse` functions use.
- **Division by zero.** The source throws on it. Here it is a precondition (`Rateable`,
  `Aggregatable`, `CanAnalyse`), and lemmas show that well-formed inputs meet it.
- **Tests as theorems.** The canned histories of `CannedData.cs` are constants, and the
  expected values of the unit tests are proved as lemmas.

`Entities/DriverConfiguration.cs` declares only `StartTime`, `EndTime` and `MaxSpeed`.
The analysers also read `RatingForExceedingSpeedLimit`, `IsPenaltyApplicable` and
`PenaltyForUndocumentedPeriod`, so the model's configuration has all six fields, and
this follows the code. The types `Period`, `PeriodAnalysis` and `HistoryAnalysis` are
not part of this model's sources. Their fields are inferred from how the analysers use
them.

## Model

| member | source | states |
|---|---|---|
| Entities.TimeOfDay | InterviewTest.DriverData/Analysers/BaseDriverAnalyser.cs:65-77 | `DateTimeOffset.TimeOfDay` lies in [0, 86400) and differs from the timestamp by whole days |
| BaseDriverAnalyser.OverlapsWindow | InterviewTest.DriverData/Analysers/BaseDriverAnalyser.cs:123 | a period overlaps the window when its time-of-day end is after the window start and its time-of-day start is before the window end |
| BaseDriverAnalyser.OverlapsIffSharedInstant | InterviewTest.DriverData/Analysers/BaseDriverAnalyser.cs:123 | for a period that does not wrap past midnight and a non-empty window, the overlap test holds iff some instant lies in both |
| BaseDriverAnalyser.WindowFilter | InterviewTest.DriverData/Analysers/BaseDriverAnalyser.cs:123 | the `Where` never lengthens the history; which periods it keeps, and how often, is stated by `WindowFilterCounts` |
| BaseDriverAnalyser.WindowFilterCounts | InterviewTest.DriverData/Analysers/BaseDriverAnalyser.cs:123 | the `Where` keeps every occurrence of each period that overlaps the window (end time of day after the start, start time of day before the end) and no other |
| BaseDriverAnalyser.WindowFilterAppend | InterviewTest.DriverData/Analysers/BaseDriverAnalyser.cs:123 | the filter distributes over concatenation |
| BaseDriverAnalyser.WindowFilterSkipsOutside | InterviewTest.DriverData/Analysers/BaseDriverAnalyser.cs:123 | inserting a period that does not overlap the window, anywhere, leaves the filtered list unchanged |
| BaseDriverAnalyser.InsertByStart | InterviewTest.DriverData/Analysers/BaseDriverAnalyser.cs:123 | inserting into a list sorted by start keeps it sorted and adds exactly that one period |
| BaseDriverAnalyser.SortByStart | InterviewTest.DriverData/Analysers/BaseDriverAnalyser.cs:123 | `OrderBy(x => x.Start)` yields a permutation of its input sorted by absolute start |
| BaseDriverAnalyser.InsertWithStart | InterviewTest.DriverData/Analysers/BaseDriverAnalyser.cs:123 | insertion puts the new period ahead of every period with the same start and keeps their relative order |
| BaseDriverAnalyser.SortByStartStable | InterviewTest.DriverData/Analysers/BaseDriverAnalyser.cs:123 | the sort is stable, as `OrderBy` is: for every start time, the periods starting then appear in the same order as in the input |
| BaseDriverAnalyser.SortByStartOfSorted | InterviewTest.DriverData/Analysers/BaseDriverAnalyser.cs:123 | sorting an already sorted list returns it unchanged, as a stable sort does |
| BaseDriverAnalyser.GetValidPeriods | InterviewTest.DriverData/Analysers/BaseDriverAnalyser.cs:121-124 | the valid periods are exactly the overlapping ones, each as often as in the history, sorted by start; a filtered list already in start order comes back unchanged, as the stable `OrderBy` leaves it |
| BaseDriverAnalyser.SpeedRating | InterviewTest.DriverData/Analysers/BaseDriverAnalyser.cs:106-107 | above the limit the rating is the substitute; otherwise rating × limit = speed, so a speed in [0, limit] rates in [0, 1] |
| BaseDriverAnalyser.SpeedAtLimitRatesOne | InterviewTest.DriverData/Analysers/BaseDriverAnalyser.cs:106-107 | driving exactly at the limit rates 1, as the at-limit tests expect |
| BaseDriverAnalyser.ScorePeriod | InterviewTest.DriverData/Analysers/BaseDriverAnalyser.cs:100-107 | an entry covers exactly the instants shared by the period's time-of-day span and the window; its start is the later of the two starts and its end the earlier of the two ends, even when a midnight wrap leaves the end before the start; its duration is end − start, it is rated by speed and it is documented |
| BaseDriverAnalyser.ClippedDurationBounds | InterviewTest.DriverData/Analysers/BaseDriverAnalyser.cs:101-103 | for an overlapping period that does not wrap past midnight, the clipped duration lies between 0 and both the period's and the window's length |
| BaseDriverAnalyser.MidnightWrapInsideWindow | InterviewTest.DriverData/Analysers/BaseDriverAnalyser.cs:101-103 | a period whose time of day wraps past midnight, with both times of day inside the window, keeps its inverted bounds and scores a negative duration |
| BaseDriverAnalyser.ScoredPeriods | InterviewTest.DriverData/Analysers/BaseDriverAnalyser.cs:96-110 | one entry per valid period, in order, each the scored period |
| BaseDriverAnalyser.AnalyseValidPeriodList | InterviewTest.DriverData/Analysers/BaseDriverAnalyser.cs:92-114 | the foreach loop builds one scored entry per valid period, in order |
| BaseDriverAnalyser.InternalGap | InterviewTest.DriverData/Analysers/BaseDriverAnalyser.cs:77-81 | a gap between consecutive periods exists iff the later one starts after both the window start and the earlier one's end; it then runs from that end to that start |
| BaseDriverAnalyser.GapAt | InterviewTest.DriverData/Analysers/BaseDriverAnalyser.cs:64-81 | each index yields at most one gap, undocumented, rated 0 and of positive length end − start; at index 0 the leading gap from the window start when the first period starts later, and otherwise nothing unless a lone period leaves a trailing gap; at the last index the trailing gap to the window end when the period ends earlier (and no leading gap took the index); at an interior index, and at the last when no trailing gap applies, the internal gap |
| BaseDriverAnalyser.GapsUpTo | InterviewTest.DriverData/Analysers/BaseDriverAnalyser.cs:62-82 | at most one gap per index; every gap is undocumented, rated 0 and of positive length end − start |
| BaseDriverAnalyser.UndocumentedPeriods | InterviewTest.DriverData/Analysers/BaseDriverAnalyser.cs:57-85 | at most one gap per valid period, each undocumented, rated 0 and of positive length |
| BaseDriverAnalyser.AnalyseUndocumentedPeriodList | InterviewTest.DriverData/Analysers/BaseDriverAnalyser.cs:57-85 | the indexed loop yields the gaps of the specification, at most N of them |
| BaseDriverAnalyser.GapsWithinWindow | InterviewTest.DriverData/Analysers/BaseDriverAnalyser.cs:62-82 | when every valid period overlaps the window, every gap lies inside the window |
| BaseDriverAnalyser.SinglePeriodGaps | InterviewTest.DriverData/Analysers/BaseDriverAnalyser.cs:65-75 | for one period a leading gap suppresses the trailing gap (else-if order) |
| BaseDriverAnalyser.TrailingGapSuppressesInternal | InterviewTest.DriverData/Analysers/BaseDriverAnalyser.cs:71-81 | at the last of two or more periods a trailing gap is reported instead of the internal gap before it |
| BaseDriverAnalyser.ComputeHistoryAnalysis | InterviewTest.DriverData/Analysers/BaseDriverAnalyser.cs:25-50 | empty input gives zero; the rating × total = weighted sum × multiplier when the weighted sum is positive and is 0 otherwise; the duration is the sum over documented entries |
| BaseDriverAnalyser.TotalDuration | InterviewTest.DriverData/Analysers/BaseDriverAnalyser.cs:38 | the divisor: the summed duration of every entry, gaps included |
| BaseDriverAnalyser.WeightedSum | InterviewTest.DriverData/Analysers/BaseDriverAnalyser.cs:37 | the dividend: the sum of duration × rating over every entry |
| BaseDriverAnalyser.DocumentedDuration | InterviewTest.DriverData/Analysers/BaseDriverAnalyser.cs:45-46 | the summed duration of the entries that are not undocumented |
| BaseDriverAnalyser.PenaltyMultiplier | InterviewTest.DriverData/Analysers/BaseDriverAnalyser.cs:40-43 | the penalty factor when the penalty applies, 1 otherwise |
| BaseDriverAnalyser.TotalDurationAppend | InterviewTest.DriverData/Analysers/BaseDriverAnalyser.cs:35-46 | the three sums distribute over concatenation |
| BaseDriverAnalyser.TotalIgnoresOrder | InterviewTest.DriverData/Analysers/BaseDriverAnalyser.cs:35-38 | any permutation of the entries has the same total duration |
| BaseDriverAnalyser.WeightedIgnoresOrder | InterviewTest.DriverData/Analysers/BaseDriverAnalyser.cs:35-37 | any permutation of the entries has the same weighted sum |
| BaseDriverAnalyser.DocumentedIgnoresOrder | InterviewTest.DriverData/Analysers/BaseDriverAnalyser.cs:35-46 | any permutation of the entries has the same documented duration |
| BaseDriverAnalyser.ComputeIgnoresOrder | InterviewTest.DriverData/Analysers/BaseDriverAnalyser.cs:35-46 | aggregating any permutation of the entries gives the same analysis, so the `OrderBy` on entry start times does not change the result |
| BaseDriverAnalyser.DocumentedWithinTotal | InterviewTest.DriverData/Analysers/BaseDriverAnalyser.cs:45-46 | with non-negative durations the documented duration lies between 0 and the total duration |
| BaseDriverAnalyser.NonNegativeDurationsAggregatable | InterviewTest.DriverData/Analysers/BaseDriverAnalyser.cs:37-38 | with non-negative durations, a zero total forces a zero weighted sum, so the division never sees a zero divisor |
| BaseDriverAnalyser.WeightedSumBounds | InterviewTest.DriverData/Analysers/BaseDriverAnalyser.cs:37 | with non-negative durations and ratings in [0, 1], 0 ≤ Σ duration·rating ≤ Σ duration |
| BaseDriverAnalyser.RatingBounded | InterviewTest.DriverData/Analysers/BaseDriverAnalyser.cs:37-43 | under the same conditions the rating lies in [0, multiplier]; unpenalised, in [0, 1] |
| BaseDriverAnalyser.SingleEntryAnalysis | InterviewTest.DriverData/Analysers/BaseDriverAnalyser.cs:37-46 | one documented entry rated 1 aggregates to its own duration, rated at the multiplier |
| BaseDriverAnalyser.PenaltyIsExactMultiplier | InterviewTest.DriverData/Analysers/BaseDriverAnalyser.cs:40-43 | turning the penalty on multiplies the rating by the factor exactly, gaps or no gaps, and keeps the duration |
| BaseDriverAnalyser.ZeroRatingsWeighZero | InterviewTest.DriverData/Analysers/BaseDriverAnalyser.cs:37-38 | entries all rated 0 have weighted sum 0, hence rating 0 |
| BaseDriverAnalyser.DocumentedExcludesGaps | InterviewTest.DriverData/Analysers/BaseDriverAnalyser.cs:45 | the documented duration of scored entries followed by gaps is the scored entries' total; gaps never add to it |
| BaseDriverAnalyser.DocumentedOfDocumented | InterviewTest.DriverData/Analysers/BaseDriverAnalyser.cs:45-46 | when no entry is undocumented, the documented duration is the total |
| BaseDriverAnalyser.DocumentedOfGaps | InterviewTest.DriverData/Analysers/BaseDriverAnalyser.cs:45-46 | entries that are all gaps have documented duration 0 |
| BaseDriverAnalyser.WindowPipelineDefined | InterviewTest.DriverData/Analysers/BaseDriverAnalyser.cs:92-114 | with a non-zero limit, an ordered window and no midnight-wrapping valid period, nothing divides by zero and every entry has a non-negative duration |
| BaseDriverAnalyser.EntriesRatingBounded | InterviewTest.DriverData/Analysers/BaseDriverAnalyser.cs:37-46 | with non-negative durations, ratings in [0, 1] and a multiplier in [0, 1], the rating lies in [0, 1] and the documented total is non-negative |
| BaseDriverAnalyser.EntriesRatedInUnitInterval | InterviewTest.DriverData/Analysers/BaseDriverAnalyser.cs:106-107 | with a positive limit, non-negative speeds and a substitute in [0, 1], every entry is rated in [0, 1] |
| BaseDriverAnalyser.StationaryEntriesWeighZero | InterviewTest.DriverData/Analysers/BaseDriverAnalyser.cs:106-107 | periods at speed 0 contribute nothing to the weighted sum |
| BaseDriverAnalyser.SpeedingEntriesWeighZero | InterviewTest.DriverData/Analysers/BaseDriverAnalyser.cs:106-107 | with substitute rating 0, periods over the limit contribute nothing to the weighted sum |
| BaseDriverAnalyser.WindowFilterSameWindow | InterviewTest.DriverData/Analysers/BaseDriverAnalyser.cs:123 | two configurations with the same window start and end filter every history alike |
| BaseDriverAnalyser.GapsSameWindow | InterviewTest.DriverData/Analysers/BaseDriverAnalyser.cs:62-82 | two configurations with the same window start and end yield the same gaps: the limit, the substitute rating and the penalty play no part |
| BaseDriverAnalyser.ValidPeriodsIgnorePenalty | InterviewTest.DriverData/Analysers/BaseDriverAnalyser.cs:121-124 | two configurations that agree on the window, the limit and the substitute rating keep the same valid periods, whatever their penalty settings |
| BaseDriverAnalyser.ScoredSameScoring | InterviewTest.DriverData/Analysers/BaseDriverAnalyser.cs:96-110 | two configurations that agree on the window, the limit and the substitute rating score the valid periods alike, whatever their penalty settings |
| BaseDriverAnalyser.EntriesIgnorePenalty | InterviewTest.DriverData/Analysers/BaseDriverAnalyser.cs:57-114 | for two configurations that agree on the window, the limit and the substitute rating, scored entries and gaps together are the same, whatever the penalty settings |
| BaseDriverAnalyser.PipelinePenaltyScales | InterviewTest.DriverData/Analysers/BaseDriverAnalyser.cs:40-43 | on the same valid periods, the penalised result is the unpenalised one with its rating scaled by the factor |
| DeliveryDriverAnalyser.Analyse | InterviewTest.DriverData/Analysers/DeliveryDriverAnalyser.cs:21-41 | a null or empty history gives zero; otherwise the analysed duration is the total of the scored valid periods |
| DeliveryDriverAnalyser.AnalyseDefined | InterviewTest.DriverData/Analysers/DeliveryDriverAnalyser.cs:31-37 | with a positive limit, an ordered window and no midnight-wrapping overlapping period, the delivery pipeline never divides by zero |
| DeliveryDriverAnalyser.RatingInUnitInterval | InterviewTest.DriverData/Analysers/DeliveryDriverAnalyser.cs:29-38 | under those conditions, with non-negative speeds and substitute and penalty in [0, 1], the rating lies in [0, 1] and the duration is non-negative |
| DeliveryDriverAnalyser.WindowCoveredAtFullRating | InterviewTest.DriverData/Analysers/DeliveryDriverAnalyser.cs:29-38 | one period spanning the whole window and rated 1 is clipped to the window: window length, rated at the multiplier |
| DeliveryDriverAnalyser.CoveringPeriodEntries | InterviewTest.DriverData/Analysers/DeliveryDriverAnalyser.cs:31-34 | such a period is the only valid one and yields one entry clipped to the window length, rated 1, with no gap |
| DeliveryDriverAnalyser.StationaryRatesZero | InterviewTest.DriverData/Analysers/DeliveryDriverAnalyser.cs:29-38 | when every speed is 0 the rating is 0 |
| DeliveryDriverAnalyser.OutsideWindowIgnored | InterviewTest.DriverData/Analysers/DeliveryDriverAnalyser.cs:29-38 | a period outside the window, inserted anywhere, changes nothing |
| DeliveryDriverAnalyser.OutsideWindowFiltered | InterviewTest.DriverData/Analysers/DeliveryDriverAnalyser.cs:31 | a period outside the window never reaches the valid list |
| DeliveryDriverAnalyser.PenaltyScalesRating | InterviewTest.DriverData/Analysers/DeliveryDriverAnalyser.cs:29-38 | turning the penalty on keeps the duration and multiplies the rating by the factor |
| DeliveryDriverAnalyser.FactorIgnoredWithoutPenalty | InterviewTest.DriverData/Analysers/DeliveryDriverAnalyser.cs:29-38 | while the penalty is off, its factor does not affect the result |
| SpeedTrim.FirstMoving | InterviewTest.DriverData/Analysers/FormulaOneAnalyser.cs:100 | the index `SkipWhile(speed <= 0)` stops at: every earlier period is stationary, the one there moves |
| SpeedTrim.LastMoving | InterviewTest.DriverData/Analysers/FormulaOneAnalyser.cs:105 | the index of the element `LastOrDefault(speed > 0)` finds: every later period is stationary, the one there moves |
| SpeedTrim.SkipStationary | InterviewTest.DriverData/Analysers/FormulaOneAnalyser.cs:100 | `SkipWhile(speed <= 0)` yields the suffix of the history from the first moving period |
| SpeedTrim.TrimEdges | InterviewTest.DriverData/Analysers/FormulaOneAnalyser.cs:100-107 | empty when nothing moves; otherwise the contiguous slice from the first to the last moving period, in input order, beginning and ending with a moving period |
| SpeedTrim.TrimEdgesSubMultiset | InterviewTest.DriverData/Analysers/FormulaOneAnalyser.cs:100-107 | the trim only removes periods |
| FormulaOneAnalyser.GetValidPeriods | InterviewTest.DriverData/Analysers/FormulaOneAnalyser.cs:98-108 | nothing when no period moves; otherwise the slice from the first to the last moving period |
| FormulaOneAnalyser.ScorePeriod | InterviewTest.DriverData/Analysers/FormulaOneAnalyser.cs:79-84 | no clipping: raw times of day and the absolute elapsed time, which differs from the time-of-day difference by whole days |
| FormulaOneAnalyser.ScoredPeriods | InterviewTest.DriverData/Analysers/FormulaOneAnalyser.cs:75-88 | one unclipped entry per valid period, in order |
| FormulaOneAnalyser.AnalyseValidPeriodList | InterviewTest.DriverData/Analysers/FormulaOneAnalyser.cs:71-91 | the foreach loop builds one unclipped entry per valid period, in order |
| FormulaOneAnalyser.Between | InterviewTest.DriverData/Analysers/FormulaOneAnalyser.cs:58-61 | the gap before period i is undocumented, rated 0 and runs from the previous period's time-of-day end to this one's time-of-day start |
| FormulaOneAnalyser.InternalGapsUpTo | InterviewTest.DriverData/Analysers/FormulaOneAnalyser.cs:53-61 | gaps come only from indices ≥ 1, each between two consecutive periods, so there is never a leading or trailing one; at most N − 1 gaps, all rated 0 and of positive length |
| FormulaOneAnalyser.AnalyseUndocumentedPeriodList | InterviewTest.DriverData/Analysers/FormulaOneAnalyser.cs:48-64 | the loop from index 1 yields exactly those gaps |
| FormulaOneAnalyser.UndocumentedPeriods | InterviewTest.DriverData/Analysers/FormulaOneAnalyser.cs:48-64 | at most N − 1 gaps for N valid periods, each undocumented, rated 0 and of positive length |
| FormulaOneAnalyser.Analyse | InterviewTest.DriverData/Analysers/FormulaOneAnalyser.cs:21-41 | a null or empty history gives zero; otherwise the duration is the total of the scored trimmed periods |
| FormulaOneAnalyser.AnalyseDefined | InterviewTest.DriverData/Analysers/FormulaOneAnalyser.cs:29-38 | with a positive limit and no period ending before it starts, nothing divides by zero |
| FormulaOneAnalyser.RatingInUnitInterval | InterviewTest.DriverData/Analysers/FormulaOneAnalyser.cs:29-38 | under those conditions, with non-negative speeds and substitute and penalty in [0, 1], the rating lies in [0, 1] and the duration is non-negative |
| FormulaOneAnalyser.EntryDurationsNonNegative | InterviewTest.DriverData/Analysers/FormulaOneAnalyser.cs:79-84 | when no valid period ends before it starts, every entry, scored or gap, has non-negative duration |
| FormulaOneAnalyser.EntryRatingsInUnitInterval | InterviewTest.DriverData/Analysers/FormulaOneAnalyser.cs:79-84 | with a positive limit, non-negative speeds and a substitute in [0, 1], every entry is rated in [0, 1] |
| FormulaOneAnalyser.StationaryHistoryRatesZero | InterviewTest.DriverData/Analysers/FormulaOneAnalyser.cs:100-103 | when no period moves the valid list is empty and the result is zero |
| FormulaOneAnalyser.SingleFullyRatedPeriod | InterviewTest.DriverData/Analysers/FormulaOneAnalyser.cs:29-38 | a lone moving period rated 1 is analysed over its whole elapsed time at the multiplier |
| FormulaOneAnalyser.PenaltyScalesRating | InterviewTest.DriverData/Analysers/FormulaOneAnalyser.cs:29-38 | turning the penalty on keeps the duration and multiplies the rating by the factor |
| FormulaOneAnalyser.FactorIgnoredWithoutPenalty | InterviewTest.DriverData/Analysers/FormulaOneAnalyser.cs:29-38 | while the penalty is off, its factor does not affect the result |
| FormulaOneAnalyser.ScoredSameScoring | InterviewTest.DriverData/Analysers/FormulaOneAnalyser.cs:75-88 | two configurations that agree on the window, the limit and the substitute rating score the valid periods alike, whatever their penalty settings |
| FormulaOneAnalyser.InternalGapsSameStart | InterviewTest.DriverData/Analysers/FormulaOneAnalyser.cs:53-61 | the internal gaps read only the window start time: two configurations with the same start yield the same gaps |
| FormulaOneAnalyser.EntriesSameScoring | InterviewTest.DriverData/Analysers/FormulaOneAnalyser.cs:31-34 | for two such configurations, scored entries and gaps together are the same, whatever the penalty settings |
| GetawayDriverAnalyser.GetawayValidPeriods | InterviewTest.DriverData/Analysers/GetawayDriverAnalyser.cs:49-59 | sorted by start; exactly the trimmed periods that overlap the window, each as often as in the trimmed history; a sub-multiset of the history; nothing when no period moves |
| GetawayDriverAnalyser.Analyse | InterviewTest.DriverData/Analysers/GetawayDriverAnalyser.cs:22-42 | a null or empty history gives zero; otherwise the duration is the total of the scored valid periods |
| GetawayDriverAnalyser.IsDeliveryOnTrimmed | InterviewTest.DriverData/Analysers/GetawayDriverAnalyser.cs:30-58 | the getaway profile is the delivery pipeline applied to the edge-trimmed history |
| GetawayDriverAnalyser.AnalyseDefined | InterviewTest.DriverData/Analysers/GetawayDriverAnalyser.cs:30-39 | under the delivery conditions, nothing divides by zero |
| GetawayDriverAnalyser.RatingInUnitInterval | InterviewTest.DriverData/Analysers/GetawayDriverAnalyser.cs:30-39 | under the delivery conditions the rating lies in [0, 1] and the duration is non-negative |
| GetawayDriverAnalyser.StationaryHistoryRatesZero | InterviewTest.DriverData/Analysers/GetawayDriverAnalyser.cs:51-54 | when no period moves, the result is zero |
| FriendlyAnalyser.Analyse | InterviewTest.DriverData/Analysers/FriendlyAnalyser.cs:12-19 | the rating is always 1 |
| FriendlyAnalyser.ContiguousDurationIsSum | InterviewTest.DriverData/Analysers/FriendlyAnalyser.cs:16 | on a history where each period starts where the previous ends, the duration is the sum of the period lengths |
| FriendlyAnalyser.OnlyOuterEndpointsMatter | InterviewTest.DriverData/Analysers/FriendlyAnalyser.cs:16 | only the first start and the last end matter; speeds and interior periods are ignored |
| FriendlyAnalyser.JoinAddsDurations | InterviewTest.DriverData/Analysers/FriendlyAnalyser.cs:16 | two histories joined end to start analyse to the sum of their durations |
| AnalyserLookup.GetAnalyser | InterviewTest.DriverData/AnalyserLookup.cs:10-76 | null raises ArgumentNull; a name succeeds iff it is one of the four keys, otherwise ArgumentOutOfRange carrying the name; each key yields its preset |
| AnalyserLookup.Analyse | InterviewTest.DriverData/AnalyserLookup.cs:18-28 | the windowed profiles answer a null or empty history with zero; the friendly one always rates 1 |
| AnalyserLookup.NamesAreCaseSensitive | InterviewTest.DriverData/AnalyserLookup.cs:15-16 | "", "Delivery" and "invalidDriver" are out of range |
| AnalyserLookup.PresetRatingsInUnitInterval | InterviewTest.DriverData/AnalyserLookup.cs:21-76 | every preset analyser rates within [0, 1] any non-empty history of non-negative speeds that it can analyse: for the windowed presets, none of the periods overlapping their window wraps past midnight; for Formula One, no period ends before it starts |
| Scenarios.DeliveryValidPeriods | InterviewTest.DriverData/CannedData.cs:37-81 | on the canned history the 09:00–17:00 window keeps the five middle periods in order |
| Scenarios.DeliveryGaps | InterviewTest.DriverData/CannedData.cs:37-81 | among the five delivery valid periods the only gap is the 15 minutes from 09:35 to 09:50: the first starts before 09:00 and the last ends after 17:00, so there is no leading or trailing gap |
| Scenarios.DeliveryOnHistory | InterviewTest.DriverData.UnitTests/Analysers/DeliveryDriverAnalyserTests.cs:42-57 | delivery on the canned history: 7 h 45 min, rated 10999 / 14400 (about 0.7638) |
| Scenarios.DeliveryWithPenaltyOnHistory | InterviewTest.DriverData.UnitTests/Analysers/DeliveryDriverAnalyserTests.cs:187-202 | with penalty 0.5: 7 h 45 min, rated half of that |
| Scenarios.DeliveryUndocumentedHourWithPenalty | InterviewTest.DriverData.UnitTests/Analysers/DeliveryDriverAnalyserTests.cs:205-220 | 09–11 and 12–17 at the limit with penalty 0.5: 7 h, rated 0.4375 (the gap counts in the divisor) |
| DeliveryEdgeScenarios.DeliveryNonPermittedIsZero | InterviewTest.DriverData.UnitTests/Analysers/DeliveryDriverAnalyserTests.cs:97-112 | periods that all end by 09:00 give zero |
| DeliveryEdgeScenarios.DeliverySpeedingRatesZero | InterviewTest.DriverData.UnitTests/Analysers/DeliveryDriverAnalyserTests.cs:115-130 | periods all over the limit: rating 0 but 6 h 30 min documented |
| DeliveryEdgeScenarios.DeliverySameStartAndEndIsZero | InterviewTest.DriverData.UnitTests/Analysers/DeliveryDriverAnalyserTests.cs:133-148 | a zero-width 09:00–09:00 period is filtered out and gives zero |
| DeliveryEdgeScenarios.SinglePeriodAtLimit | InterviewTest.DriverData.UnitTests/Analysers/DeliveryDriverAnalyserTests.cs:151-184 | any single period at the limit spanning 09:00–17:00 on the canned day gives 8 h rated 1 |
| DeliveryEdgeScenarios.DeliveryAtLimitWholeWindow | InterviewTest.DriverData.UnitTests/Analysers/DeliveryDriverAnalyserTests.cs:151-166 | 09:00–17:00 at the limit: 8 h rated 1 |
| DeliveryEdgeScenarios.DeliveryAtLimitBeyondWindow | InterviewTest.DriverData.UnitTests/Analysers/DeliveryDriverAnalyserTests.cs:169-184 | 08:00–18:00 at the limit is clipped: 8 h rated 1 |
| FormulaOneScenarios.FormulaOneValidPeriods | InterviewTest.DriverData/CannedData.cs:37-81 | the trim drops the idle first and last periods and keeps the interior stop |
| FormulaOneScenarios.FormulaOneGaps | InterviewTest.DriverData/CannedData.cs:37-81 | the only internal gap is 09:35–09:50 |
| FormulaOneScenarios.FormulaOneOnHistory | InterviewTest.DriverData.UnitTests/Analysers/FormulaOneAnalyserTests.cs:44-59 | Formula One on the canned history: 10 h 3 min, rated 7613 / 61800 (about 0.1232) |
| FormulaOneScenarios.FormulaOneWithPenaltyOnHistory | InterviewTest.DriverData.UnitTests/Analysers/FormulaOneAnalyserTests.cs:171-186 | with penalty 0.5: 10 h 3 min, rated half of that |
| FormulaOneScenarios.FormulaOneAtLimitSinglePeriod | InterviewTest.DriverData.UnitTests/Analysers/FormulaOneAnalyserTests.cs:134-149 | 09:00–17:00 at 200: 8 h rated 1 |
| FormulaOneScenarios.FormulaOneOverLimitSinglePeriod | InterviewTest.DriverData/CannedData.cs:227-235 | 09:00–17:00 at 210 takes the substitute rating 1: 8 h rated 1 |
| FormulaOneScenarios.FormulaOneZeroSpeedIsZero | InterviewTest.DriverData.UnitTests/Analysers/FormulaOneAnalyserTests.cs:98-113 | four stationary periods give zero |
| FormulaOneScenarios.FormulaOneSameStartAndEndIsZero | InterviewTest.DriverData.UnitTests/Analysers/FormulaOneAnalyserTests.cs:116-131 | a moving period of no length at 09:00 is kept but weighs nothing and documents nothing: zero |
| FormulaOneScenarios.FormulaOneUndocumentedHourWithPenalty | InterviewTest.DriverData.UnitTests/Analysers/FormulaOneAnalyserTests.cs:189-204 | 09–11 and 12–17 at 200 with penalty 0.5: 7 h, rated 0.4375 |
| GetawayScenarios.GetawayValidPeriods | InterviewTest.DriverData/CannedData.cs:37-81 | the 13:00–14:00 window keeps the stop ending at 13:30 and the drive starting there |
| GetawayScenarios.DeliveryOnGetawayWindow | InterviewTest.DriverData.UnitTests/Analysers/GetawayDriverAnalyserTests.cs:33-45 | the delivery pipeline on the getaway window: 1 h, rated 29 / 160 (about 0.1813) |
| GetawayScenarios.GetawayOnHistory | InterviewTest.DriverData/Analysers/GetawayDriverAnalyser.cs:49-59 | the getaway profile gives the same 1 h and 29 / 160 on the canned history |
| GetawayScenarios.DeliveryAtLimitOnGetawayWindow | InterviewTest.DriverData.UnitTests/Analysers/GetawayDriverAnalyserTests.cs:109-122 | 09:00–17:00 at 80 under the getaway window: 1 h rated 1 |
| GetawayScenarios.GetawayAtLimit | InterviewTest.DriverData/Analysers/GetawayDriverAnalyser.cs:49-59 | the getaway profile agrees on that period: 1 h rated 1 |
| GetawayScenarios.DeliveryZeroSpeedOnGetawayWindow | InterviewTest.DriverData.UnitTests/Analysers/GetawayDriverAnalyserTests.cs:79-91 | the delivery pipeline on the getaway window gives zero for four stationary periods that all end before 13:00 |
| GetawayScenarios.GetawayZeroSpeedIsZero | InterviewTest.DriverData/Analysers/GetawayDriverAnalyser.cs:51-54 | the getaway profile gives zero for them too, since nothing moves |
| GetawayScenarios.DeliverySameStartAndEndOnGetawayWindow | InterviewTest.DriverData.UnitTests/Analysers/GetawayDriverAnalyserTests.cs:94-106 | the delivery pipeline on the getaway window gives zero for a period of no length at 09:00 |
| GetawayScenarios.GetawaySameStartAndEndIsZero | InterviewTest.DriverData/Analysers/GetawayDriverAnalyser.cs:49-59 | the getaway profile keeps that moving period through the trim, and the window then drops it: zero |
| FriendlyScenarios.FriendlyWholeDay | InterviewTest.DriverData.UnitTests/Analysers/FriendlyAnalyserTests.cs:11-48 | two periods covering 2001-01-01 give one day rated 1, and the duration is the sum of the two lengths |
| FriendlyScenarios.FriendlyThroughRegistry | InterviewTest.DriverData.UnitTests/Lookups/AnalyserLookupTests.cs:11-17 | "friendly" looks up the friendly analyser, which rates that history 1 |

## Left out

- File input and JSON parsing (`FileDataReader`, `JsonDataParser`, the data reader and parser lookups, `CannedDrivingData.GetHistoryFromFile`) are not modelled. They are I/O over libraries outside this model.
- Time zones: timestamps are UTC seconds. The offset of a `DateTimeOffset` is not modelled, since the analysers use only `TimeOfDay` and absolute differences.
- Decimal arithmetic is modelled with exact reals. The 28-digit precision and rounding of `decimal` are not modelled.
- The `(double)` round trip through `TotalSeconds` is not modelled: durations are whole seconds throughout.
- BaseDriverAnalyser.ComputeHistoryAnalysis: the `(int)` cast of the documented duration is the identity on whole seconds. Its 32-bit overflow, for a documented total above about 68 years, is not modelled.
- BaseDriverAnalyser.ComputeHistoryAnalysis: the `OrderBy` on entry start times is not modelled. Aggregating any permutation of the entries gives the same result (`ComputeIgnoresOrder`), so leaving the sort out changes nothing.
- BaseDriverAnalyser.ComputeHistoryAnalysis: the null-list branch is not modelled, since every caller passes a list.
- BaseDriverAnalyser.SpeedRating, BaseDriverAnalyser.ComputeHistoryAnalysis: division by zero raises an exception in the source. Here it is excluded by preconditions (`Rateable`, `Aggregatable`, and the profiles' `CanAnalyse`). The `AnalyseDefined` lemmas show which inputs never reach it.
- FriendlyAnalyser.Analyse: `First()` and `Last()` fault on an empty or null history. This is a precondition (`|history| > 0`), not a modelled exception.
- SpeedTrim.LastMoving: `IndexOf(LastOrDefault(...))` is modelled as the position of the last moving period. The reference-equality lookup, which could land on an earlier identical object, is not modelled.
- A period whose time of day wraps past midnight yields a negative clipped duration in the source, and this is modelled as written (`MidnightWrapInsideWindow`). The rating and duration bounds (`RatingInUnitInterval`) therefore require that no such period overlaps the window.
- Each lookup in the source builds a fresh analyser object. Analysers here are immutable values, so object identity is not modelled.
- The getaway unit tests construct the delivery analyser with the getaway window. Their expectations are proved against `DeliveryDriverAnalyser` (`GetawayScenarios.DeliveryOnGetawayWindow`), and the getaway profile's own result on the same data is proved separately.
- The "exceeding speed limit" tests of the Formula One and getaway fixtures feed the at-limit dataset. The model proves the at-limit result for them, and proves the Formula One over-limit dataset separately.
- The history-from-file tests depend on file I/O and are not modelled.
