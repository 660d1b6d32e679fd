/**
 * The analyser registry: a case-sensitive name selects one of four profiles, each
 * carrying its preset configuration. Every lookup builds a fresh analyser; since
 * analysers here are values that is simply the preset.
 */
module AnalyserLookup {
  import opened Wrappers
  import opened Entities
  import Base = BaseDriverAnalyser
  import Delivery = DeliveryDriverAnalyser
  import FormulaOne = FormulaOneAnalyser
  import Getaway = GetawayDriverAnalyser
  import Friendly = FriendlyAnalyser

  /** A constructed analyser: its profile and, except for the friendly one, its configuration. */
  datatype Analyser =
    | DeliveryDriver(config: DriverConfiguration)
    | FriendlyDriver
    | FormulaOneDriver(config: DriverConfiguration)
    | GetawayDriver(config: DriverConfiguration)

  /** The exceptions the lookup raises: the parameter name and, when out of range, the value given. */
  datatype LookupError =
    | ArgumentNull(paramName: string)
    | ArgumentOutOfRange(paramName: string, actualValue: string)

  /** Delivery: 09:00 to 17:00, limit 30, rated 0 above it, penalty factor 0.5. */
  const DeliveryConfiguration: DriverConfiguration :=
    DriverConfiguration(Hms(9, 0, 0), Hms(17, 0, 0), 30.0, 0.0, true, 0.5)

  /** Formula One: an empty window at midnight, limit 200, rated 1 above it, penalty factor 0.5. */
  const FormulaOneConfiguration: DriverConfiguration :=
    DriverConfiguration(0, 0, 200.0, 1.0, true, 0.5)

  /** Getaway: 13:00 to 14:00, limit 80, rated 1 above it, penalty factor 0.5. */
  const GetawayConfiguration: DriverConfiguration :=
    DriverConfiguration(Hms(13, 0, 0), Hms(14, 0, 0), 80.0, 1.0, true, 0.5)

  /** The registry, keyed by exact name. */
  const AnalyserList: map<string, Analyser> := map[
    "delivery" := DeliveryDriver(DeliveryConfiguration),
    "friendly" := FriendlyDriver,
    "formulaone" := FormulaOneDriver(FormulaOneConfiguration),
    "getaway" := GetawayDriver(GetawayConfiguration)
  ]

  /**
   * AnalyserLookup.GetAnalyser: a null name raises ArgumentNull, a name not in the
   * registry raises ArgumentOutOfRange with that name, any other yields its preset.
   */
  function GetAnalyser(analyserType: Option<string>): (r: Result<Analyser, LookupError>)
    ensures analyserType.None? <==> r == Failure(ArgumentNull("type"))
    ensures analyserType.Some? ==>
      (r.Success? <==> analyserType.value in {"delivery", "friendly", "formulaone", "getaway"})
    ensures analyserType.Some? && r.Failure? ==> r.error == ArgumentOutOfRange("type", analyserType.value)
    ensures analyserType == Some("delivery") ==> r == Success(DeliveryDriver(DeliveryConfiguration))
    ensures analyserType == Some("friendly") ==> r == Success(FriendlyDriver)
    ensures analyserType == Some("formulaone") ==> r == Success(FormulaOneDriver(FormulaOneConfiguration))
    ensures analyserType == Some("getaway") ==> r == Success(GetawayDriver(GetawayConfiguration))
  {
    match analyserType
    case None => Failure(ArgumentNull("type"))
    case Some(name) =>
      if name !in AnalyserList then Failure(ArgumentOutOfRange("type", name))
      else Success(AnalyserList[name])
  }

  /** What analysing with `a` needs in order not to throw; the friendly profile needs at least one period. */
  predicate CanAnalyse(a: Analyser, history: Option<seq<Period>>) {
    match a
    case DeliveryDriver(c) => Delivery.CanAnalyse(c, history)
    case FriendlyDriver => history.Some? && |history.value| > 0
    case FormulaOneDriver(c) => FormulaOne.CanAnalyse(c, history)
    case GetawayDriver(c) => Getaway.CanAnalyse(c, history)
  }

  /**
   * IAnalyser.Analyse dispatched on the profile. The three configured profiles answer
   * a null history with the zero result; the friendly one always rates 1.
   */
  function Analyse(a: Analyser, history: Option<seq<Period>>): (r: HistoryAnalysis)
    requires CanAnalyse(a, history)
    ensures !a.FriendlyDriver? && (history.None? || history.value == []) ==> r == ZeroAnalysis
    ensures a.FriendlyDriver? ==> r.driverRating == 1.0
  {
    match a
    case DeliveryDriver(c) => Delivery.Analyse(c, history)
    case FriendlyDriver => Friendly.Analyse(history.value)
    case FormulaOneDriver(c) => FormulaOne.Analyse(c, history)
    case GetawayDriver(c) => Getaway.Analyse(c, history)
  }

  /** Names are matched exactly: an empty name and a capitalised one are both out of range. */
  lemma NamesAreCaseSensitive()
    ensures GetAnalyser(Some("")) == Failure(ArgumentOutOfRange("type", ""))
    ensures GetAnalyser(Some("Delivery")).Failure?
    ensures GetAnalyser(Some("invalidDriver")) == Failure(ArgumentOutOfRange("type", "invalidDriver"))
  {
    assert "" !in AnalyserList;
    assert "Delivery" != "delivery";
    assert "Delivery" !in AnalyserList;
    assert "invalidDriver"[0] == 'i' && "invalidDriver" != "delivery" && "invalidDriver" != "friendly";
  }

  /**
   * What a preset needs of a history to rate it within [0, 1]: non-negative speeds and,
   * for the windowed profiles, no period overlapping the window that wraps past
   * midnight; for Formula One, no period that ends before it starts.
   */
  predicate RateableHistory(a: Analyser, h: seq<Period>) {
    forall p | p in h ::
      p.averageSpeed >= 0.0 &&
      (a.FormulaOneDriver? ==> p.start <= p.end) &&
      ((a.DeliveryDriver? || a.GetawayDriver?) && Base.OverlapsWindow(a.config, p) ==>
         TimeOfDay(p.start) <= TimeOfDay(p.end))
  }

  /** Every analyser the registry hands out rates every history it can rate within [0, 1]. */
  lemma PresetRatingsInUnitInterval(name: string, h: seq<Period>)
    requires GetAnalyser(Some(name)).Success?
    requires |h| > 0
    requires RateableHistory(GetAnalyser(Some(name)).value, h)
    ensures CanAnalyse(GetAnalyser(Some(name)).value, Some(h))
    ensures 0.0 <= Analyse(GetAnalyser(Some(name)).value, Some(h)).driverRating <= 1.0
  {
    var a := GetAnalyser(Some(name)).value;
    match a
    case DeliveryDriver(c) => Delivery.RatingInUnitInterval(c, h);
    case FriendlyDriver =>
    case FormulaOneDriver(c) => FormulaOne.RatingInUnitInterval(c, h);
    case GetawayDriver(c) => Getaway.RatingInUnitInterval(c, h);
  }
}
