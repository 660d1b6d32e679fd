/** The friendly profile on a contiguous day, reached through the registry. */
module FriendlyScenarios {
  import opened Wrappers
  import opened Entities
  import Friendly = FriendlyAnalyser
  import Lookup = AnalyserLookup

  /** 2001-01-01 00:00 to 12:00 at 20, then 12:00 to midnight at 15 (978307200 is 2001-01-01T00:00:00Z). */
  const Morning: Period := Period(978307200, 978307200 + 12 * 3600, 20.0)
  const Afternoon: Period := Period(978307200 + 12 * 3600, 978307200 + 24 * 3600, 15.0)

  /** The whole day is analysed and rated 1; it equals the sum of the two halves. */
  lemma FriendlyWholeDay()
    ensures Friendly.Analyse([Morning, Afternoon]) == HistoryAnalysis(24 * 3600, 1.0)
    ensures Friendly.SpanSum([Morning, Afternoon]) == 24 * 3600
  {
    assert Friendly.Contiguous([Morning, Afternoon]);
    Friendly.ContiguousDurationIsSum([Morning, Afternoon]);
  }

  /** The registry's "friendly" entry gives the same result. */
  lemma FriendlyThroughRegistry()
    ensures Lookup.GetAnalyser(Some("friendly")) == Success(Lookup.FriendlyDriver)
    ensures Lookup.CanAnalyse(Lookup.FriendlyDriver, Some([Morning, Afternoon]))
    ensures Lookup.Analyse(Lookup.FriendlyDriver, Some([Morning, Afternoon])) == HistoryAnalysis(24 * 3600, 1.0)
  {
    FriendlyWholeDay();
  }
}
