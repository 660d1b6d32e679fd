/**
 * The friendly profile: no configuration, no filtering and no scoring. The result
 * spans the history from its first start to its last end, rated 1.
 */
module FriendlyAnalyser {
  import opened Entities

  /**
   * FriendlyAnalyser.Analyse. Taking the first or last element of an empty history
   * fails, hence the precondition.
   */
  function Analyse(history: seq<Period>): (r: HistoryAnalysis)
    requires |history| > 0
    ensures r.driverRating == 1.0
  {
    HistoryAnalysis(history[|history| - 1].end - history[0].start, 1.0)
  }

  /** Each period begins where the previous one ends. */
  predicate Contiguous(h: seq<Period>) {
    forall i | 1 <= i < |h| :: h[i].start == h[i - 1].end
  }

  /** The summed lengths of the periods, as an independent reference. */
  function SpanSum(h: seq<Period>): int {
    if h == [] then 0 else (h[0].end - h[0].start) + SpanSum(h[1..])
  }

  /** On a contiguous history the analysed duration is the sum of the period lengths. */
  lemma {:induction false} ContiguousDurationIsSum(h: seq<Period>)
    requires |h| > 0 && Contiguous(h)
    ensures Analyse(h).analysedDuration == SpanSum(h)
    decreases |h|
  {
    if |h| > 1 {
      var t := h[1..];
      assert Contiguous(t) by {
        forall i | 1 <= i < |t| ensures t[i].start == t[i - 1].end {
          assert t[i] == h[i + 1] && t[i - 1] == h[i];
        }
      }
      ContiguousDurationIsSum(t);
      assert t[|t| - 1] == h[|h| - 1];
    }
  }

  /** Only the first start and the last end matter: the speeds and the interior periods are ignored. */
  lemma OnlyOuterEndpointsMatter(a: seq<Period>, b: seq<Period>)
    requires |a| > 0 && |b| > 0
    requires a[0].start == b[0].start && a[|a| - 1].end == b[|b| - 1].end
    ensures Analyse(a) == Analyse(b)
  {
  }

  /** Two histories joined end to start analyse to the sum of their durations. */
  lemma JoinAddsDurations(a: seq<Period>, b: seq<Period>)
    requires |a| > 0 && |b| > 0 && a[|a| - 1].end == b[0].start
    ensures Analyse(a + b).analysedDuration == Analyse(a).analysedDuration + Analyse(b).analysedDuration
  {
    var ab := a + b;
    assert ab[0] == a[0] && ab[|ab| - 1] == b[|b| - 1];
  }
}
