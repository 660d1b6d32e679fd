/**
 * The zero-speed edge trim shared by the motorsport and getaway profiles: skip the
 * periods before the first one with a positive speed, then cut after the last one
 * with a positive speed. Stationary periods between moving ones are kept.
 */
module SpeedTrim {
  import opened Entities

  predicate Moving(p: Period) {
    p.averageSpeed > 0.0
  }

  /** The position of the first moving period, or |h| when none moves. */
  function FirstMoving(h: seq<Period>): (k: nat)
    ensures k <= |h|
    ensures forall i | 0 <= i < k :: !Moving(h[i])
    ensures k < |h| ==> Moving(h[k])
  {
    if h == [] || Moving(h[0]) then 0 else 1 + FirstMoving(h[1..])
  }

  /** The position of the last moving period, or -1 when none moves. */
  function LastMoving(h: seq<Period>): (k: int)
    ensures -1 <= k < |h|
    ensures forall i | k < i < |h| :: !Moving(h[i])
    ensures k >= 0 ==> Moving(h[k])
  {
    if h == [] then -1
    else if Moving(h[|h| - 1]) then |h| - 1
    else LastMoving(h[..|h| - 1])
  }

  /** `SkipWhile(period => period.AverageSpeed <= 0)`. */
  function SkipStationary(h: seq<Period>): (r: seq<Period>)
    ensures r == h[FirstMoving(h)..]
  {
    if h == [] || Moving(h[0]) then h else SkipStationary(h[1..])
  }

  /** The last moving position of a suffix is the last moving position of the whole, shifted. */
  lemma LastMovingOfSuffix(h: seq<Period>, k: nat)
    requires k <= |h| && LastMoving(h) >= k
    ensures LastMoving(h[k..]) == LastMoving(h) - k
  {
    var s, n, m := h[k..], LastMoving(h) - k, LastMoving(h[k..]);
    assert s[n] == h[n + k] && Moving(s[n]);
    assert n <= m;
    assert s[m] == h[m + k] && Moving(h[m + k]);
  }

  /**
   * The moving periods' span: empty when no period moves, otherwise the contiguous
   * slice from the first to the last moving period, in input order. The last moving
   * period is located as the position of the element `LastOrDefault` finds.
   */
  function TrimEdges(h: seq<Period>): (r: seq<Period>)
    ensures FirstMoving(h) == |h| ==> r == []
    ensures FirstMoving(h) < |h| ==> FirstMoving(h) <= LastMoving(h) && r == h[FirstMoving(h)..LastMoving(h) + 1]
    ensures r != [] ==> Moving(r[0]) && Moving(r[|r| - 1])
  {
    var filtered := SkipStationary(h);
    if filtered == [] then filtered
    else
      var first := FirstMoving(h);
      assert Moving(h[first]);
      LastMovingOfSuffix(h, first);
      var r := filtered[..LastMoving(filtered) + 1];
      assert r == h[first..LastMoving(h) + 1];
      assert r[0] == h[first] && r[|r| - 1] == h[LastMoving(h)];
      r
  }

  /** The trimmed list holds no period more often than the history does. */
  lemma TrimEdgesSubMultiset(h: seq<Period>)
    ensures multiset(TrimEdges(h)) <= multiset(h)
  {
    if FirstMoving(h) < |h| {
      var lo, hi := FirstMoving(h), LastMoving(h) + 1;
      assert h == h[..lo] + h[lo..hi] + h[hi..];
    }
  }
}
