/**
 * `Val2Bins.forward` (modules.py lines 275-286): each distance becomes the
 * number of break points it lies strictly above, its histogram bin.
 *
 * The breaks are taken as given; in the source they are `num_bins - 1`
 * evenly spaced points built by `linspace`, which is not part of this model.
 * The distance tensor is taken flattened: the operation works on each
 * element on its own.
 */
module Bins {

  /** `sum(dist > breaks)` for one distance. */
  function CountBelow(breaks: seq<real>, d: real): (k: nat)
    ensures k <= |breaks|
  {
    if |breaks| == 0 then 0
    else CountBelow(breaks[..|breaks| - 1], d) + (if d > breaks[|breaks| - 1] then 1 else 0)
  }

  /** With `num_bins - 1` breaks, each bin lies in `[0, num_bins - 1]`. */
  function Bin(breaks: seq<real>, dist: seq<real>): (bins: seq<nat>)
    ensures |bins| == |dist|
    ensures forall i :: 0 <= i < |dist| ==> bins[i] <= |breaks|
  {
    seq(|dist|, i requires 0 <= i < |dist| => CountBelow(breaks, dist[i]))
  }

  /** The indices of the breaks a distance lies strictly above. */
  function Below(breaks: seq<real>, d: real): set<nat>
  {
    set i: nat | i < |breaks| && d > breaks[i]
  }

  /** Adding a break adds its index to the set exactly when the distance lies above it. */
  lemma BelowStep(breaks: seq<real>, d: real)
    requires |breaks| > 0
    ensures var front, last := breaks[..|breaks| - 1], |breaks| - 1;
      && last !in Below(front, d)
      && Below(breaks, d) == Below(front, d) + (if d > breaks[last] then {last} else {})
  {
    var front, last := breaks[..|breaks| - 1], |breaks| - 1;
    forall i: nat | i < last
      ensures i in Below(breaks, d) <==> i in Below(front, d)
    {
      assert front[i] == breaks[i];
    }
  }

  /** The count is the size of the set of breaks below the distance. */
  lemma {:induction false} CountBelowIsSize(breaks: seq<real>, d: real)
    ensures CountBelow(breaks, d) == |Below(breaks, d)|
  {
    if |breaks| > 0 {
      CountBelowIsSize(breaks[..|breaks| - 1], d);
      BelowStep(breaks, d);
    }
  }

  /** A larger distance never falls in a lower bin. */
  lemma {:induction false} CountBelowMonotone(breaks: seq<real>, d: real, e: real)
    requires d <= e
    ensures CountBelow(breaks, d) <= CountBelow(breaks, e)
  {
    if |breaks| > 0 {
      CountBelowMonotone(breaks[..|breaks| - 1], d, e);
    }
  }

  predicate Ascending(breaks: seq<real>)
  {
    forall i, j :: 0 <= i < j < |breaks| ==> breaks[i] <= breaks[j]
  }

  /**
   * For ascending breaks, the bin is the index of the first break at or
   * above the distance (or the number of breaks when there is none): every
   * break before it is below the distance and every one from it on is not.
   */
  lemma {:induction false} BinIsFirstBreakNotBelow(breaks: seq<real>, d: real)
    requires Ascending(breaks)
    ensures var k := CountBelow(breaks, d);
      && (forall i :: 0 <= i < k ==> breaks[i] < d)
      && (forall i :: k <= i < |breaks| ==> d <= breaks[i])
  {
    if |breaks| > 0 {
      var front := breaks[..|breaks| - 1];
      var last := breaks[|breaks| - 1];
      BinIsFirstBreakNotBelow(front, d);
      var k := CountBelow(front, d);
      if d > last {
        assert forall i :: 0 <= i < |front| ==> breaks[i] <= last;
      }
    }
  }
}
