/** The nearest-eigenvalue lookup of the variational-form sweep: for an
    optimised mean energy, find the closest entry of the exact spectrum. The
    scan starts from a sentinel deviation of 1000 and index 0, and replaces
    them only on a strictly smaller distance, so the lowest index wins ties. */
module Eigen {

  /** Starting value of the best deviation seen so far. */
  const Sentinel: real := 1000.0

  function Abs(x: real): (r: real)
    ensures r >= 0.0 && (r == x || r == -x)
  {
    if x < 0.0 then -x else x
  }

  function Distance(e: real, mean: real): real
  {
    Abs(e - mean)
  }

  /** (index, deviation) is what the scan must report for this spectrum:
      either no distance is below the sentinel and the initial (0, 1000)
      stays, or deviation is the smallest distance, attained at index, and
      every earlier entry is strictly farther. */
  ghost predicate IsNearest(spectrum: seq<real>, mean: real, index: nat, deviation: real)
  {
    && index <= |spectrum|
    && (forall k | 0 <= k < |spectrum| :: deviation <= Distance(spectrum[k], mean))
    && (forall k | 0 <= k < index :: deviation < Distance(spectrum[k], mean))
    && ((index == 0 && deviation == Sentinel)
        || (index < |spectrum| && deviation < Sentinel && deviation == Distance(spectrum[index], mean)))
  }

  /** The scan in simulate_variational_forms: temp_rec and index are updated
      whenever |E_k - mean| is strictly below temp_rec. */
  method NearestEigenstate(spectrum: seq<real>, mean: real) returns (index: nat, deviation: real)
    ensures IsNearest(spectrum, mean, index, deviation)
  {
    deviation := Sentinel;
    index := 0;
    for k := 0 to |spectrum|
      invariant IsNearest(spectrum[..k], mean, index, deviation)
    {
      if Distance(spectrum[k], mean) < deviation {
        deviation := Distance(spectrum[k], mean);
        index := k;
      }
    }
    assert spectrum[..|spectrum|] == spectrum;
  }

  /** IsNearest pins the result down: there is at most one answer. */
  lemma NearestUnique(spectrum: seq<real>, mean: real, i1: nat, d1: real, i2: nat, d2: real)
    requires IsNearest(spectrum, mean, i1, d1) && IsNearest(spectrum, mean, i2, d2)
    ensures i1 == i2 && d1 == d2
  {
    if d1 < Sentinel && d2 < Sentinel {
      assert d1 <= Distance(spectrum[i2], mean) && d2 <= Distance(spectrum[i1], mean);
    }
  }

  /** The deviation stays below the sentinel exactly when some eigenvalue
      lies closer than 1000 to the mean; otherwise the answer is (0, 1000). */
  lemma NearestSentinel(spectrum: seq<real>, mean: real, index: nat, deviation: real)
    requires IsNearest(spectrum, mean, index, deviation)
    ensures 0.0 <= deviation <= Sentinel
    ensures deviation < Sentinel <==> exists k | 0 <= k < |spectrum| :: Distance(spectrum[k], mean) < Sentinel
    ensures deviation == Sentinel ==> index == 0
  {
    if exists k | 0 <= k < |spectrum| :: Distance(spectrum[k], mean) < Sentinel {
      var k :| 0 <= k < |spectrum| && Distance(spectrum[k], mean) < Sentinel;
      assert deviation <= Distance(spectrum[k], mean);
    }
  }

  /** With spectrum [-1.0, -0.5, 0.2] and mean -0.6 the nearest eigenvalue is
      the one at index 1, at distance 0.1. */
  lemma NearestExample(index: nat, deviation: real)
    requires IsNearest([-1.0, -0.5, 0.2], -0.6, index, deviation)
    ensures index == 1 && deviation == 0.1
  {
    var s := [-1.0, -0.5, 0.2];
    assert Distance(s[0], -0.6) == 0.4;
    assert Distance(s[1], -0.6) == 0.1;
    assert Distance(s[2], -0.6) == 0.8;
    assert deviation <= 0.1;
  }
}
