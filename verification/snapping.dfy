/** The discretised controls of the camera: the evenly spaced candidate
    sequences built with numpy's `linspace`, and the nearest-candidate search
    the gain and black-offset setters use. */
module Snapping {

  function Dist(a: real, b: real): real {
    if a < b then b - a else a - b
  }

  function Min(a: real, b: real): real { if a <= b then a else b }

  function Max(a: real, b: real): real { if a <= b then b else a }

  /** np.linspace(lo, hi, num=n): n values from lo to hi, both ends included,
      a constant step apart; a single value is lo itself. */
  function Linspace(lo: real, hi: real, n: nat): (r: seq<real>)
    ensures |r| == n
    ensures n >= 1 ==> r[0] == lo
    ensures n >= 2 ==> r[n - 1] == hi
    ensures forall i :: 0 <= i < n - 1 ==> r[i + 1] - r[i] == (hi - lo) / ((n - 1) as real)
  {
    if n == 1 then [lo]
    else
      var step := (hi - lo) / ((n - 1) as real);
      assert n >= 2 ==> (n - 1) as real * step == hi - lo;
      seq(n, i => lo + (i as real) * step)
  }

  /** Every candidate lies between the two ends, whichever end is larger. */
  lemma LinspaceWithin(lo: real, hi: real, n: nat, i: nat)
    requires i < n
    ensures Min(lo, hi) <= Linspace(lo, hi, n)[i] <= Max(lo, hi)
  {
    if n >= 2 {
      var step := (hi - lo) / ((n - 1) as real);
      var k := i as real;
      var m := (n - 1) as real;
      var x := k * step;
      assert Linspace(lo, hi, n)[i] == lo + x;
      assert m * step == hi - lo;
      assert 0.0 <= k <= m;
      if lo <= hi {
        assert 0.0 <= x <= m * step by {
          assert step >= 0.0;
          MulSigns(m - k, step);
          assert (m - k) * step == m * step - x;
        }
      } else {
        assert m * step <= x <= 0.0 by {
          assert step <= 0.0;
          MulSigns(m - k, step);
          assert (m - k) * step == m * step - x;
        }
      }
    }
  }

  lemma MulSigns(a: real, b: real)
    requires a >= 0.0
    ensures b >= 0.0 ==> a * b >= 0.0
    ensures b <= 0.0 ==> a * b <= 0.0
  {
  }

  /** Index i holds the candidate nearest to v, and it is the first such
      index: every earlier candidate is strictly farther. This is what
      numpy's argmin over |candidates - v| returns. */
  ghost predicate NearestAt(candidates: seq<real>, v: real, i: int) {
    0 <= i < |candidates| &&
    (forall j :: 0 <= j < |candidates| ==> Dist(candidates[i], v) <= Dist(candidates[j], v)) &&
    (forall j :: 0 <= j < |candidates| && Dist(candidates[j], v) == Dist(candidates[i], v) ==> i <= j)
  }

  /** The snapping rule picks exactly one candidate. */
  lemma NearestAtUnique(candidates: seq<real>, v: real, i: int, k: int)
    requires NearestAt(candidates, v, i) && NearestAt(candidates, v, k)
    ensures i == k
  {
    assert Dist(candidates[i], v) <= Dist(candidates[k], v);
    assert Dist(candidates[k], v) <= Dist(candidates[i], v);
  }

  /** A value that already is a candidate snaps to itself. */
  lemma NearestOfCandidate(candidates: seq<real>, v: real, i: int)
    requires NearestAt(candidates, v, i) && v in candidates
    ensures candidates[i] == v
  {
    var k :| 0 <= k < |candidates| && candidates[k] == v;
    assert Dist(candidates[i], v) <= Dist(candidates[k], v) == 0.0;
  }

  /** routines.nearest_value(value, candidates): a scan for the first
      candidate at the least distance from value. An empty candidate array
      makes argmin raise, so there must be at least one candidate. */
  method NearestValue(value: real, candidates: seq<real>) returns (idx: nat, r: real)
    requires |candidates| > 0
    ensures NearestAt(candidates, value, idx)
    ensures r == candidates[idx]
  {
    idx := 0;
    var i := 1;
    while i < |candidates|
      invariant 1 <= i <= |candidates|
      invariant idx < i
      invariant forall j :: 0 <= j < i ==> Dist(candidates[idx], value) <= Dist(candidates[j], value)
      invariant forall j :: 0 <= j < i && Dist(candidates[j], value) == Dist(candidates[idx], value) ==> idx <= j
    {
      if Dist(candidates[i], value) < Dist(candidates[idx], value) {
        idx := i;
      }
      i := i + 1;
    }
    r := candidates[idx];
  }
}
