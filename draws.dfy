/** The random draws the engine consumes, modelled as values supplied by the
    caller. A uniform draw on [lo, hi) is given as a unit u in [0, 1); a
    normal draw as a standard normal z; a draw from the discrete
    distribution over selection weights as a unit u read through the
    cumulative weights (inverse CDF). */
module Draws {
  import opened Fitness

  predicate IsUnit(u: real) { 0.0 <= u < 1.0 }

  /** A uniform real draw on [lo, hi) from the unit u. */
  function Uniform(lo: real, hi: real, u: real): (r: real)
    requires lo <= hi && IsUnit(u)
    ensures lo <= r <= hi
    ensures lo < hi ==> r < hi
  {
    var width := hi - lo;
    UnitScale(u, width);
    var offset := u * width;
    assert 0.0 <= offset <= width && (width > 0.0 ==> offset < width);
    lo + offset
  }

  /** A normal draw with the given mean and standard deviation from the
      standard normal z. */
  function Normal(mean: real, deviation: real, z: real): (r: real)
    ensures r - mean == deviation * z
    ensures deviation > 0.0 ==> (r >= mean <==> z >= 0.0)
  {
    mean + deviation * z
  }

  function Abs(v: real): (r: real)
    ensures r >= 0.0 && (r == v || r == -v)
  {
    if v < 0.0 then -v else v
  }

  /** Total weight of the first n entries of w. */
  function Cumulative(w: seq<real>, n: nat): real
    requires n <= |w|
  {
    Sum(w[..n])
  }

  lemma CumulativeStep(w: seq<real>, n: nat)
    requires n < |w|
    ensures Cumulative(w, n + 1) == Cumulative(w, n) + w[n]
  {
    assert w[..n + 1][..n] == w[..n];
  }

  /** Index drawn from the discrete distribution over w: the first index at
      or after i whose cumulative weight exceeds u, or the last index. */
  function SampleFrom(w: seq<real>, u: real, i: nat): (k: nat)
    requires i < |w|
    ensures i <= k < |w|
    ensures k == |w| - 1 || u < Cumulative(w, k + 1)
    ensures forall n :: i < n <= k ==> Cumulative(w, n) <= u
    decreases |w| - i
  {
    if i == |w| - 1 || u < Cumulative(w, i + 1) then i else SampleFrom(w, u, i + 1)
  }

  function Sample(w: seq<real>, u: real): (k: nat)
    requires |w| > 0
    ensures k < |w|
  {
    SampleFrom(w, u, 0)
  }

  /** Inverse-CDF reading of the draw: for a unit below the total weight,
      the chosen index k is the one whose cumulative interval
      [Cumulative(w, k), Cumulative(w, k + 1)) holds u, so it has positive
      weight. */
  lemma SampleIsInverseCdf(w: seq<real>, u: real)
    requires |w| > 0 && 0.0 <= u < Sum(w)
    ensures Cumulative(w, Sample(w, u)) <= u < Cumulative(w, Sample(w, u) + 1)
    ensures w[Sample(w, u)] > 0.0
  {
    var k := Sample(w, u);
    assert w[..|w|] == w;
    assert Cumulative(w, 0) == 0.0;
    CumulativeStep(w, k);
  }

  lemma UnitScale(u: real, x: real)
    requires IsUnit(u) && x >= 0.0
    ensures 0.0 <= u * x <= x
    ensures x > 0.0 ==> u * x < x
  {
  }
}
