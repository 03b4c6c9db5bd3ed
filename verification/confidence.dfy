/** Confidence bands around the predictive mean
    (src/components/GaussianProcess/visualization/prepareConfidenceData.ts). */
module ConfidenceBands {
  import opened Numeric

  /** One point of the band chart: the input, the mean, and the one- and
      two-standard-deviation bands. */
  datatype ConfidenceData = ConfidenceData(
    x: real,
    mean: real,
    lower1: real,
    upper1: real,
    lower2: real,
    upper2: real)
  {
    /** The two bands nest around the mean. */
    predicate Ordered()
    {
      lower2 <= lower1 <= mean <= upper1 <= upper2
    }
  }

  /** The standard deviation at a point: the marginal variance plus the
      observation noise, square-rooted. */
  function Sigma(t: Transcendentals, variance: real, noiseScale: real): real
  {
    t.sqrt(variance + noiseScale * noiseScale)
  }

  /** `prepareConfidenceData`: one record per input. The program reads
      `means[i]` and `marginalVariances[i]` for every input index, so both
      lists must be at least as long as `xs`. */
  function PrepareConfidenceData(t: Transcendentals, xs: seq<real>, means: seq<real>, marginalVariances: seq<real>, noiseScale: real): (r: seq<ConfidenceData>)
    requires |xs| <= |means| && |xs| <= |marginalVariances|
    ensures |r| == |xs|
    ensures forall i :: 0 <= i < |xs| ==> r[i].x == xs[i] && r[i].mean == means[i]
    ensures forall i :: 0 <= i < |xs| ==>
      r[i].upper1 - r[i].mean == r[i].mean - r[i].lower1 == Sigma(t, marginalVariances[i], noiseScale)
    ensures forall i :: 0 <= i < |xs| ==>
      && r[i].upper2 - r[i].mean == 2.0 * (r[i].upper1 - r[i].mean)
      && r[i].mean - r[i].lower2 == 2.0 * (r[i].mean - r[i].lower1)
  {
    seq(|xs|, i requires 0 <= i < |xs| =>
      var sigma := Sigma(t, marginalVariances[i], noiseScale);
      ConfidenceData(xs[i], means[i], means[i] - sigma, means[i] + sigma, means[i] - 2.0 * sigma, means[i] + 2.0 * sigma))
  }

  /** With a true square root and non-negative marginal variances, each band
      half-width squares to variance + noiseScale^2 and the bands nest. */
  lemma BandsAreOrdered(t: Transcendentals, xs: seq<real>, means: seq<real>, marginalVariances: seq<real>, noiseScale: real)
    requires |xs| <= |means| && |xs| <= |marginalVariances|
    requires SqrtIsRoot(t)
    requires forall i :: 0 <= i < |marginalVariances| ==> 0.0 <= marginalVariances[i]
    ensures var r := PrepareConfidenceData(t, xs, means, marginalVariances, noiseScale);
      forall i :: 0 <= i < |xs| ==>
        && r[i].Ordered()
        && (r[i].upper1 - r[i].mean) * (r[i].upper1 - r[i].mean) == marginalVariances[i] + noiseScale * noiseScale
  {
    var r := PrepareConfidenceData(t, xs, means, marginalVariances, noiseScale);
    SquareIsNonNegative(noiseScale);
    forall i | 0 <= i < |xs|
      ensures r[i].Ordered()
      ensures (r[i].upper1 - r[i].mean) * (r[i].upper1 - r[i].mean) == marginalVariances[i] + noiseScale * noiseScale
    {
      var total := marginalVariances[i] + noiseScale * noiseScale;
      assert 0.0 <= total;
      var sigma := t.sqrt(total);
      assert 0.0 <= sigma && sigma * sigma == total;
      assert r[i].upper1 - r[i].mean == sigma;
    }
  }
}
