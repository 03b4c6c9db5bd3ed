/** How much the sampled functions disagree at a point
    (src/lib/math/disagreement.ts): the population variance of their values,
    per point and over a whole samples matrix. */
module Disagreement {
  import opened Numeric
  import opened Mat

  /** The average of a non-empty list of predictions. */
  function Average(p: seq<real>): real
    requires |p| > 0
  {
    Sum(p) / |p| as real
  }

  /** The sum of (p[i] - m)^2, added left to right like the program's reduce. */
  function SquaredDeviations(p: seq<real>, m: real): (r: real)
    ensures 0.0 <= r
  {
    if |p| == 0 then 0.0
    else
      var d := p[|p| - 1] - m;
      SquareIsNonNegative(d);
      SquaredDeviations(p[..|p| - 1], m) + d * d
  }

  /** `calculateDisagreement`: the mean squared deviation from the mean, and 0
      for an empty list. */
  function CalculateDisagreement(p: seq<real>): (r: real)
    ensures 0.0 <= r
    ensures |p| == 0 ==> r == 0.0
  {
    if |p| == 0 then 0.0
    else SquaredDeviations(p, Average(p)) / |p| as real
  }

  /** `calculateStdDisagreement`: the square root of the disagreement, so on
      the scale of the predictions themselves. */
  function CalculateStdDisagreement(t: Transcendentals, p: seq<real>): (r: real)
    ensures SqrtIsRoot(t) ==> 0.0 <= r && r * r == CalculateDisagreement(p)
  {
    t.sqrt(CalculateDisagreement(p))
  }

  /** Every prediction is the same value. */
  predicate AllEqual(p: seq<real>)
  {
    forall i, j :: 0 <= i < |p| && 0 <= j < |p| ==> p[i] == p[j]
  }

  lemma {:induction false} SumOfConstant(p: seq<real>, c: real)
    requires forall i :: 0 <= i < |p| ==> p[i] == c
    ensures Sum(p) == |p| as real * c
  {
    if |p| > 0 {
      var init := p[..|p| - 1];
      assert forall i :: 0 <= i < |init| ==> init[i] == c;
      SumOfConstant(init, c);
      assert |init| as real == |p| as real - 1.0;
    }
  }

  /** Deviations from a value every prediction equals are all zero. */
  lemma {:induction false} SquaredDeviationsFromCommonValue(p: seq<real>, m: real)
    requires forall i :: 0 <= i < |p| ==> p[i] == m
    ensures SquaredDeviations(p, m) == 0.0
  {
    if |p| > 0 {
      var init := p[..|p| - 1];
      assert forall i :: 0 <= i < |init| ==> init[i] == m;
      SquaredDeviationsFromCommonValue(init, m);
      assert p[|p| - 1] - m == 0.0;
    }
  }

  lemma AverageOfConstant(p: seq<real>, c: real)
    requires |p| > 0
    requires forall i :: 0 <= i < |p| ==> p[i] == c
    ensures Average(p) == c
  {
    SumOfConstant(p, c);
    var k := |p| as real;
    assert (k * c) / k == c;
  }

  /** Models that all predict the same value do not disagree. */
  lemma AgreeingPredictionsHaveNoDisagreement(p: seq<real>)
    requires AllEqual(p)
    ensures CalculateDisagreement(p) == 0.0
  {
    if |p| > 0 {
      assert forall i :: 0 <= i < |p| ==> p[i] == p[0];
      AverageOfConstant(p, p[0]);
      SquaredDeviationsFromCommonValue(p, p[0]);
    }
  }

  /** Every prediction moved by c. */
  function Shift(p: seq<real>, c: real): (r: seq<real>)
    ensures |r| == |p|
    ensures forall i :: 0 <= i < |p| ==> r[i] - p[i] == c
  {
    seq(|p|, i requires 0 <= i < |p| => p[i] + c)
  }

  lemma {:induction false} SumOfShift(p: seq<real>, c: real)
    ensures Sum(Shift(p, c)) == Sum(p) + |p| as real * c
  {
    if |p| > 0 {
      var init := p[..|p| - 1];
      assert Shift(p, c)[..|p| - 1] == Shift(init, c);
      SumOfShift(init, c);
      assert |init| as real == |p| as real - 1.0;
    }
  }

  lemma AverageOfShift(p: seq<real>, c: real)
    requires |p| > 0
    ensures Average(Shift(p, c)) == Average(p) + c
  {
    SumOfShift(p, c);
    var k := |p| as real;
    assert (Sum(p) + k * c) / k == Sum(p) / k + c;
  }

  lemma {:induction false} SquaredDeviationsOfShift(p: seq<real>, m: real, c: real)
    ensures SquaredDeviations(Shift(p, c), m + c) == SquaredDeviations(p, m)
  {
    if |p| > 0 {
      var init := p[..|p| - 1];
      assert Shift(p, c)[..|p| - 1] == Shift(init, c);
      SquaredDeviationsOfShift(init, m, c);
      assert Shift(p, c)[|p| - 1] - (m + c) == p[|p| - 1] - m;
    }
  }

  /** Moving every prediction by the same amount leaves the disagreement as
      it was: it measures spread, not position. */
  lemma DisagreementIsShiftInvariant(p: seq<real>, c: real)
    ensures CalculateDisagreement(Shift(p, c)) == CalculateDisagreement(p)
  {
    if |p| > 0 {
      AverageOfShift(p, c);
      SquaredDeviationsOfShift(p, Average(p), c);
    }
  }

  /** Two models predicting 0 and 10 disagree by 25 (standard deviation 5). */
  lemma DisagreementOfZeroAndTen()
    ensures CalculateDisagreement([0.0, 10.0]) == 25.0
  {
    var p := [0.0, 10.0];
    assert p[..1] == [0.0] && p[..1][..0] == [];
    assert Sum(p) == 10.0;
    assert Average(p) == 5.0;
    assert SquaredDeviations(p, 5.0) == 50.0;
  }

  /** The predictions of all sample functions at point i: row i of the matrix,
      collected one column at a time. */
  method PredictionsAt(samples: Matrix, i: nat) returns (predictions: seq<real>)
    requires samples.Valid() && i < samples.rows
    ensures |predictions| == samples.cols
    ensures forall j :: 0 <= j < samples.cols ==> predictions[j] == samples.entries[i][j]
  {
    predictions := [];
    for j := 0 to samples.cols
      invariant |predictions| == j
      invariant forall c :: 0 <= c < j ==> predictions[c] == samples.entries[i][c]
    {
      predictions := predictions + [samples.entries[i][j]];
    }
  }

  /** The matrix has at least one point and at least one sample function. */
  predicate HasSamples(samples: Matrix)
  {
    samples.rows > 0 && samples.cols > 0
  }

  /** `calculateDisagreementFromSamples`: the disagreement at every point (row);
      nothing when there are no points or no sample functions. */
  method DisagreementFromSamples(samples: Matrix) returns (r: seq<real>)
    requires samples.Valid()
    ensures !HasSamples(samples) ==> r == []
    ensures HasSamples(samples) ==> |r| == samples.rows
    ensures HasSamples(samples) ==> forall i :: 0 <= i < samples.rows ==> r[i] == CalculateDisagreement(samples.entries[i])
  {
    if !HasSamples(samples) {
      return [];
    }
    r := [];
    for i := 0 to samples.rows
      invariant |r| == i
      invariant forall k :: 0 <= k < i ==> r[k] == CalculateDisagreement(samples.entries[k])
    {
      var predictions := PredictionsAt(samples, i);
      assert predictions == samples.entries[i];
      r := r + [CalculateDisagreement(predictions)];
    }
  }

  /** `calculateStdDisagreementFromSamples`: the same, in standard-deviation form. */
  method StdDisagreementFromSamples(t: Transcendentals, samples: Matrix) returns (r: seq<real>)
    requires samples.Valid()
    ensures !HasSamples(samples) ==> r == []
    ensures HasSamples(samples) ==> |r| == samples.rows
    ensures HasSamples(samples) ==> forall i :: 0 <= i < samples.rows ==> r[i] == CalculateStdDisagreement(t, samples.entries[i])
  {
    if !HasSamples(samples) {
      return [];
    }
    r := [];
    for i := 0 to samples.rows
      invariant |r| == i
      invariant forall k :: 0 <= k < i ==> r[k] == CalculateStdDisagreement(t, samples.entries[k])
    {
      var predictions := PredictionsAt(samples, i);
      assert predictions == samples.entries[i];
      r := r + [CalculateStdDisagreement(t, predictions)];
    }
  }

  /** The result of `findMaxDisagreementPoint`. A field is `None` where the
      program reads past the end of an array and returns `undefined`. */
  datatype Peak = Peak(x: Option<real>, disagreement: Option<real>)

  /** The value at index k of xs, or `None` past its end. */
  function ValueAt(xs: seq<real>, k: nat): Option<real>
  {
    if k < |xs| then Some(xs[k]) else None
  }

  /** `findMaxDisagreementPoint`: the point of largest disagreement, the first
      one on ties since only a strictly larger value replaces the current one.
      With no inputs or no points it is (0, 0); with points but no sample
      functions the disagreement list is empty, so the x is the first input
      and the disagreement is undefined. */
  method FindMaxDisagreementPoint(xs: seq<real>, samples: Matrix) returns (peak: Peak)
    requires samples.Valid()
    ensures |xs| == 0 || samples.rows == 0 ==> peak == Peak(Some(0.0), Some(0.0))
    ensures |xs| > 0 && samples.rows > 0 && samples.cols == 0 ==> peak == Peak(Some(xs[0]), None)
    ensures |xs| > 0 && HasSamples(samples) ==>
      exists k :: 0 <= k < samples.rows
        && peak == Peak(ValueAt(xs, k), Some(CalculateDisagreement(samples.entries[k])))
        && (forall i :: 0 <= i < samples.rows ==> CalculateDisagreement(samples.entries[i]) <= CalculateDisagreement(samples.entries[k]))
        && (forall i :: 0 <= i < k ==> CalculateDisagreement(samples.entries[i]) < CalculateDisagreement(samples.entries[k]))
  {
    if |xs| == 0 || samples.rows == 0 {
      return Peak(Some(0.0), Some(0.0));
    }
    var disagreements := DisagreementFromSamples(samples);
    if |disagreements| == 0 {
      return Peak(Some(xs[0]), None);
    }
    var maxIndex := 0;
    var maxValue := disagreements[0];
    for i := 1 to |disagreements|
      invariant 0 <= maxIndex < i
      invariant maxValue == disagreements[maxIndex]
      invariant forall k :: 0 <= k < i ==> disagreements[k] <= maxValue
      invariant forall k :: 0 <= k < maxIndex ==> disagreements[k] < maxValue
    {
      if disagreements[i] > maxValue {
        maxValue := disagreements[i];
        maxIndex := i;
      }
    }
    peak := Peak(ValueAt(xs, maxIndex), Some(maxValue));
  }
}
