/** The readout under the draggable guide line
    (src/components/GaussianProcess/visualization/GuideLineComponent.tsx):
    the grid point nearest to the line and the disagreement of the sample
    functions there. The drawing itself is not modelled. */
module GuideLine {
  import opened Numeric
  import opened Mat
  import opened Disagreement

  /** Whether the input at `index` lies strictly closer to g than the one at
      `closest`. */
  predicate Closer(xs: seq<real>, g: real, index: nat, closest: nat)
    requires index < |xs| && closest < |xs|
  {
    Abs(xs[index] - g) < Abs(xs[closest] - g)
  }

  /** The program's `reduce` from position i on, holding the index found so
      far: the answer is that index or a later position, always in range on a
      non-empty grid. */
  function NearestFold(xs: seq<real>, g: real, closest: nat, i: nat): (r: nat)
    requires i <= |xs| && (closest < |xs| || closest == 0)
    ensures |xs| == 0 ==> r == 0
    ensures |xs| > 0 ==> r < |xs|
    ensures r == closest || i <= r
    decreases |xs| - i
  {
    if i == |xs| then closest
    else if Closer(xs, g, i, closest) then NearestFold(xs, g, i, i + 1)
    else NearestFold(xs, g, closest, i + 1)
  }

  /** The index the reduce returns, starting from index 0: 0 for an empty
      grid, an index of the grid otherwise. */
  function NearestIndex(xs: seq<real>, g: real): (r: nat)
    ensures |xs| == 0 ==> r == 0
    ensures |xs| > 0 ==> r < |xs|
  {
    NearestFold(xs, g, 0, 0)
  }

  /** Among xs[..i], `closest` is at least as near g as any input, and every
      input before it is strictly farther. */
  ghost predicate FirstNearestSoFar(xs: seq<real>, g: real, closest: nat, i: nat)
    requires i <= |xs| && closest < |xs|
  {
    && closest <= i
    && (forall j :: 0 <= j < i ==> Abs(xs[closest] - g) <= Abs(xs[j] - g))
    && (forall j :: 0 <= j < closest ==> Abs(xs[closest] - g) < Abs(xs[j] - g))
  }

  lemma {:induction false} NearestFoldIsFirstNearest(xs: seq<real>, g: real, closest: nat, i: nat)
    requires i <= |xs| && closest < |xs|
    requires FirstNearestSoFar(xs, g, closest, i)
    ensures NearestFold(xs, g, closest, i) < |xs|
    ensures FirstNearestSoFar(xs, g, NearestFold(xs, g, closest, i), |xs|)
    decreases |xs| - i
  {
    if i < |xs| {
      if Closer(xs, g, i, closest) {
        NearestFoldIsFirstNearest(xs, g, i, i + 1);
      } else {
        NearestFoldIsFirstNearest(xs, g, closest, i + 1);
      }
    }
  }

  /** On a non-empty grid the chosen index is in range, no input is nearer to
      the line, and on a tie the lowest index wins because only a strictly
      nearer input replaces the current one. */
  lemma NearestIndexIsFirstNearest(xs: seq<real>, g: real)
    requires |xs| > 0
    ensures NearestIndex(xs, g) < |xs|
    ensures forall j :: 0 <= j < |xs| ==> Abs(xs[NearestIndex(xs, g)] - g) <= Abs(xs[j] - g)
    ensures forall j :: 0 <= j < NearestIndex(xs, g) ==> Abs(xs[NearestIndex(xs, g)] - g) < Abs(xs[j] - g)
  {
    NearestFoldIsFirstNearest(xs, g, 0, 0);
  }

  /** A line at 1.4 over the grid 0, 1, 2, 3 reads the input 1; a line halfway
      between 0 and 2 reads the first of the two. */
  lemma NearestIndexExamples()
    ensures NearestIndex([0.0, 1.0, 2.0, 3.0], 1.4) == 1
    ensures NearestIndex([0.0, 2.0], 1.0) == 0
  {
    var xs := [0.0, 1.0, 2.0, 3.0];
    assert Abs(xs[1] - 1.4) < Abs(xs[0] - 1.4);
    assert !Closer(xs, 1.4, 2, 1) && !Closer(xs, 1.4, 3, 1);
    assert NearestFold(xs, 1.4, 1, 2) == 1;
  }

  /** The two numbers shown next to the guide line. */
  datatype GuideReading = GuideReading(disagreement: real, stdDisagreement: real)

  /** There is something to read: samples with more than one column and a grid. */
  predicate CanRead(samples: Option<Matrix>, xs: Option<seq<real>>)
  {
    samples.Some? && samples.value.cols > 1 && xs.Some?
  }

  /** The readout at the guide line: both values are 0 unless there are
      samples with more than one column and a grid; otherwise they are the
      disagreement (and its square root) of the samples' values at the grid
      point nearest to the line. The samples are drawn on the grid, so the
      nearest index names one of their rows. */
  method ReadGuideLine(t: Transcendentals, guideLine: real, samples: Option<Matrix>, xs: Option<seq<real>>) returns (r: GuideReading)
    requires samples.Some? ==> samples.value.Valid()
    requires CanRead(samples, xs) ==> NearestIndex(xs.value, guideLine) < samples.value.rows
    ensures !CanRead(samples, xs) ==> r == GuideReading(0.0, 0.0)
    ensures CanRead(samples, xs) ==>
      var row := samples.value.entries[NearestIndex(xs.value, guideLine)];
      r == GuideReading(CalculateDisagreement(row), CalculateStdDisagreement(t, row))
  {
    r := GuideReading(0.0, 0.0);
    if CanRead(samples, xs) {
      var xIndex := NearestIndex(xs.value, guideLine);
      var predictions := PredictionsAt(samples.value, xIndex);
      assert predictions == samples.value.entries[xIndex];
      r := GuideReading(CalculateDisagreement(predictions), CalculateStdDisagreement(t, predictions));
    }
  }
}
