/** Covariance construction and multivariate-normal sampling
    (src/lib/math/matrix.ts). */
module Covariance {
  import opened Numeric
  import opened Mat
  import opened Kernels

  /** The value the program stores at (r, c): the kernel is only ever evaluated
      with the lower index first, then mirrored. */
  function MirroredEntry(kernel: KernelFunction, xs: seq<real>, r: nat, c: nat): real
    requires r < |xs| && c < |xs|
  {
    if r <= c then kernel(xs[r], xs[c]) else kernel(xs[c], xs[r])
  }

  /** The |xs| x |xs| covariance matrix `covMatrix(kernel, xs)`. It is symmetric
      whatever the kernel, because only the upper triangle is evaluated. */
  function CovMatrix(kernel: KernelFunction, xs: seq<real>): (m: Matrix)
    ensures m.Valid() && m.rows == |xs| && m.cols == |xs|
    ensures IsSymmetric(m)
    ensures forall i :: 0 <= i < |xs| ==> m.entries[i][i] == kernel(xs[i], xs[i])
    ensures forall i, j :: 0 <= i <= j < |xs| ==> m.entries[i][j] == kernel(xs[i], xs[j])
  {
    Matrix(|xs|, |xs|, seq(|xs|, r requires 0 <= r < |xs| =>
      seq(|xs|, c requires 0 <= c < |xs| => MirroredEntry(kernel, xs, r, c))))
  }

  /** For a symmetric kernel every entry is the kernel at its own row and column. */
  lemma CovMatrixOfSymmetricKernel(kernel: KernelFunction, xs: seq<real>)
    requires Symmetric(kernel)
    ensures forall i, j :: 0 <= i < |xs| && 0 <= j < |xs| ==> CovMatrix(kernel, xs).entries[i][j] == kernel(xs[i], xs[j])
  {
    var m := CovMatrix(kernel, xs);
    forall i, j | 0 <= i < |xs| && 0 <= j < |xs|
      ensures m.entries[i][j] == kernel(xs[i], xs[j])
    {
      if j < i {
        var a, b := xs[j], xs[i];
        assert m.entries[i][j] == m.entries[j][i] == kernel(a, b);
        assert kernel(a, b) == kernel(b, a);
      }
    }
  }

  /** The program's loop: evaluate the kernel once for each i <= j and write
      the value to (i, j) and (j, i) of a zero-filled matrix. */
  method BuildCovMatrix(kernel: KernelFunction, xs: seq<real>) returns (m: Matrix)
    ensures m == CovMatrix(kernel, xs)
  {
    var dim := |xs|;
    var rows := Zeros(dim, dim).entries;
    for i := 0 to dim
      invariant |rows| == dim && forall r :: 0 <= r < dim ==> |rows[r]| == dim
      invariant forall r, c :: 0 <= r < dim && 0 <= c < dim && (r < i || c < i) ==>
        rows[r][c] == MirroredEntry(kernel, xs, r, c)
    {
      for j := i to dim
        invariant |rows| == dim && forall r :: 0 <= r < dim ==> |rows[r]| == dim
        invariant forall r, c :: 0 <= r < dim && 0 <= c < dim && (r < i || c < i || (r == i && c < j) || (c == i && r < j)) ==>
          rows[r][c] == MirroredEntry(kernel, xs, r, c)
      {
        var k := kernel(xs[i], xs[j]);
        rows := rows[i := rows[i][j := k]];
        rows := rows[j := rows[j][i := k]];
      }
    }
    m := Matrix(dim, dim, rows);
    var spec := CovMatrix(kernel, xs);
    forall r | 0 <= r < dim
      ensures rows[r] == spec.entries[r]
    {
    }
  }

  /** `sampleMvn(meanVec, covSqrt, v)`: each column of `v` is turned into
      covSqrt * v + meanVec. An absent `v`, or one whose row count is not the
      number of columns of `covSqrt`, yields a |meanVec| x 1 zero matrix
      (one column, whatever `v` holds). The arguments are values, so they are
      left as they were and the result is a new matrix. */
  function SampleMvn(meanVec: seq<real>, covSqrt: Matrix, v: Option<Matrix>): (r: Matrix)
    requires covSqrt.Valid() && (v.Some? ==> v.value.Valid())
    requires v.Some? && covSqrt.cols == v.value.rows ==> covSqrt.rows <= |meanVec|
    ensures r.Valid()
    ensures v.None? || covSqrt.cols != v.value.rows ==> r == Zeros(|meanVec|, 1)
    ensures v.Some? && covSqrt.cols == v.value.rows ==>
      && r.rows == covSqrt.rows && r.cols == v.value.cols
      && forall i, j :: 0 <= i < r.rows && 0 <= j < r.cols ==>
           r.entries[i][j] == Dot(covSqrt.entries[i], Column(v.value, j)) + meanVec[i]
  {
    if v.None? || covSqrt.cols != v.value.rows then
      Zeros(|meanVec|, 1)
    else
      var lv := MMul(covSqrt, v.value);
      Matrix(lv.rows, lv.cols, seq(lv.rows, i requires 0 <= i < lv.rows =>
        seq(lv.cols, j requires 0 <= j < lv.cols => lv.entries[i][j] + meanVec[i])))
  }

  /** With all-zero noise every sample is the mean itself. */
  lemma SampleOfZeroNoiseIsMean(meanVec: seq<real>, covSqrt: Matrix, columns: nat)
    requires covSqrt.Valid() && covSqrt.rows <= |meanVec|
    ensures var r := SampleMvn(meanVec, covSqrt, Some(Zeros(covSqrt.cols, columns)));
      && r.rows == covSqrt.rows && r.cols == columns
      && forall i, j :: 0 <= i < r.rows && 0 <= j < columns ==> r.entries[i][j] == meanVec[i]
  {
    var noise := Zeros(covSqrt.cols, columns);
    var r := SampleMvn(meanVec, covSqrt, Some(noise));
    forall i, j | 0 <= i < r.rows && 0 <= j < columns
      ensures r.entries[i][j] == meanVec[i]
    {
      DotWithZeros(covSqrt.entries[i], Column(noise, j));
    }
  }
}
