/** Gaussian-process prior and posterior (src/lib/models/gaussianProcess.ts).
    The program returns closures `mean`, `cov` and `kernel`; here the model is
    a value recording what those closures capture, and `Mean`, `Cov` and
    `KernelAt` compute what the closures would return. The singular-value
    solve is a parameter about which only the shape of its result is known. */
module GaussianProcess {
  import opened Numeric
  import opened Mat
  import opened Kernels
  import opened Covariance

  /** `(a, b) => new SingularValueDecomposition(a).solve(b)`. */
  type Solver = (Matrix, Matrix) -> Matrix

  /** For an r x c matrix `a` and an r x k right-hand side the solution is c x k. */
  ghost predicate SolveKeepsShape(solve: Solver)
  {
    forall a: Matrix, b: Matrix :: a.Valid() && b.Valid() && b.rows == a.rows ==>
      solve(a, b).Valid() && solve(a, b).rows == a.cols && solve(a, b).cols == b.cols
  }

  datatype GaussianProcess =
    | Prior(kernel: KernelFunction)
    | Posterior(kernel: KernelFunction, X: seq<real>, Y: seq<real>, noiseVariance: real, solve: Solver)
  {
    /** One observed value per observed input, and a solve of known shape. */
    ghost predicate Valid()
    {
      Posterior? ==> |X| == |Y| && SolveKeepsShape(solve)
    }
  }

  /** `covYf(xs)`: the |X| x |xs| cross-covariance between observed and query inputs. */
  function CovYf(kernel: KernelFunction, X: seq<real>, xs: seq<real>): (m: Matrix)
    ensures m.Valid() && m.rows == |X| && m.cols == |xs|
    ensures forall i, j :: 0 <= i < |X| && 0 <= j < |xs| ==> m.entries[i][j] == kernel(X[i], xs[j])
  {
    Matrix(|X|, |xs|, seq(|X|, i requires 0 <= i < |X| =>
      seq(|xs|, j requires 0 <= j < |xs| => kernel(X[i], xs[j]))))
  }

  /** The cross-covariance of a set of inputs with itself is their covariance
      matrix when the kernel is symmetric. */
  lemma CrossCovarianceWithItself(kernel: KernelFunction, xs: seq<real>)
    requires Symmetric(kernel)
    ensures CovYf(kernel, xs, xs) == CovMatrix(kernel, xs)
  {
    var cross, cov := CovYf(kernel, xs, xs), CovMatrix(kernel, xs);
    CovMatrixOfSymmetricKernel(kernel, xs);
    forall i | 0 <= i < |xs|
      ensures cross.entries[i] == cov.entries[i]
    {
    }
  }

  /** `kyy`: the covariance of the observed inputs plus `noiseVariance` on the
      diagonal only; it stays symmetric. */
  function Kyy(kernel: KernelFunction, X: seq<real>, noiseVariance: real): (m: Matrix)
    ensures m.Valid() && m.rows == |X| && m.cols == |X|
    ensures IsSymmetric(m)
    ensures forall i :: 0 <= i < |X| ==> m.entries[i][i] == kernel(X[i], X[i]) + noiseVariance
    ensures forall i, j :: 0 <= i < |X| && 0 <= j < |X| && i != j ==> m.entries[i][j] == CovMatrix(kernel, X).entries[i][j]
  {
    Add(CovMatrix(kernel, X), Eye(|X|, noiseVariance))
  }

  /** `kyyinv_Y`: the |X| x 1 weights solving kyy * alpha = Y. */
  function Weights(gp: GaussianProcess): (alpha: Matrix)
    requires gp.Posterior? && gp.Valid()
    ensures alpha.Valid() && alpha.rows == |gp.X| && alpha.cols == 1
  {
    gp.solve(Kyy(gp.kernel, gp.X, gp.noiseVariance), ColumnVector(gp.Y))
  }

  /** `mean(xs)`: zero for the prior; for the posterior, the value at xs[i] is
      the sum over observations k of kernel(X[k], xs[i]) * alpha[k]. */
  function Mean(gp: GaussianProcess, xs: seq<real>): (r: seq<real>)
    requires gp.Valid()
    ensures |r| == |xs|
    ensures gp.Prior? ==> forall i :: 0 <= i < |xs| ==> r[i] == 0.0
    ensures gp.Posterior? ==>
      var kyf, alpha := CovYf(gp.kernel, gp.X, xs), Weights(gp);
      forall i :: 0 <= i < |xs| ==> r[i] == Dot(Column(kyf, i), Column(alpha, 0))
  {
    match gp
    case Prior(_) => seq(|xs|, _ => 0.0)
    case Posterior(kernel, X, _, _, _) =>
      var product := MMul(Transpose(CovYf(kernel, X, xs)), Weights(gp));
      ColumnToArray(product);
      To1DArray(product)
  }

  /** `cov(xs)`: an |xs| x |xs| matrix; for the prior the covariance matrix of
      the kernel, for the posterior that matrix minus
      covYf(xs)^T * solve(kyy, covYf(xs)). */
  function Cov(gp: GaussianProcess, xs: seq<real>): (m: Matrix)
    requires gp.Valid()
    ensures m.Valid() && m.rows == |xs| && m.cols == |xs|
    ensures gp.Prior? ==> m == CovMatrix(gp.kernel, xs)
    ensures gp.Posterior? ==>
      var kyf := CovYf(gp.kernel, gp.X, xs);
      var reduction := gp.solve(Kyy(gp.kernel, gp.X, gp.noiseVariance), kyf);
      forall i, j :: 0 <= i < |xs| && 0 <= j < |xs| ==>
        m.entries[i][j] == CovMatrix(gp.kernel, xs).entries[i][j] - Dot(Column(kyf, i), Column(reduction, j))
  {
    match gp
    case Prior(kernel) => CovMatrix(kernel, xs)
    case Posterior(kernel, X, _, noiseVariance, solve) =>
      var kff := CovMatrix(kernel, xs);
      var kyf := CovYf(kernel, X, xs);
      var kyyinvKyf := solve(Kyy(kernel, X, noiseVariance), kyf);
      Subtract(kff, MMul(Transpose(kyf), kyyinvKyf))
  }

  /** The model's `kernel`: the prior's own kernel; for the posterior, entry
      (1, 0) of the posterior covariance of the two inputs. That entry is the
      prior kernel at (x1, x2), in that order because the covariance matrix
      mirrors the entry it computes at (0, 1), minus the correction the
      observations make. */
  function KernelAt(gp: GaussianProcess, x1: real, x2: real): (r: real)
    requires gp.Valid()
    ensures gp.Prior? ==> r == gp.kernel(x1, x2)
    ensures gp.Posterior? ==>
      var kyf := CovYf(gp.kernel, gp.X, [x1, x2]);
      var reduction := gp.solve(Kyy(gp.kernel, gp.X, gp.noiseVariance), kyf);
      r == gp.kernel(x1, x2) - Dot(Column(kyf, 1), Column(reduction, 0))
  {
    match gp
    case Prior(kernel) => kernel(x1, x2)
    case Posterior(kernel, _, _, _, _) =>
      var pair := [x1, x2];
      var prior := CovMatrix(kernel, pair);
      assert prior.entries[1][0] == prior.entries[0][1] == kernel(x1, x2);
      Cov(gp, pair).entries[1][0]
  }

  /** Conditioning on no observations changes nothing: the posterior's mean,
      covariance and kernel are the prior's, for any kernel and noise. */
  lemma PosteriorWithoutObservationsIsPrior(kernel: KernelFunction, noiseVariance: real, solve: Solver, xs: seq<real>, x1: real, x2: real)
    requires SolveKeepsShape(solve)
    ensures var gp := Posterior(kernel, [], [], noiseVariance, solve);
      && Mean(gp, xs) == Mean(Prior(kernel), xs)
      && Cov(gp, xs) == Cov(Prior(kernel), xs)
      && KernelAt(gp, x1, x2) == KernelAt(Prior(kernel), x1, x2)
  {
    var gp := Posterior(kernel, [], [], noiseVariance, solve);
    forall ys: seq<real>
      ensures Cov(gp, ys) == CovMatrix(kernel, ys)
    {
      var m, spec := Cov(gp, ys), CovMatrix(kernel, ys);
      forall i | 0 <= i < |ys|
        ensures m.entries[i] == spec.entries[i]
      {
      }
    }
    var pair := [x1, x2];
    assert Cov(gp, pair) == CovMatrix(kernel, pair);
  }
}
