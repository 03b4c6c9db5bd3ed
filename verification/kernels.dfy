/** Covariance kernels (src/lib/math/kernels.ts). As in the program, a kernel
    is a closure over its hyper-parameters mapping two inputs to a covariance;
    the transcendental functions it needs come from a `Transcendentals`
    record. */
module Kernels {
  import opened Numeric

  type KernelFunction = (real, real) -> real

  /** Jitter used when none is given. */
  const DefaultJitter: real := 0.000001

  ghost predicate Symmetric(kernel: KernelFunction)
  {
    forall a, b :: kernel(a, b) == kernel(b, a)
  }

  /** The value depends on the two inputs only through their distance. */
  ghost predicate Stationary(kernel: KernelFunction)
  {
    forall a, b, c, d :: Abs(a - b) == Abs(c - d) ==> kernel(a, b) == kernel(c, d)
  }

  /** A stationary kernel is symmetric. */
  lemma StationaryIsSymmetric(kernel: KernelFunction)
    requires Stationary(kernel)
    ensures Symmetric(kernel)
  {
    forall a, b
      ensures kernel(a, b) == kernel(b, a)
    {
      assert Abs(a - b) == Abs(b - a);
    }
  }

  lemma Pow2OfAbs(x: real)
    ensures Pow2(x) == Pow2(Abs(x))
  {
    if x < 0.0 {
      assert Abs(x) == -x;
    }
  }

  /** variance * exp(-sqDist / (2 lengthscale^2)); the divisor is applied one
      factor at a time, which over the reals is the same quotient. */
  function SqExp(t: Transcendentals, variance: real, lengthscale: real, sqDist: real): real
    requires lengthscale != 0.0
  {
    variance * t.exp(-sqDist / 2.0 / lengthscale / lengthscale)
  }

  lemma SqExpAtZeroDistance(t: Transcendentals, variance: real, lengthscale: real)
    requires lengthscale != 0.0
    requires ExpOfZeroIsOne(t)
    ensures SqExp(t, variance, lengthscale, 0.0) == variance
  {
    assert -0.0 / 2.0 / lengthscale / lengthscale == 0.0;
  }

  /** The squared-exponential kernel, variance * exp(-(x1 - x2)^2 / (2 lengthscale^2)). */
  function SqExpKernel(t: Transcendentals, variance: real := 1.0, lengthscale: real := 1.0): (k: KernelFunction)
    requires lengthscale != 0.0
    ensures Stationary(k) && Symmetric(k)
    ensures ExpOfZeroIsOne(t) ==> forall x :: k(x, x) == variance
  {
    var k := (x1: real, x2: real) => SqExp(t, variance, lengthscale, Pow2(x1 - x2));
    assert Stationary(k) by {
      forall a, b, c, d | Abs(a - b) == Abs(c - d)
        ensures k(a, b) == k(c, d)
      {
        Pow2OfAbs(a - b);
        Pow2OfAbs(c - d);
      }
    }
    assert ExpOfZeroIsOne(t) ==> forall x :: k(x, x) == variance by {
      forall x | ExpOfZeroIsOne(t)
        ensures k(x, x) == variance
      {
        assert Pow2(x - x) == 0.0;
        SqExpAtZeroDistance(t, variance, lengthscale);
      }
    }
    StationaryIsSymmetric(k);
    k
  }

  /** The linear kernel, variance * x1 * x2 + bias; symmetric but not stationary. */
  function LinearKernel(variance: real := 1.0, bias: real := 0.0): (k: KernelFunction)
    ensures Symmetric(k)
    ensures forall x :: k(x, 0.0) == bias && k(0.0, x) == bias
    ensures forall a, b :: k(a, b) - bias == variance * a * b
  {
    (x1: real, x2: real) => variance * (x1 * x2) + bias
  }

  /** variance * exp(-2 sin^2(pi dist / period) / lengthscale^2), dividing by
      the lengthscale twice. */
  function Periodic(t: Transcendentals, variance: real, lengthscale: real, period: real, dist: real): real
    requires lengthscale != 0.0 && period != 0.0
  {
    var sinComponent := t.sin(t.pi * dist / period);
    variance * t.exp(-2.0 * sinComponent * sinComponent / lengthscale / lengthscale)
  }

  lemma PeriodicAtZeroDistance(t: Transcendentals, variance: real, lengthscale: real, period: real)
    requires lengthscale != 0.0 && period != 0.0
    requires ExpOfZeroIsOne(t) && SinOfZeroIsZero(t)
    ensures Periodic(t, variance, lengthscale, period, 0.0) == variance
  {
    var sinComponent := t.sin(t.pi * 0.0 / period);
    assert t.pi * 0.0 / period == 0.0;
    assert sinComponent == 0.0;
    assert -2.0 * sinComponent * sinComponent / lengthscale / lengthscale == 0.0;
  }

  /** The periodic kernel, evaluated at the distance |x1 - x2|. */
  function PeriodicKernel(t: Transcendentals, variance: real := 1.0, lengthscale: real := 1.0, period: real := 1.0): (k: KernelFunction)
    requires lengthscale != 0.0 && period != 0.0
    ensures Stationary(k) && Symmetric(k)
    ensures ExpOfZeroIsOne(t) && SinOfZeroIsZero(t) ==> forall x :: k(x, x) == variance
  {
    var k := (x1: real, x2: real) => Periodic(t, variance, lengthscale, period, Abs(x1 - x2));
    assert Stationary(k) by {
      forall a, b, c, d | Abs(a - b) == Abs(c - d)
        ensures k(a, b) == k(c, d)
      {
      }
    }
    assert ExpOfZeroIsOne(t) && SinOfZeroIsZero(t) ==> forall x :: k(x, x) == variance by {
      forall x | ExpOfZeroIsOne(t) && SinOfZeroIsZero(t)
        ensures k(x, x) == variance
      {
        assert Abs(x - x) == 0.0;
        PeriodicAtZeroDistance(t, variance, lengthscale, period);
      }
    }
    StationaryIsSymmetric(k);
    k
  }

  /** variance * (1 + s) * exp(-s) with s = sqrt(3) dist / lengthscale. */
  function Matern32(t: Transcendentals, variance: real, lengthscale: real, dist: real): real
    requires lengthscale != 0.0
  {
    var scaledDist := (t.sqrt(3.0) * dist) / lengthscale;
    variance * (1.0 + scaledDist) * t.exp(-scaledDist)
  }

  /** The Matern-3/2 kernel, evaluated at the distance |x1 - x2|. */
  function Matern32Kernel(t: Transcendentals, variance: real := 1.0, lengthscale: real := 1.0): (k: KernelFunction)
    requires lengthscale != 0.0
    ensures Stationary(k) && Symmetric(k)
    ensures ExpOfZeroIsOne(t) ==> forall x :: k(x, x) == variance
  {
    var k := (x1: real, x2: real) => Matern32(t, variance, lengthscale, Abs(x1 - x2));
    assert Stationary(k) by {
      forall a, b, c, d | Abs(a - b) == Abs(c - d)
        ensures k(a, b) == k(c, d)
      {
      }
    }
    StationaryIsSymmetric(k);
    k
  }

  /** Adds `jitter` when the two inputs are equal, so on the diagonal of
      every covariance matrix built from the kernel and nowhere else. */
  function WithJitter(kernel: KernelFunction, jitter: real := DefaultJitter): (k: KernelFunction)
    ensures forall x :: k(x, x) == kernel(x, x) + jitter
    ensures forall a, b :: a != b ==> k(a, b) == kernel(a, b)
    ensures Symmetric(kernel) ==> Symmetric(k)
  {
    (x1: real, x2: real) => kernel(x1, x2) + (if x1 == x2 then jitter else 0.0)
  }
}
