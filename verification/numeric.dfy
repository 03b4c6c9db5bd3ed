/** Real-number helpers shared by every component, the optional-value type
    used where the program tests for `null`/`undefined`, and the host's
    transcendental functions, which the model receives as parameters instead
    of defining them. */
module Numeric {

  datatype Option<+T> = None | Some(value: T)

  function Abs(x: real): (r: real)
    ensures 0.0 <= r
    ensures r == x || r == -x
  {
    if x < 0.0 then -x else x
  }

  /** `Math.pow(x, 2)`, and the square of a difference wherever the program
      writes `diff * diff`. */
  function Pow2(x: real): real
  {
    x * x
  }

  lemma SquareIsNonNegative(d: real)
    ensures 0.0 <= d * d
  {
  }

  /** Left-to-right sum: the order in which `reduce((s, p) => s + p, 0)` adds. */
  function Sum(p: seq<real>): real
  {
    if |p| == 0 then 0.0 else Sum(p[..|p| - 1]) + p[|p| - 1]
  }

  /** `Math.exp`, `Math.sin`, `Math.sqrt` and `Math.PI`. Nothing is known about
      them beyond the few facts stated by the predicates below, and a member
      that needs one of those facts asks for it explicitly. */
  datatype Transcendentals = Transcendentals(
    exp: real -> real,
    sin: real -> real,
    sqrt: real -> real,
    pi: real)

  ghost predicate ExpOfZeroIsOne(t: Transcendentals)
  {
    t.exp(0.0) == 1.0
  }

  ghost predicate SinOfZeroIsZero(t: Transcendentals)
  {
    t.sin(0.0) == 0.0
  }

  /** On the non-negative reals `sqrt` is the non-negative square root. */
  ghost predicate SqrtIsRoot(t: Transcendentals)
  {
    forall x :: 0.0 <= x ==> 0.0 <= t.sqrt(x) && t.sqrt(x) * t.sqrt(x) == x
  }
}
