/** The evaluation grid (src/lib/math/utils.ts `linspace`). */
module Utils {

  /** The divisor of the span: one less than the number of points when the
      end point is included, the number of points otherwise. */
  function Divisor(num: nat, endpoint: bool): int
  {
    if endpoint then num - 1 else num
  }

  function Step(start: real, stop: real, num: nat, endpoint: bool): real
    requires Divisor(num, endpoint) != 0
  {
    (stop - start) / Divisor(num, endpoint) as real
  }

  lemma StepDistributes(step: real, x: real)
    ensures step * x - step * (x - 1.0) == step
  {
  }

  lemma QuotientTimesDivisor(span: real, d: real)
    requires d != 0.0
    ensures (span / d) * d == span
  {
  }

  /** `linspace(start, stop, num, endpoint)`: `num` points, the i-th being
      start + i * step. A single point with the end point included divides by
      zero in the program, so that call is excluded. */
  function Linspace(start: real, stop: real, num: nat, endpoint: bool := true): (r: seq<real>)
    requires !(endpoint && num == 1)
    ensures |r| == num
    ensures num > 0 ==> r[0] == start
  {
    if num == 0 then []
    else
      var step := Step(start, stop, num, endpoint);
      seq(num, i requires 0 <= i < num => start + step * i as real)
  }

  /** Consecutive points are one step apart. */
  lemma LinspaceIsEvenlySpaced(start: real, stop: real, num: nat, endpoint: bool, i: nat)
    requires !(endpoint && num == 1)
    requires 0 < i < num
    ensures Linspace(start, stop, num, endpoint)[i] - Linspace(start, stop, num, endpoint)[i - 1] == Step(start, stop, num, endpoint)
  {
    var step := Step(start, stop, num, endpoint);
    var x := i as real;
    assert (i - 1) as real == x - 1.0;
    StepDistributes(step, x);
  }

  /** With the end point the last point is exactly `stop`; without it, the
      last point is one step short of `stop`. */
  lemma LinspaceLastPoint(start: real, stop: real, num: nat, endpoint: bool)
    requires !(endpoint && num == 1)
    requires num >= 1
    ensures endpoint ==> Linspace(start, stop, num, endpoint)[num - 1] == stop
    ensures !endpoint ==> Linspace(start, stop, num, endpoint)[num - 1] == stop - Step(start, stop, num, endpoint)
  {
    var step := Step(start, stop, num, endpoint);
    var d := Divisor(num, endpoint) as real;
    QuotientTimesDivisor(stop - start, d);
    assert step * d == stop - start;
    if !endpoint {
      assert (num - 1) as real == d - 1.0;
      StepDistributes(step, d);
    }
  }
}
