/**
 * The easing step every animation frame takes: three.js `MathUtils.lerp`,
 * stated over the reals (floating-point rounding is not modelled). The
 * components call it with t = 4 * delta (or a fraction of that), so a frame
 * of `delta` seconds moves a part a fraction t of the way to its target.
 */
module Interpolator {
  /** The point a fraction `t` of the way from `x` to `y`. */
  function Lerp(x: real, y: real, t: real): (r: real)
    ensures r - y == (1.0 - t) * (x - y)
  {
    (1.0 - t) * x + t * y
  }

  function Abs(x: real): (r: real)
    ensures r >= 0.0 && (r == x || r == -x)
  {
    if x < 0.0 then -x else x
  }

  /** A step with 0 <= t <= 1 lands between the current value and the target, no further from it. */
  lemma NoOvershoot(x: real, y: real, t: real)
    requires 0.0 <= t <= 1.0
    ensures x <= y ==> x <= Lerp(x, y, t) <= y
    ensures y <= x ==> y <= Lerp(x, y, t) <= x
    ensures Abs(Lerp(x, y, t) - y) <= Abs(x - y)
  {
    var d := x - y;
    assert Lerp(x, y, t) - y == (1.0 - t) * d;
    Scale(1.0 - t, d);
  }

  /** Scaling by a factor in [0, 1] keeps a value's sign and does not increase its size. */
  lemma Scale(a: real, d: real)
    requires 0.0 <= a <= 1.0
    ensures d >= 0.0 ==> 0.0 <= a * d <= d
    ensures d <= 0.0 ==> d <= a * d <= 0.0
  {
    assert d - a * d == (1.0 - a) * d;
    if d >= 0.0 {
      MulNonneg(a, d);
      MulNonneg(1.0 - a, d);
    } else {
      MulNonneg(a, -d);
      MulNonneg(1.0 - a, -d);
    }
  }

  lemma MulNonneg(a: real, b: real)
    requires a >= 0.0 && b >= 0.0
    ensures a * b >= 0.0
  {
  }

  lemma MulPos(a: real, b: real)
    requires a > 0.0 && b > 0.0
    ensures a * b > 0.0
  {
  }

  /**
   * A step with 1 < t < 2 (at speed 4 * delta, a frame longer than 250 ms)
   * jumps past the target, though it still ends closer to it.
   */
  lemma Overshoot(x: real, y: real, t: real)
    requires 1.0 < t < 2.0
    ensures x < y ==> y < Lerp(x, y, t)
    ensures y < x ==> Lerp(x, y, t) < y
    ensures x != y ==> Abs(Lerp(x, y, t) - y) < Abs(x - y)
  {
    var d := x - y;
    var a := t - 1.0;
    var m := a * d;
    assert Lerp(x, y, t) - y == -m;
    assert d - m == (1.0 - a) * d;
    if d > 0.0 {
      MulPos(a, d);
      MulPos(1.0 - a, d);
    } else if d < 0.0 {
      MulPos(a, -d);
      MulPos(1.0 - a, -d);
    }
  }

  function Pow(b: real, n: nat): real
  {
    if n == 0 then 1.0 else b * Pow(b, n - 1)
  }

  /** Where a part starting at `x` stands after `n` frames that each ease it by `t` towards `y`. */
  function Ease(x: real, y: real, t: real, n: nat): real
  {
    if n == 0 then x else Lerp(Ease(x, y, t, n - 1), y, t)
  }

  /** After n equal frames a fraction (1 - t)^n of the distance remains. */
  lemma {:induction false} EaseRemaining(x: real, y: real, t: real, n: nat)
    ensures Ease(x, y, t, n) - y == Pow(1.0 - t, n) * (x - y)
  {
    if n > 0 {
      EaseRemaining(x, y, t, n - 1);
      Regroup(1.0 - t, Pow(1.0 - t, n - 1), x - y);
    }
  }

  lemma Regroup(a: real, b: real, c: real)
    ensures a * (b * c) == (a * b) * c
  {
  }

  /** With 0 < t <= 1 the remaining distance never grows, and shrinks strictly while it is not zero. */
  lemma {:induction false} EaseApproaches(x: real, y: real, t: real, n: nat)
    requires 0.0 < t <= 1.0
    ensures Abs(Ease(x, y, t, n + 1) - y) <= Abs(Ease(x, y, t, n) - y)
    ensures Ease(x, y, t, n) != y ==> Abs(Ease(x, y, t, n + 1) - y) < Abs(Ease(x, y, t, n) - y)
  {
    var e := Ease(x, y, t, n);
    NoOvershoot(e, y, t);
    assert Ease(x, y, t, n + 1) - y == (1.0 - t) * (e - y);
    var d := e - y;
    assert d - (1.0 - t) * d == t * d;
    if d > 0.0 {
      MulPos(t, d);
    } else if d < 0.0 {
      MulPos(t, -d);
    }
  }

  /**
   * A frame lasting `delta` seconds eases with factor 4 * delta. A frame of
   * at most 250 ms lands between the part and its target; a slower one (up
   * to 500 ms) carries the part past its target. Either way it ends no
   * further from the target.
   */
  lemma FrameSpeed(x: real, y: real, delta: real)
    requires 0.0 <= delta < 0.5
    ensures delta <= 0.25 && x <= y ==> x <= Lerp(x, y, 4.0 * delta) <= y
    ensures delta <= 0.25 && y <= x ==> y <= Lerp(x, y, 4.0 * delta) <= x
    ensures delta > 0.25 && x < y ==> y < Lerp(x, y, 4.0 * delta)
    ensures delta > 0.25 && y < x ==> Lerp(x, y, 4.0 * delta) < y
    ensures Abs(Lerp(x, y, 4.0 * delta) - y) <= Abs(x - y)
  {
    if delta <= 0.25 {
      NoOvershoot(x, y, 4.0 * delta);
    } else {
      Overshoot(x, y, 4.0 * delta);
    }
  }
}
