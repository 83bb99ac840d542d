/** The cubic Hermite segment, normalised to the unit square, and when it is monotone.

    `Blend(a, b, t)` climbs from 0 to 1 while t goes from 0 to 1, with end slopes a and b.
    It is affine in (a, b), so inside the box 0 <= a, b <= 3 it inherits strict
    monotonicity from the four corners of the box. */
module Hermite {
  import opened Reals

  function Blend(a: real, b: real, t: real): real {
    t * t * (3.0 - 2.0 * t) + a * (t * (1.0 + t * (t - 2.0))) + b * (t * t * (t - 1.0))
  }

  /** The segment value exactly as the spline evaluates it. */
  function Segment(h: real, y0: real, y1: real, m0: real, m1: real, t: real): real {
    var h00 := t * t * (2.0 * t - 3.0) + 1.0;
    var h10 := t * (1.0 + t * (t - 2.0));
    var h01 := t * t * (3.0 - 2.0 * t);
    var h11 := t * t * (t - 1.0);
    h00 * y0 + h10 * h * m0 + h01 * y1 + h11 * h * m1
  }

  /** Scaling: with end slopes a*s and b*s a segment of secant slope s is a scaled Blend. */
  lemma SegmentIsScaledBlend(h: real, y0: real, y1: real, s: real, a: real, b: real, t: real)
    requires s * h == y1 - y0
    ensures Segment(h, y0, y1, a * s, b * s, t) == y0 + (y1 - y0) * Blend(a, b, t)
  {
  }

  lemma SquareNonneg(c: real)
    ensures c * c >= 0.0
  {
  }

  lemma CubeIncreasing(c: real, d: real)
    requires c < d
    ensures c * c * c < d * d * d
  {
    var q := d * d + c * d + c * c;
    assert q > 0.0 by {
      var u := d + c / 2.0;
      SquareNonneg(u);
      SquareNonneg(c);
      assert u * u == d * d + d * c + c * c / 4.0;
      if c == 0.0 {
        PositiveProduct(d, d, d * d);
      } else if c > 0.0 {
        PositiveProduct(c, c, c * c);
      } else {
        PositiveProduct(-c, -c, c * c);
      }
    }
    PositiveProduct(d - c, q, d * d * d - c * c * c);
  }

  lemma SmoothStepIncreasing(t: real, u: real)
    requires 0.0 <= t < u <= 1.0
    ensures Blend(0.0, 0.0, t) < Blend(0.0, 0.0, u)
  {
    var v := t * (3.0 - 2.0 * t - u);
    var w := u * (3.0 - 2.0 * u - t);
    NonnegProduct(t, 3.0 - 2.0 * t - u, v);
    PositiveProduct(u, 3.0 - 2.0 * u - t, w);
    PositiveProduct(u - t, v + w, u * u * (3.0 - 2.0 * u) - t * t * (3.0 - 2.0 * t));
  }

  lemma CornersIncreasing(t: real, u: real)
    requires 0.0 <= t < u <= 1.0
    ensures Blend(0.0, 0.0, t) < Blend(0.0, 0.0, u)
    ensures Blend(3.0, 0.0, t) < Blend(3.0, 0.0, u)
    ensures Blend(0.0, 3.0, t) < Blend(0.0, 3.0, u)
    ensures Blend(3.0, 3.0, t) < Blend(3.0, 3.0, u)
  {
    SmoothStepIncreasing(t, u);
    CubeIncreasing(1.0 - u, 1.0 - t);
    CubeIncreasing(t, u);
    CubeIncreasing(2.0 * t - 1.0, 2.0 * u - 1.0);
    CornerForms(t);
    CornerForms(u);
  }

  lemma CornerForms(t: real)
    ensures Blend(3.0, 0.0, t) == 1.0 - (1.0 - t) * (1.0 - t) * (1.0 - t)
    ensures Blend(0.0, 3.0, t) == t * t * t
    ensures 2.0 * Blend(3.0, 3.0, t) == (2.0 * t - 1.0) * (2.0 * t - 1.0) * (2.0 * t - 1.0) + 1.0
  {
  }

  lemma AffinePositive(d: real, p: real, a: real)
    requires 0.0 <= a <= 3.0
    requires d > 0.0 && d + 3.0 * p > 0.0
    ensures d + a * p > 0.0
  {
    if p >= 0.0 {
      NonnegProduct(a, p, a * p);
    } else {
      NonnegProduct(3.0 - a, -p, (3.0 - a) * (-p));
    }
  }

  /** An affine function that is positive at the corners of the box is positive inside. */
  lemma BoxPositive(d: real, p: real, q: real, a: real, b: real)
    requires 0.0 <= a <= 3.0 && 0.0 <= b <= 3.0
    requires d > 0.0 && d + 3.0 * p > 0.0 && d + 3.0 * q > 0.0 && d + 3.0 * p + 3.0 * q > 0.0
    ensures d + a * p + b * q > 0.0
  {
    AffinePositive(d, q, b);
    AffinePositive(d + 3.0 * p, q, b);
    AffinePositive(d + b * q, p, a);
  }

  function In(t: real): real {
    t * (1.0 + t * (t - 2.0))
  }

  function Out(t: real): real {
    t * t * (t - 1.0)
  }

  /** The increment of every Blend between t and u is one affine function of the end slopes. */
  lemma Increment(a: real, b: real, t: real, u: real)
    ensures Blend(a, b, u) - Blend(a, b, t) ==
            Blend(0.0, 0.0, u) - Blend(0.0, 0.0, t) + a * (In(u) - In(t)) + b * (Out(u) - Out(t))
  {
  }

  lemma Distribute(a: real, x: real, y: real)
    ensures a * (x - y) == a * x - a * y
  {
  }

  lemma CornerIncrements(t: real, u: real, d: real, p: real, q: real)
    requires 0.0 <= t < u <= 1.0
    requires d == Blend(0.0, 0.0, u) - Blend(0.0, 0.0, t)
    requires p == In(u) - In(t) && q == Out(u) - Out(t)
    ensures d > 0.0 && d + 3.0 * p > 0.0 && d + 3.0 * q > 0.0 && d + 3.0 * p + 3.0 * q > 0.0
  {
    SmoothStepIncreasing(t, u);
    CornerIncrement(3.0, 0.0, t, u, d, p, q);
    CornerIncrement(0.0, 3.0, t, u, d, p, q);
    CornerIncrement(3.0, 3.0, t, u, d, p, q);
  }

  lemma CornerIncrement(a: real, b: real, t: real, u: real, d: real, p: real, q: real)
    requires 0.0 <= t < u <= 1.0
    requires (a == 3.0 && b == 0.0) || (a == 0.0 && b == 3.0) || (a == 3.0 && b == 3.0)
    requires d == Blend(0.0, 0.0, u) - Blend(0.0, 0.0, t)
    requires p == In(u) - In(t) && q == Out(u) - Out(t)
    ensures d + a * p + b * q > 0.0
  {
    Increment(a, b, t, u);
    CornersIncreasing(t, u);
  }

  lemma Decompose(a: real, b: real, t: real, u: real) returns (d: real, p: real, q: real)
    requires 0.0 <= t < u <= 1.0
    ensures d > 0.0 && d + 3.0 * p > 0.0 && d + 3.0 * q > 0.0 && d + 3.0 * p + 3.0 * q > 0.0
    ensures Blend(a, b, u) - Blend(a, b, t) == d + a * p + b * q
  {
    hide *;
    d := Blend(0.0, 0.0, u) - Blend(0.0, 0.0, t);
    p := In(u) - In(t);
    q := Out(u) - Out(t);
    CornerIncrements(t, u, d, p, q);
    Increment(a, b, t, u);
  }

  /** The box condition: end slopes within three times the secant give a strictly monotone segment. */
  lemma BoxImpliesIncreasing(a: real, b: real, t: real, u: real)
    requires 0.0 <= a <= 3.0 && 0.0 <= b <= 3.0
    requires 0.0 <= t < u <= 1.0
    ensures Blend(a, b, t) < Blend(a, b, u)
  {
    var d, p, q := Decompose(a, b, t, u);
    BoxPositive(d, p, q, a, b);
  }

  /** Outside the box on the edge a = 0 the segment first moves the wrong way. */
  lemma SteepExitUndershoots(b: real) returns (t: real)
    requires b > 3.0
    ensures 0.0 < t < 1.0
    ensures Blend(0.0, b, t) < 0.0
  {
    var c := 2.0 * (b - 2.0);
    t := (b - 3.0) / c;
    assert t * c == b - 3.0;
    assert t > 0.0 by { if t <= 0.0 { NonnegProduct(-t, c, -t * c); } }
    assert t < 1.0 by { if t >= 1.0 { NonnegProduct(t - 1.0, c, (t - 1.0) * c); } }
    UndershootFactor(b, t);
  }

  lemma UndershootFactor(b: real, t: real)
    requires b > 3.0 && t > 0.0
    requires t * (2.0 * (b - 2.0)) == b - 3.0
    ensures Blend(0.0, b, t) < 0.0
  {
    var sq := t * t;
    PositiveProduct(t, t, sq);
    assert Blend(0.0, b, t) == sq * (3.0 - 2.0 * t) + b * (sq * (t - 1.0));
    assert b * (sq * (t - 1.0)) == sq * (b * t - b);
    var k := (b - 3.0) / 2.0;
    assert (3.0 - 2.0 * t) + (b * t - b) == -k;
    assert sq * (3.0 - 2.0 * t) + sq * (b * t - b) == -(sq * k) by {
      Distribute(sq, 3.0 - 2.0 * t, b - b * t);
    }
    PositiveProduct(sq, k, sq * k);
  }
}
