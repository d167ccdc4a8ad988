/**
 * Arithmetic of one tween frame: the interpolated scroll position, the
 * progress factor derived from it, the container position derived from
 * the factor, and the strength of the displacement ("melt") filter derived
 * from how far the container moved in this frame.
 */
module Displacement {

  /** Gain of the vertical distortion: bigger means a stronger melt. */
  const VerticalGain: real := 120.0
  /** Divisor of the horizontal distortion: bigger means a weaker one. */
  const HorizontalGain: real := 20.0
  /** The viewport aspect is divided by this before it scales the melt. */
  const AspectDivisor: real := 3.0

  function Abs(x: real): (r: real)
    ensures r >= 0.0 && (r == x || r == -x)
  {
    if x < 0.0 then -x else x
  }

  function Min(a: real, b: real): real { if a <= b then a else b }
  function Max(a: real, b: real): real { if a <= b then b else a }

  /**
   * Scroll position of a frame at tween progress `t`, moving from the
   * position `currentY` read at this frame toward `target`.
   */
  function Interpolate(currentY: real, target: real, t: real): (r: real)
    requires 0.0 <= t <= 1.0
    ensures Min(currentY, target) <= r <= Max(currentY, target)
    ensures t == 0.0 ==> r == currentY
    ensures t == 1.0 ==> r == target
  {
    Between(currentY, target, t);
    currentY + (target - currentY) * t
  }

  lemma Between(a: real, b: real, t: real)
    requires 0.0 <= t <= 1.0
    ensures Min(a, b) <= a + (b - a) * t <= Max(a, b)
  {
    var d := b - a;
    assert d * t + d * (1.0 - t) == d;
    if d >= 0.0 {
      MulNonNeg(d, t);
      MulNonNeg(d, 1.0 - t);
    } else {
      MulNonNeg(-d, t);
      MulNonNeg(-d, 1.0 - t);
      assert (-d) * t == -(d * t);
      assert (-d) * (1.0 - t) == -(d * (1.0 - t));
    }
  }

  lemma MulNonNeg(x: real, y: real)
    requires x >= 0.0 && y >= 0.0
    ensures x * y >= 0.0
  {
  }

  /**
   * Progress factor of a scroll position: the fraction of the scrollable
   * length `vh * n - vh` of an `n`-picture stack it has covered.
   */
  function Factor(newY: real, vh: real, n: nat): (f: real)
    requires vh > 0.0 && n > 1
    ensures 0.0 <= newY <= vh * (n - 1) as real ==> 0.0 <= f <= 1.0
  {
    assert vh * n as real - vh == vh * (n - 1) as real;
    assert vh * (n - 1) as real > 0.0 by { PosMul(vh, (n - 1) as real); }
    var f := newY / (vh * n as real - vh);
    assert f * (vh * (n - 1) as real) == newY;
    assert 0.0 <= newY <= vh * (n - 1) as real ==> 0.0 <= f <= 1.0 by {
      if 0.0 <= newY <= vh * (n - 1) as real && f > 1.0 { MulGrows(f, vh * (n - 1) as real); }
    }
    f
  }

  lemma PosMul(a: real, b: real)
    requires a > 0.0 && b > 0.0
    ensures a * b > 0.0
  {
  }

  lemma MulGrows(f: real, k: real)
    requires f > 1.0 && k > 0.0
    ensures f * k > k
  {
    assert f * k - k == (f - 1.0) * k;
    PosMul(f - 1.0, k);
  }

  /**
   * Where the container of an `n`-picture stack must be for progress
   * factor `coef`: scrolled up by that fraction of the stack's length.
   */
  function FinY(coef: real, vh: real, n: nat): (r: real)
    ensures vh > 0.0 && n >= 1 && 0.0 <= coef <= 1.0 ==> -(vh * (n - 1) as real) <= r <= 0.0
  {
    assert vh > 0.0 && n >= 1 && 0.0 <= coef <= 1.0 ==>
      -(vh * (n - 1) as real) <= -coef * vh * (n - 1) as real <= 0.0 by {
      if vh > 0.0 && n >= 1 && 0.0 <= coef <= 1.0 { FinYRange(coef, vh, n); }
    }
    -coef * vh * (n - 1) as real
  }

  lemma FinYRange(coef: real, vh: real, n: nat)
    requires vh > 0.0 && n >= 1 && 0.0 <= coef <= 1.0
    ensures -(vh * (n - 1) as real) <= -coef * vh * (n - 1) as real <= 0.0
  {
    var len := vh * (n - 1) as real;
    MulNonNeg(vh, (n - 1) as real);
    assert -coef * vh * (n - 1) as real == -(coef * len);
    MulNonNeg(coef, len);
    MulNonNeg(1.0 - coef, len);
    assert (1.0 - coef) * len == len - coef * len;
  }

  /**
   * The factor and the container position are inverse scalings: the
   * container ends exactly at minus the scroll position, so the two never
   * drift apart.
   */
  lemma FinYOfFactor(newY: real, vh: real, n: nat)
    requires vh > 0.0 && n > 1
    ensures FinY(Factor(newY, vh, n), vh, n) == -newY
  {
    var d := vh * n as real - vh;
    assert d == vh * (n - 1) as real;
    assert d > 0.0 by { PosMul(vh, (n - 1) as real); }
    var f := Factor(newY, vh, n);
    assert f == newY / d;
    assert f * d == newY;
    assert -f * vh * (n - 1) as real == -(f * d);
  }

  /** Vertical strength of the melt for a frame that moved `dif`. */
  function ScaleY(dif: real, vw: real, vh: real): (r: real)
    requires vw > 0.0 && vh > 0.0
    ensures dif >= 0.0 ==> r >= 0.0
    ensures dif == 0.0 ==> r == 0.0
  {
    var k := VerticalGain * (vw / vh / AspectDivisor);
    assert k > 0.0;
    assert dif >= 0.0 ==> dif * k >= 0.0 by { if dif > 0.0 { PosMul(dif, k); } }
    dif * VerticalGain * (vw / vh / AspectDivisor)
  }

  /** Horizontal strength of the melt for a frame that moved `dif`. */
  function ScaleX(dif: real): (r: real)
    ensures dif >= 0.0 ==> r <= 0.0
    ensures dif == 0.0 ==> r == 0.0
  {
    -dif / HorizontalGain
  }

  /** A frame that moves further melts strictly more, vertically. */
  lemma ScaleYStrictlyIncreasing(d1: real, d2: real, vw: real, vh: real)
    requires vw > 0.0 && vh > 0.0 && d1 < d2
    ensures ScaleY(d1, vw, vh) < ScaleY(d2, vw, vh)
  {
    var k := VerticalGain * (vw / vh / AspectDivisor);
    assert k > 0.0;
    assert ScaleY(d2, vw, vh) - ScaleY(d1, vw, vh) == (d2 - d1) * k;
    PosMul(d2 - d1, k);
  }

  /** A frame that moves further melts strictly more, horizontally (more negative). */
  lemma ScaleXStrictlyDecreasing(d1: real, d2: real)
    requires d1 < d2
    ensures ScaleX(d2) < ScaleX(d1)
  {
  }
}
