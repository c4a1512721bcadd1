/** The shared easing helpers: `lerp`, `smoothstep` and `morph`, over exact reals. */
module Interp {

  /** A point of the plane, `struct point`. */
  datatype Vec2 = Vec2(x: real, y: real) {
    function Add(o: Vec2): Vec2 { Vec2(x + o.x, y + o.y) }
    function Scale(k: real): Vec2 { Vec2(k * x, k * y) }
  }

  function Min(a: real, b: real): real { if a <= b then a else b }
  function Max(a: real, b: real): real { if a <= b then b else a }

  /** `lerp`: the point a fraction `t` of the way from `a` to `b`. */
  function Lerp(a: real, b: real, t: real): (r: real)
    ensures t == 0.0 ==> r == a
    ensures t == 1.0 ==> r == b
  {
    a + (b - a) * t
  }

  lemma MulBetween(d: real, t: real)
    requires 0.0 <= d && 0.0 <= t <= 1.0
    ensures 0.0 <= d * t <= d
  {
    assert d - d * t == d * (1.0 - t);
  }

  lemma MulNonnegReal(a: real, b: real)
    requires 0.0 <= a && 0.0 <= b
    ensures 0.0 <= a * b
  {
  }

  /** For a parameter in [0, 1], `lerp` stays between its two ends. */
  lemma LerpBetween(a: real, b: real, t: real)
    requires 0.0 <= t <= 1.0
    ensures Min(a, b) <= Lerp(a, b, t) <= Max(a, b)
  {
    if a <= b {
      MulBetween(b - a, t);
    } else {
      MulBetween(a - b, t);
    }
  }

  /** `smoothstep`: the cubic ease 3x² − 2x³. */
  function Smoothstep(x: real): (r: real)
    ensures x == 0.0 ==> r == 0.0
    ensures x == 1.0 ==> r == 1.0
  {
    x * x * (3.0 - 2.0 * x)
  }

  /** The ease stays in [0, 1] on [0, 1], and beyond it on [-1/2, 3/2]:
      it turns at 0 and at 1, so a parameter overshooting either end by
      up to a half swings back inside. */
  lemma SmoothstepRange(x: real)
    requires -0.5 <= x <= 1.5
    ensures 0.0 <= Smoothstep(x) <= 1.0
  {
    MulNonnegReal(x * x, 3.0 - 2.0 * x);
    assert 1.0 - Smoothstep(x) == (1.0 - x) * (1.0 - x) * (1.0 + 2.0 * x);
    MulNonnegReal((1.0 - x) * (1.0 - x), 1.0 + 2.0 * x);
  }

  /** The ease never goes backwards on [0, 1]. */
  lemma SmoothstepMonotone(x: real, y: real)
    requires 0.0 <= x <= y <= 1.0
    ensures Smoothstep(x) <= Smoothstep(y)
  {
    var k := SlopeFactor(x, y);
    SmoothstepDifference(x, y);
    MulNonnegReal(y - x, k);
  }

  /** The factor k with S(y) − S(x) = (y − x)·k; it is never negative on [0, 1]. */
  function SlopeFactor(x: real, y: real): (k: real)
    requires 0.0 <= x <= y <= 1.0
    ensures 0.0 <= k
  {
    MulBetween(x, x);
    MulBetween(y, y);
    MulBetween(x, y);
    SquaresBound(x, y, x * x, x * y, y * y);
    3.0 * (x + y) - 2.0 * (x * x + x * y + y * y)
  }

  lemma SquaresBound(x: real, y: real, xx: real, xy: real, yy: real)
    requires x <= y && xx <= x && xy <= x && yy <= y
    ensures 0.0 <= 3.0 * (x + y) - 2.0 * (xx + xy + yy)
  {
  }

  lemma SmoothstepDifference(x: real, y: real)
    requires 0.0 <= x <= y <= 1.0
    ensures Smoothstep(y) - Smoothstep(x) == (y - x) * SlopeFactor(x, y)
  {
  }

  /** The ease is symmetric about the midpoint: easing in mirrors easing out. */
  lemma SmoothstepSymmetric(x: real)
    ensures Smoothstep(1.0 - x) == 1.0 - Smoothstep(x)
  {
    assert (1.0 - x) * (1.0 - x) * (3.0 - 2.0 * (1.0 - x)) == 1.0 - x * x * (3.0 - 2.0 * x);
  }

  /** `morph`: both coordinates interpolated with the eased parameter. */
  function Morph(a: Vec2, b: Vec2, t: real): (r: Vec2)
    ensures t == 0.0 ==> r == a
    ensures t == 1.0 ==> r == b
  {
    Vec2(Lerp(a.x, b.x, Smoothstep(t)), Lerp(a.y, b.y, Smoothstep(t)))
  }

  /** For a parameter in [-1/2, 3/2], and so in particular in [0, 1], the
      morphed point lies in the box spanned by its ends. */
  lemma MorphBetween(a: Vec2, b: Vec2, t: real)
    requires -0.5 <= t <= 1.5
    ensures Min(a.x, b.x) <= Morph(a, b, t).x <= Max(a.x, b.x)
    ensures Min(a.y, b.y) <= Morph(a, b, t).y <= Max(a.y, b.y)
  {
    SmoothstepRange(t);
    LerpBetween(a.x, b.x, Smoothstep(t));
    LerpBetween(a.y, b.y, Smoothstep(t));
  }
}
