/**
 * src/utils/mathUtils.js: linear interpolation of numbers and of 2-D
 * vectors, and the affine `mapRange` rescaling.
 */
module MathUtils {
  import opened Utils

  /** `lerpScalar(a, b, x)`: the point a fraction `x` of the way from `a` to `b`. */
  function LerpScalar(a: real, b: real, x: real): (r: real)
    ensures x == 0.0 ==> r == a
    ensures x == 1.0 ==> r == b
    ensures a == b ==> r == a
  {
    a + (b - a) * x
  }

  /** For `x` in [0, 1] the interpolated value lies between the two ends. */
  lemma LerpScalarBetween(a: real, b: real, x: real)
    requires 0.0 <= x <= 1.0
    ensures a <= b ==> a <= LerpScalar(a, b, x) <= b
    ensures b <= a ==> b <= LerpScalar(a, b, x) <= a
  {
    if a <= b {
      MulNonNeg(b - a, x);
      MulNonNeg(b - a, 1.0 - x);
      assert (b - a) * (1.0 - x) == (b - a) - (b - a) * x;
    } else {
      MulNonNeg(a - b, x);
      MulNonNeg(a - b, 1.0 - x);
      assert (a - b) * (1.0 - x) == (a - b) - (a - b) * x;
      assert (b - a) * x == -((a - b) * x);
    }
  }

  /** `lerpVec2(a, b, x)`: component-wise `lerpScalar`. */
  function LerpVec2(a: Vec2, b: Vec2, x: real): (r: Vec2)
    ensures r.x == LerpScalar(a.x, b.x, x) && r.y == LerpScalar(a.y, b.y, x)
    ensures x == 0.0 ==> r == a
    ensures x == 1.0 ==> r == b
    ensures a == b ==> r == a
  {
    Vec2(LerpScalar(a.x, b.x, x), LerpScalar(a.y, b.y, x))
  }

  /** The two kinds of value `lerp` accepts: a number or a vector. */
  datatype Lerpable = Num(n: real) | Vec(v: Vec2)

  /**
   * `lerp(a, b, x)`: dispatches on whether `a` is a number. Both ends are
   * taken to be of the same kind, as every caller passes them.
   */
  function Lerp(a: Lerpable, b: Lerpable, x: real): (r: Lerpable)
    requires a.Num? == b.Num?
    ensures r.Num? == a.Num?
    ensures r.Num? ==> r.n == LerpScalar(a.n, b.n, x)
    ensures r.Vec? ==> r.v == LerpVec2(a.v, b.v, x)
    ensures x == 0.0 ==> r == a
    ensures x == 1.0 ==> r == b
    ensures a == b ==> r == a
  {
    if a.Num? then Num(LerpScalar(a.n, b.n, x)) else Vec(LerpVec2(a.v, b.v, x))
  }

  /**
   * `mapRange(v, a, b, c, d)`: rescales `v` from the range [a, b] to the
   * range [c, d]. It divides by `b - a`, so the two ends must differ.
   */
  function MapRange(v: real, a: real, b: real, c: real, d: real): (r: real)
    requires a != b
    ensures v == a ==> r == c
    ensures v == b ==> r == d
  {
    c + (d - c) * ((v - a) / (b - a))
  }

  /** `mapRange` is affine in `v`: differences scale by (d - c) / (b - a). */
  lemma MapRangeAffine(v: real, w: real, a: real, b: real, c: real, d: real)
    requires a != b
    ensures MapRange(w, a, b, c, d) - MapRange(v, a, b, c, d) == (d - c) * ((w - v) / (b - a))
  {
    assert (w - a) / (b - a) - (v - a) / (b - a) == (w - v) / (b - a);
    assert (d - c) * ((w - a) / (b - a)) - (d - c) * ((v - a) / (b - a))
        == (d - c) * ((w - a) / (b - a) - (v - a) / (b - a));
  }

  /** With a < b and c < d, `mapRange` is strictly increasing in `v`. */
  lemma MapRangeIncreasing(v: real, w: real, a: real, b: real, c: real, d: real)
    requires a < b && c < d && v < w
    ensures MapRange(v, a, b, c, d) < MapRange(w, a, b, c, d)
  {
    MapRangeAffine(v, w, a, b, c, d);
    DivPos(w - v, b - a);
    MulPos(d - c, (w - v) / (b - a));
  }

  lemma DivPos(p: real, q: real)
    requires 0.0 < p && 0.0 < q
    ensures 0.0 < p / q
  {
    var r := p / q;
    assert r * q == p;
    if r <= 0.0 {
      MulNonNeg(-r, q);
    }
  }

  /** Interpolation is `mapRange` from the unit range onto [a, b]. */
  lemma LerpIsMapRange(a: real, b: real, x: real)
    ensures LerpScalar(a, b, x) == MapRange(x, 0.0, 1.0, a, b)
  {
    assert (x - 0.0) / (1.0 - 0.0) == x;
  }
}
