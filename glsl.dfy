/**
  The shading-language built-ins the two shaders use, over the reals.

  `mix`, `clamp`, `smoothstep`, `fract` and `floor` follow their definitions in
  section 8.3 of the OpenGL ES Shading Language 1.00 specification. The
  transcendental built-ins (`sin`, `pow`, `distance`) are not defined here:
  they are carried in a `Builtins` value whose `Valid()` predicate states only
  the ranges the shaders rely on.
*/
module Glsl {

  datatype Vec2 = Vec2(x: real, y: real)

  datatype Vec3 = Vec3(x: real, y: real, z: real)

  datatype Rgb = Rgb(r: real, g: real, b: real)

  datatype Rgba = Rgba(rgb: Rgb, a: real)

  /** The transcendental built-ins, abstracted to their ranges. */
  datatype Builtins = Builtins(
    sin: real -> real,
    pow: (real, real) -> real,
    distance: (Vec2, Vec2) -> real)
  {
    ghost predicate Valid() {
      && (forall t :: -1.0 <= sin(t) <= 1.0)
      && (forall x, p :: 0.0 <= x <= 1.0 && 0.0 < p ==> 0.0 <= pow(x, p) <= 1.0)
      && (forall u, v :: 0.0 <= distance(u, v))
    }
  }

  /**
    mix(x, y, a), which the specification defines as x * (1 - a) + y * a; it is
    written here in the equal form x + a * (y - x) (see MixMatchesDefinition).
    For a in [0, 1] the result lies between x and y.
  */
  function Mix(x: real, y: real, a: real): (r: real)
    ensures 0.0 <= a <= 1.0 && x <= y ==> x <= r <= y
    ensures 0.0 <= a <= 1.0 && y <= x ==> y <= r <= x
    ensures a == 0.0 ==> r == x
    ensures a == 1.0 ==> r == y
  {
    MixStep(x, y, a);
    x + a * (y - x)
  }

  /** The step a * (y - x) has the sign of y - x and is no longer than it. */
  lemma MixStep(x: real, y: real, a: real)
    ensures 0.0 <= a <= 1.0 && x <= y ==> 0.0 <= a * (y - x) <= y - x
    ensures 0.0 <= a <= 1.0 && y <= x ==> x - y >= -(a * (y - x)) >= 0.0
  {
    if 0.0 <= a <= 1.0 && x <= y {
      ScaleDifference(a, x, y);
    }
    if 0.0 <= a <= 1.0 && y <= x {
      ScaleDifference(a, y, x);
      assert a * (y - x) == -(a * (x - y));
    }
  }

  lemma MixMatchesDefinition(x: real, y: real, a: real)
    ensures Mix(x, y, a) == x * (1.0 - a) + y * a
  {
  }

  /** A fraction of a non-negative difference lies between zero and the difference. */
  lemma ScaleDifference(a: real, lo: real, hi: real)
    requires 0.0 <= a <= 1.0 && lo <= hi
    ensures 0.0 <= a * (hi - lo) <= hi - lo
  {
    NonnegativeProduct(a, hi - lo);
    NonnegativeProduct(1.0 - a, hi - lo);
    assert (1.0 - a) * (hi - lo) == (hi - lo) - a * (hi - lo);
  }

  /** Scaling a non-negative quantity by a fraction keeps it between zero and itself. */
  lemma ScaleByFraction(d: real, a: real)
    ensures 0.0 <= d && 0.0 <= a <= 1.0 ==> 0.0 <= d * a <= d
  {
    if 0.0 <= d && 0.0 <= a <= 1.0 {
      NonnegativeProduct(d, a);
      NonnegativeProduct(1.0 - a, d);
      assert d - d * a == (1.0 - a) * d;
    }
  }

  lemma NonnegativeProduct(x: real, y: real)
    requires 0.0 <= x && 0.0 <= y
    ensures 0.0 <= x * y
  {
  }

  function ScaleRgb(c: Rgb, k: real): Rgb {
    Rgb(c.r * k, c.g * k, c.b * k)
  }

  /** clamp(x, lo, hi) = min(max(x, lo), hi), defined for lo <= hi. */
  function Clamp(x: real, lo: real, hi: real): (r: real)
    requires lo <= hi
    ensures lo <= r <= hi
    ensures lo <= x <= hi ==> r == x
    ensures x <= lo ==> r == lo
    ensures hi <= x ==> r == hi
  {
    if x < lo then lo else if hi < x then hi else x
  }

  /** The cubic t * t * (3 - 2 t) that smoothstep and the noise weight share. */
  function Hermite(t: real): (h: real)
    ensures 0.0 <= t <= 1.0 ==> 0.0 <= h <= 1.0
    ensures t == 0.0 ==> h == 0.0
    ensures t == 1.0 ==> h == 1.0
  {
    HermiteInUnitRange(t);
    t * t * (3.0 - 2.0 * t)
  }

  lemma HermiteInUnitRange(t: real)
    ensures 0.0 <= t <= 1.0 ==> 0.0 <= t * t * (3.0 - 2.0 * t) <= 1.0
  {
    if 0.0 <= t <= 1.0 {
      HermiteAtLeastZero(t);
      HermiteAtMostOne(t);
    }
  }

  lemma HermiteAtLeastZero(t: real)
    requires 0.0 <= t <= 1.0
    ensures 0.0 <= t * t * (3.0 - 2.0 * t)
  {
    NonnegativeProduct(t, t);
    NonnegativeProduct(t * t, 3.0 - 2.0 * t);
  }

  /** 1 - t * t * (3 - 2 t) = (1 - t)^2 (1 + 2 t), proved from t (1 - t)^2 >= 0. */
  lemma HermiteAtMostOne(t: real)
    requires 0.0 <= t <= 1.0
    ensures t * t * (3.0 - 2.0 * t) <= 1.0
  {
    CubicGap(t);
  }

  lemma CubicGap(t: real)
    requires 0.0 <= t <= 1.0
    ensures 1.0 - 3.0 * t * t + 2.0 * t * t * t >= 0.0
  {
    WeightedSquareGap(t);
    NonnegativeProduct(t, t);
  }

  lemma WeightedSquareGap(t: real)
    requires 0.0 <= t <= 1.0
    ensures 0.0 <= t - 2.0 * t * t + t * t * t
  {
    NonnegativeProduct(1.0 - t, t);
    NonnegativeProduct(1.0 - t, t - t * t);
  }

  /**
    smoothstep(edge0, edge1, x); the result is undefined for edge0 >= edge1,
    so the edges must ascend. Zero at or below edge0, one at or above edge1,
    and in [0, 1] everywhere.
  */
  function Smoothstep(edge0: real, edge1: real, x: real): (r: real)
    requires edge0 < edge1
    ensures 0.0 <= r <= 1.0
    ensures x <= edge0 ==> r == 0.0
    ensures edge1 <= x ==> r == 1.0
  {
    SmoothstepArgument(edge0, edge1, x);
    Hermite(Clamp((x - edge0) / (edge1 - edge0), 0.0, 1.0))
  }

  lemma SmoothstepArgument(edge0: real, edge1: real, x: real)
    requires edge0 < edge1
    ensures x <= edge0 ==> (x - edge0) / (edge1 - edge0) <= 0.0
    ensures edge1 <= x ==> (x - edge0) / (edge1 - edge0) >= 1.0
  {
    if x <= edge0 {
      QuotientOfNonpositive(x - edge0, edge1 - edge0);
    }
    if edge1 <= x {
      QuotientAtLeastOne(x - edge0, edge1 - edge0);
    }
  }

  lemma QuotientOfNonpositive(n: real, d: real)
    requires n <= 0.0 < d
    ensures n / d <= 0.0
  {
  }

  lemma QuotientAtLeastOne(n: real, d: real)
    requires 0.0 < d <= n
    ensures n / d >= 1.0
  {
  }

  function Floor(x: real): real { x.Floor as real }

  /** fract(x) = x - floor(x), in [0, 1). */
  function Fract(x: real): (r: real)
    ensures 0.0 <= r < 1.0
    ensures x == Floor(x) + r
  {
    x - Floor(x)
  }

  function FloorVec(p: Vec2): Vec2 { Vec2(Floor(p.x), Floor(p.y)) }

  function FractVec(p: Vec2): Vec2 { Vec2(Fract(p.x), Fract(p.y)) }

  function Add(p: Vec2, q: Vec2): Vec2 { Vec2(p.x + q.x, p.y + q.y) }

  /** A scalar added to a vector is added to each component. */
  function AddScalar(p: Vec2, s: real): Vec2 { Vec2(p.x + s, p.y + s) }

  function Scale(p: Vec2, k: real): Vec2 { Vec2(p.x * k, p.y * k) }

  function Dot(p: Vec2, q: Vec2): real { p.x * q.x + p.y * q.y }

}
