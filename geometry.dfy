// Plane vectors, the floating-point remainder, and the platform primitives
// (trigonometry, logarithm, square root, screen bounds) the model keeps abstract.

module Geometry {

  /** A point or displacement on the play field (quicksilver's `Vector`). */
  datatype Vec = Vec(x: real, y: real) {
    function Plus(o: Vec): Vec { Vec(x + o.x, y + o.y) }
    function Minus(o: Vec): Vec { Vec(x - o.x, y - o.y) }
    function Times(c: real): Vec { Vec(c * x, c * y) }
    /** Squared Euclidean length (`len2`). */
    function Len2(): real { x * x + y * y }
  }

  const ZERO: Vec := Vec(0.0, 0.0)
  const ONE: Vec := Vec(1.0, 1.0)

  /** Everything the core takes from outside itself and that the model
      does not define: the screen size `SIZE`, the `in_screen` bounds test,
      `Vector::angle` / `Vector::from_angle` (in degrees), `f32::log2`,
      `f32::sqrt`, and the shot speed constant `SHOT_SPEED`. */
  datatype Env = Env(
    size: Vec,
    inScreen: Vec -> bool,
    angleOf: Vec -> real,
    fromAngle: real -> Vec,
    log2: real -> real,
    sqrt: real -> real,
    shotSpeed: real)

  /** `from_angle` returns unit vectors. */
  ghost predicate UnitCircle(env: Env) {
    forall a: real :: env.fromAngle(a).Len2() == 1.0
  }

  /** Circle overlap as the enemy tests it: `(p - q).len2() < (r + s).powi(2)`. */
  predicate Overlaps(p: Vec, r: real, q: Vec, s: real) {
    p.Minus(q).Len2() < (r + s) * (r + s)
  }

  /** `p.distance(q) < d`, written without the square root: the distance is
      never negative, so it is below `d` exactly when `d` is positive and
      the squared distance is below `d * d`. */
  predicate Closer(p: Vec, q: Vec, d: real) {
    d > 0.0 && p.Minus(q).Len2() < d * d
  }

  function Min(a: real, b: real): real { if a <= b then a else b }

  /** Rounds toward zero, as a float-to-integer step of Rust's `%` does. */
  function Trunc(q: real): int {
    if q >= 0.0 then q.Floor else -((-q).Floor)
  }

  /** Rust's `%` on floats with divisor 360 (every remainder the core
      takes is in degrees): what is left after removing the whole turns of
      the quotient truncated toward zero, so it takes the sign of the
      dividend. */
  function Rem360(x: real): (r: real)
    ensures x >= 0.0 ==> 0.0 <= r < 360.0
    ensures x < 0.0 ==> -360.0 < r <= 0.0
  {
    TruncFraction(x / 360.0);
    x - 360.0 * (Trunc(x / 360.0) as real)
  }

  /** What truncation drops lies in (-1, 1) and has the sign of its argument. */
  lemma TruncFraction(q: real)
    ensures q >= 0.0 ==> 0.0 <= q - Trunc(q) as real < 1.0
    ensures q < 0.0 ==> -1.0 < q - Trunc(q) as real <= 0.0
  {
  }

  /** Scaling a vector scales its squared length by the square of the factor. */
  lemma ScaleLen2(v: Vec, c: real)
    ensures v.Times(c).Len2() == c * c * v.Len2()
  {
    calc {
      v.Times(c).Len2();
      (c * v.x) * (c * v.x) + (c * v.y) * (c * v.y);
      c * c * (v.x * v.x + v.y * v.y);
    }
  }
}
