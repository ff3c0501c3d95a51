/**
 * Numbers and vectors. The game computes in IEEE doubles; this model computes in `real`.
 * The browser's transcendental routines (Math.sin, Math.cos, Math.atan2, Math.hypot) and
 * gl-matrix's vec3.normalize are not modelled: they are fields of a `MathLib` value that
 * every operation receives, and only the facts a proof needs are stated about them.
 */
module Numeric {

  /** Math.PI, written out as the decimal expansion of the double. */
  const PI: real := 3.141592653589793

  /** A gl-matrix vec3: position, scale or direction. */
  datatype Vec3 = Vec3(x: real, y: real, z: real)

  /** The routines of Math and gl-matrix the simulation calls. */
  datatype MathLib = MathLib(
    sin: real -> real,
    cos: real -> real,
    atan2: (real, real) -> real,
    hypot: (real, real) -> real,
    hypot3: (real, real, real) -> real,
    normalize: Vec3 -> Vec3)

  /** Math.hypot(dx, dz) is the non-negative square root of dx*dx + dz*dz. */
  ghost predicate HypotSound(m: MathLib) {
    forall a: real, b: real :: 0.0 <= m.hypot(a, b) && m.hypot(a, b) * m.hypot(a, b) == a * a + b * b
  }

  /** Math.atan2 returns an angle in [-PI, PI]. */
  ghost predicate Atan2InRange(m: MathLib) {
    forall y: real, x: real :: -PI <= m.atan2(y, x) <= PI
  }

  /** sin and cos of the same angle satisfy the Pythagorean identity. */
  ghost predicate TrigSound(m: MathLib) {
    forall a: real :: m.sin(a) * m.sin(a) + m.cos(a) * m.cos(a) == 1.0
  }

  /** Math.hypot of three numbers is the non-negative square root of the sum of their squares. */
  ghost predicate Hypot3Sound(m: MathLib) {
    forall a: real, b: real, c: real ::
      0.0 <= m.hypot3(a, b, c) && m.hypot3(a, b, c) * m.hypot3(a, b, c) == a * a + b * b + c * c
  }

  /** vec3.normalize divides a vector of positive length by that length. */
  ghost predicate NormalizeSound(m: MathLib) {
    && Hypot3Sound(m)
    && (forall v: Vec3 {:trigger m.normalize(v)} :: 0.0 < m.hypot3(v.x, v.y, v.z) ==>
          var h := m.hypot3(v.x, v.y, v.z); m.normalize(v) == Vec3(v.x / h, v.y / h, v.z / h))
  }

  /** Math.random(): a stream of draws, each in [0, 1). */
  ghost predicate UnitStream(rand: nat -> real) {
    forall n: nat :: 0.0 <= rand(n) < 1.0
  }

  function Abs(x: real): real {
    if x < 0.0 then -x else x
  }

  /** Math.max on two numbers. */
  function Max(a: real, b: real): real {
    if a < b then b else a
  }

  /** Math.min on two numbers. */
  function Min(a: real, b: real): real {
    if b < a then b else a
  }

  /** Squared horizontal (x, z) distance between two points. */
  function Dist2(p: Vec3, q: Vec3): real {
    (p.x - q.x) * (p.x - q.x) + (p.z - q.z) * (p.z - q.z)
  }

  /** Squaring is monotone on the non-negative reals. */
  lemma SquareMonotone(a: real, b: real)
    requires 0.0 <= a <= b
    ensures a * a <= b * b
  {
    assert a * a <= a * b;
    assert a * b <= b * b;
  }

  /** Squares are non-negative, and positive away from zero. */
  lemma SquareSign(a: real)
    ensures 0.0 <= a * a
    ensures a != 0.0 ==> 0.0 < a * a
  {
  }

  /** Dividing a vector by its length gives a unit vector. */
  lemma UnitAfterDivide(a: real, b: real, c: real, h: real)
    requires 0.0 < h && h * h == a * a + b * b + c * c
    ensures (a / h) * (a / h) + (b / h) * (b / h) + (c / h) * (c / h) == 1.0
  {
    var u := 1.0 / h;
    assert a / h == a * u && b / h == b * u && c / h == c * u;
    assert u * u * (h * h) == 1.0;
    calc {
      (a * u) * (a * u) + (b * u) * (b * u) + (c * u) * (c * u);
      (a * a + b * b + c * c) * (u * u);
      (h * h) * (u * u);
      1.0;
    }
  }

  /** A ratio of a non-negative number to a larger one lies in [0, 1). */
  lemma RatioBelowOne(d: real, r: real)
    requires 0.0 <= d < r
    ensures 0.0 <= d / r < 1.0
  {
    var q := d / r;
    assert q * r == d;
  }

  /**
   * If a*a + b*b < c*c with c >= 0, each of |a| and |b| is below c, and a point
   * with a == b == 0 satisfies it whenever c > 0.
   */
  lemma SquaresBelow(a: real, b: real, c: real)
    requires 0.0 <= c
    ensures a * a + b * b < c * c ==> Abs(a) < c && Abs(b) < c
    ensures a == 0.0 && b == 0.0 && 0.0 < c ==> a * a + b * b < c * c
  {
    assert Abs(a) * Abs(a) == a * a;
    assert Abs(b) * Abs(b) == b * b;
    assert 0.0 <= a * a && 0.0 <= b * b;
    if c <= Abs(a) {
      SquareMonotone(c, Abs(a));
    }
    if c <= Abs(b) {
      SquareMonotone(c, Abs(b));
    }
    if a == 0.0 && b == 0.0 && 0.0 < c {
      calc {
        a * a + b * b;
        0.0;
      <
        c * c;
      }
    }
  }
}
