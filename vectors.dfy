/**
 * Three-component vectors over the reals, standing in for the `f32` `Vec3` of the
 * game's math library. Rounding, NaN and infinity are not modelled.
 *
 * A square root cannot be defined over `real` here, so every length comparison is
 * made on squared lengths, and normalisation is a function supplied by the caller
 * that obeys `IsNormalizer`.
 */
module Vectors {
  import opened Wrappers

  datatype Vec3 = Vec3(x: real, y: real, z: real)

  const Zero := Vec3(0.0, 0.0, 0.0)
  /** The world's up axis, `Vec3::Y`. */
  const UnitY := Vec3(0.0, 1.0, 0.0)
  /** `Vec3::NEG_Y`. */
  const NegY := Vec3(0.0, -1.0, 0.0)
  /** `Vec3::NEG_Z`. */
  const NegZ := Vec3(0.0, 0.0, -1.0)

  function Add(a: Vec3, b: Vec3): Vec3 {
    Vec3(a.x + b.x, a.y + b.y, a.z + b.z)
  }

  function Sub(a: Vec3, b: Vec3): Vec3 {
    Vec3(a.x - b.x, a.y - b.y, a.z - b.z)
  }

  function Scale(k: real, v: Vec3): Vec3 {
    Vec3(k * v.x, k * v.y, k * v.z)
  }

  function Dot(a: Vec3, b: Vec3): real {
    a.x * b.x + a.y * b.y + a.z * b.z
  }

  function Cross(a: Vec3, b: Vec3): Vec3 {
    Vec3(a.y * b.z - a.z * b.y, a.z * b.x - a.x * b.z, a.x * b.y - a.y * b.x)
  }

  /** A multiple of a vector is parallel to it. */
  lemma CrossScaleSelf(k: real, v: Vec3)
    ensures Cross(Scale(k, v), v) == Zero
  {
    assert (k * v.y) * v.z == (k * v.z) * v.y;
    assert (k * v.z) * v.x == (k * v.x) * v.z;
    assert (k * v.x) * v.y == (k * v.y) * v.x;
  }

  /** The squared Euclidean length: `v.length()` squared. */
  function LengthSq(v: Vec3): real {
    Dot(v, v)
  }

  /** `u` points the same way as `v`: parallel and not opposed. */
  predicate SameDirection(u: Vec3, v: Vec3) {
    Cross(u, v) == Zero && Dot(u, v) > 0.0
  }

  /**
   * What the math library's `normalize` promises for a nonzero argument: a unit
   * vector pointing the same way.
   */
  ghost predicate IsNormalizer(norm: Vec3 -> Vec3) {
    forall v: Vec3 {:trigger norm(v)} :: v != Zero ==> LengthSq(norm(v)) == 1.0 && SameDirection(norm(v), v)
  }

  /** `try_normalize`: no result for the zero vector, the unit vector along `v` otherwise. */
  function TryNormalize(v: Vec3, norm: Vec3 -> Vec3): (r: Option<Vec3>)
    requires IsNormalizer(norm)
    ensures r.None? <==> v == Zero
    ensures r.Some? ==> LengthSq(r.value) == 1.0 && SameDirection(r.value, v)
  {
    if v == Zero then None else Some(norm(v))
  }

  /** Only the zero vector has squared length zero. */
  lemma LengthSqPositive(v: Vec3)
    ensures LengthSq(v) >= 0.0
    ensures LengthSq(v) == 0.0 <==> v == Zero
  {
    SquareSign(v.x);
    SquareSign(v.y);
    SquareSign(v.z);
    assert LengthSq(v) == Sq(v.x) + Sq(v.y) + Sq(v.z);
  }

  function Sq(a: real): real {
    a * a
  }

  /** A square is never negative, and positive away from zero. */
  lemma SquareSign(a: real)
    ensures Sq(a) >= 0.0
    ensures a != 0.0 ==> Sq(a) > 0.0
  {
    if a < 0.0 {
      calc { Sq(a); (-a) * (-a); > 0.0; }
    } else if a > 0.0 {
      calc { Sq(a); a * a; > 0.0; }
    } else {
      calc { Sq(a); 0.0 * 0.0; 0.0; }
    }
  }

  /** Squared lengths scale with the square of the factor. */
  lemma LengthSqScale(k: real, v: Vec3)
    ensures LengthSq(Scale(k, v)) == k * k * LengthSq(v)
  {
  }

  /** The dot product distributes over a difference on the left. */
  lemma DotSub(a: Vec3, b: Vec3, n: Vec3)
    ensures Dot(Sub(a, b), n) == Dot(a, n) - Dot(b, n)
  {
  }

  /** Scaling pulls out of the dot product. */
  lemma DotScale(k: real, a: Vec3, n: Vec3)
    ensures Dot(Scale(k, a), n) == k * Dot(a, n)
  {
  }

  /** Scaling distributes over a difference of factors. */
  lemma ScaleSubFactor(p: real, q: real, n: Vec3)
    ensures Scale(p - q, n) == Sub(Scale(p, n), Scale(q, n))
  {
  }

  /** A strict length bound stated on squares: `|v| < m` exactly when `m > 0` and `|v|^2 < m^2`. */
  predicate LengthBelow(v: Vec3, m: real) {
    m > 0.0 && LengthSq(v) < m * m
  }

  /** `|v| > m` for `m >= 0`, stated on squares. */
  predicate LengthAbove(v: Vec3, m: real)
    requires m >= 0.0
  {
    LengthSq(v) > m * m
  }
}
