/**
 * The plane-projection helper shared by locomotion and NPC steering
 * (`project_onto_plane`, also written inline inside `force_movement`).
 */
module Helpers {
  import opened Vectors

  /** `v.project_onto(n)`: the component of `v` along `n`. */
  function ProjectOnto(v: Vec3, n: Vec3): (r: Vec3)
    requires n != Zero
    ensures Cross(r, n) == Zero
  {
    LengthSqPositive(n);
    Scale(Dot(v, n) / LengthSq(n), n)
  }

  /**
   * `v - v.project_onto(n)`: what is left of `v` in the plane through the origin
   * perpendicular to `n`. With `ProjectOnto` it splits `v` into a part along `n` and
   * a part orthogonal to `n`.
   */
  function ProjectOntoPlane(v: Vec3, n: Vec3): (r: Vec3)
    requires n != Zero
    ensures Add(r, ProjectOnto(v, n)) == v
    ensures Dot(r, n) == 0.0
  {
    LengthSqPositive(n);
    var k := Dot(v, n) / LengthSq(n);
    DotSub(v, Scale(k, n), n);
    DotScale(k, n, n);
    assert k * LengthSq(n) == Dot(v, n);
    Sub(v, ProjectOnto(v, n))
  }

  /**
   * The split is unique: any `r` orthogonal to `n` that differs from `v` by a multiple
   * of `n` is the plane projection of `v`.
   */
  lemma RejectionUnique(v: Vec3, n: Vec3, r: Vec3, k: real)
    requires n != Zero
    requires Dot(r, n) == 0.0 && Sub(v, r) == Scale(k, n)
    ensures r == ProjectOntoPlane(v, n)
  {
    LengthSqPositive(n);
    DotSub(v, r, n);
    DotScale(k, n, n);
    assert k == Dot(v, n) / LengthSq(n);
  }

  /** A vector already in the plane is returned unchanged. */
  lemma ProjectOntoPlaneFixesOrthogonal(v: Vec3, n: Vec3)
    requires n != Zero
    requires Dot(v, n) == 0.0
    ensures ProjectOntoPlane(v, n) == v
  {
    LengthSqPositive(n);
    assert Dot(v, n) / LengthSq(n) == 0.0;
  }

  /** Projecting twice is projecting once. */
  lemma {:induction false} ProjectOntoPlaneIdempotent(v: Vec3, n: Vec3)
    requires n != Zero
    ensures ProjectOntoPlane(ProjectOntoPlane(v, n), n) == ProjectOntoPlane(v, n)
  {
    ProjectOntoPlaneFixesOrthogonal(ProjectOntoPlane(v, n), n);
  }

  /** With the up axis as normal, `(x, y, z)` becomes `(x, 0, z)`: the ground plane. */
  lemma ProjectOntoGround(v: Vec3)
    ensures ProjectOntoPlane(v, UnitY) == Vec3(v.x, 0.0, v.z)
  {
    assert LengthSq(UnitY) == 1.0;
    assert Dot(v, UnitY) == v.y;
  }

  /** Projection onto a plane is linear: it distributes over differences. */
  lemma ProjectOntoPlaneSub(a: Vec3, b: Vec3, n: Vec3)
    requires n != Zero
    ensures ProjectOntoPlane(Sub(a, b), n) == Sub(ProjectOntoPlane(a, n), ProjectOntoPlane(b, n))
  {
    LengthSqPositive(n);
    var l := LengthSq(n);
    var ka, kb := Dot(a, n) / l, Dot(b, n) / l;
    DotSub(a, b, n);
    DivSub(Dot(a, n), Dot(b, n), l);
    assert ProjectOnto(Sub(a, b), n) == Scale(ka - kb, n);
    ScaleSubFactor(ka, kb, n);
  }

  lemma DivSub(p: real, q: real, l: real)
    requires l != 0.0
    ensures (p - q) / l == p / l - q / l
  {
  }
}
