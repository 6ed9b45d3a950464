/** Integer lattice geometry shared by the sphere generator and the repair pass.
    Every local position of the sphere is an integer triple (the voxel scale never
    scales it), so positions are modelled as exact integer vectors. */
module Geometry {

  datatype Vec3 = Vec3(x: int, y: int, z: int)

  function Abs(n: int): nat {
    if n < 0 then -n else n
  }

  /** Squared length of a lattice offset; stands for the source's float distance,
      which is its square root and so orders offsets the same way. */
  function SqrMag(p: Vec3): int {
    p.x * p.x + p.y * p.y + p.z * p.z
  }

  /** The octant representative of an offset: every coordinate replaced by its magnitude. */
  function Canonical(p: Vec3): Vec3 {
    Vec3(Abs(p.x), Abs(p.y), Abs(p.z))
  }

  /** The strict interior test `sqrt(x²+y²+z²) < r`, written without the square root:
      it fails for every offset when `r <= 0`. */
  predicate InSphere(p: Vec3, r: int) {
    0 < r && SqrMag(p) < r * r
  }

  /** Two cells share a face: they differ by one unit along exactly one axis. */
  predicate FaceAdjacent(p: Vec3, q: Vec3) {
    Abs(p.x - q.x) + Abs(p.y - q.y) + Abs(p.z - q.z) == 1
  }

  lemma SquareMonotone(a: int, b: int)
    requires 0 <= b <= a
    ensures b * b <= a * a
  {
    assert b * b <= a * b;
    assert a * b <= a * a;
  }

  lemma SqrMagNonNegative(p: Vec3)
    ensures SqrMag(p) >= 0
  {
    assert p.x * p.x >= 0 && p.y * p.y >= 0 && p.z * p.z >= 0;
  }

  /** Reflecting an offset into any octant keeps its squared length. */
  lemma {:induction false} SqrMagCanonical(p: Vec3)
    ensures SqrMag(Canonical(p)) == SqrMag(p)
  {
    assert Abs(p.x) * Abs(p.x) == p.x * p.x;
    assert Abs(p.y) * Abs(p.y) == p.y * p.y;
    assert Abs(p.z) * Abs(p.z) == p.z * p.z;
  }

  /** Every coordinate of an offset strictly inside a sphere of radius r is below r in
      magnitude, so the source's loop bound `t < r` never cuts the sphere. */
  lemma InSphereBounds(p: Vec3, r: int)
    requires InSphere(p, r)
    ensures Abs(p.x) < r && Abs(p.y) < r && Abs(p.z) < r
  {
    SqrMagCanonical(p);
    var c := Canonical(p);
    assert c.x * c.x >= 0 && c.y * c.y >= 0 && c.z * c.z >= 0;
    if r <= c.x { SquareMonotone(c.x, r); }
    if r <= c.y { SquareMonotone(c.y, r); }
    if r <= c.z { SquareMonotone(c.z, r); }
  }
}
