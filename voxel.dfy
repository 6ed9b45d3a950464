/** The `Voxel` record of VoxelSphere.cs and its six face neighbours. */
module Voxels {
  import opened Geometry

  /** A voxel: its local lattice position, its distance from the centre (squared, see
      Geometry.SqrMag) and the `Order` key that places it in the reveal sequence.
      The source's Voxel is a class, but no voxel is changed after it is stored, so a
      value type is faithful. */
  datatype Voxel = Voxel(pos: Vec3, dist: int, order: int)

  /** The constructor `Voxel(position, voxelDistance)`: a new voxel's order starts equal
      to its distance. */
  function NewVoxel(position: Vec3, distance: int): (v: Voxel)
    ensures v.pos == position && v.dist == distance && v.order == v.dist
  {
    Voxel(position, distance, distance)
  }

  function Positions(vs: seq<Voxel>): (ps: seq<Vec3>)
    ensures |ps| == |vs|
    ensures forall i :: 0 <= i < |vs| ==> ps[i] == vs[i].pos
  {
    seq(|vs|, i requires 0 <= i < |vs| => vs[i].pos)
  }

  lemma PositionsConcat(a: seq<Voxel>, b: seq<Voxel>)
    ensures Positions(a + b) == Positions(a) + Positions(b)
  {
  }

  predicate NoDup<T(==)>(s: seq<T>) {
    forall i, j :: 0 <= i < j < |s| ==> s[i] != s[j]
  }

  /** A list with one more element at its end has no duplicates exactly when the list
      had none and did not hold the element. */
  lemma NoDupSnoc<T>(s: seq<T>, x: T)
    ensures NoDup(s + [x]) <==> NoDup(s) && x !in s
  {
    if NoDup(s + [x]) {
      forall i, j | 0 <= i < j < |s| ensures s[i] != s[j] {
        assert s[i] == (s + [x])[i] && s[j] == (s + [x])[j];
      }
      forall i | 0 <= i < |s| ensures s[i] != x {
        assert s[i] == (s + [x])[i] && x == (s + [x])[|s|];
      }
    }
  }

  /** Unity's unit vectors `up`, `down`, `right`, `left`, `forward`, `back`, in the order
      the neighbour array lists them. */
  function UnitSteps(): seq<Vec3> {
    [Vec3(0, 1, 0), Vec3(0, -1, 0), Vec3(1, 0, 0), Vec3(-1, 0, 0), Vec3(0, 0, 1), Vec3(0, 0, -1)]
  }

  function Add(p: Vec3, d: Vec3): Vec3 {
    Vec3(p.x + d.x, p.y + d.y, p.z + d.z)
  }

  /** GetConnectedVoxels: the six face neighbours of v, in the order of UnitSteps, each a
      fresh voxel whose distance and order are its own squared length. */
  function GetConnectedVoxels(v: Voxel): (r: seq<Voxel>)
    ensures |r| == 6
  {
    var steps := UnitSteps();
    seq(6, k requires 0 <= k < 6 => NewVoxel(Add(v.pos, steps[k]), SqrMag(Add(v.pos, steps[k]))))
  }

  /** GetConnectedVoxels lists exactly the six face-adjacent cells, pairwise distinct and
      none of them v's own, each a fresh voxel. */
  lemma ConnectedVoxelsSound(v: Voxel)
    ensures var r := GetConnectedVoxels(v);
            (forall k :: 0 <= k < 6 ==> r[k] == NewVoxel(r[k].pos, SqrMag(r[k].pos)))
            && (forall q :: q in Positions(r) <==> FaceAdjacent(v.pos, q))
            && NoDup(Positions(r)) && v.pos !in Positions(r)
  {
    var steps := UnitSteps();
    var r := GetConnectedVoxels(v);
    assert Positions(r) == [Add(v.pos, steps[0]), Add(v.pos, steps[1]), Add(v.pos, steps[2]),
                            Add(v.pos, steps[3]), Add(v.pos, steps[4]), Add(v.pos, steps[5])];
  }
}
