/** GenerateSphere: the enumeration of the lattice cells strictly inside a sphere.
    The pure functions below restate the loop nest of the source cell by cell, and the
    lemmas prove what it yields: every interior point exactly once and nothing else. */
module Lattice {
  import opened Geometry
  import opened Voxels

  /** The points emitted for one octant representative `t` (all coordinates >= 0), in
      the order of the nested `if`s: a sign is flipped only on a non-zero coordinate. */
  function Reflections(t: Vec3): seq<Vec3> {
    var tx, ty, tz := t.x, t.y, t.z;
    [Vec3(tx, ty, tz)]
    + (if tx != 0 then [Vec3(-tx, ty, tz)] + (if tz != 0 then [Vec3(-tx, ty, -tz)] else []) else [])
    + (if tz != 0 then [Vec3(tx, ty, -tz)] else [])
    + (if ty != 0 then
         [Vec3(tx, -ty, tz)]
         + (if tx != 0 then [Vec3(-tx, -ty, tz)] + (if tz != 0 then [Vec3(-tx, -ty, -tz)] else []) else [])
         + (if tz != 0 then [Vec3(tx, -ty, -tz)] else [])
       else [])
  }

  /** A cell the loops visit: all coordinates >= 0. */
  predicate NonNeg(t: Vec3) {
    t.x >= 0 && t.y >= 0 && t.z >= 0
  }

  /** What the innermost loop body emits for cell t of the sphere of radius r: the
      reflections of t when `sqrt(tx² + ty² + tz²) < r`, nothing otherwise. */
  function CellsOf(r: int): Vec3 -> seq<Vec3> {
    t => if InSphere(t, r) then Reflections(t) else []
  }

  /** What a loop `for (k = 0; k < n; k++)` emits when round k emits blocks(k). */
  function Concat(blocks: nat -> seq<Vec3>, n: nat): seq<Vec3> {
    if n == 0 then [] else Concat(blocks, n - 1) + blocks(n - 1)
  }

  /** Round tz of the `tz` loop emits what cell (tx, ty, tz) emits. `cell` says what the
      loop body emits for one cell; the lemmas below see only the properties of it they
      name. */
  function ZBlocks(cell: Vec3 -> seq<Vec3>, tx: int, ty: int): nat -> seq<Vec3> {
    k => cell(Vec3(tx, ty, k))
  }

  /** Emitted by the `tz` loop after its first n rounds. */
  function ZRun(cell: Vec3 -> seq<Vec3>, tx: int, ty: int, n: nat): seq<Vec3> {
    Concat(ZBlocks(cell, tx, ty), n)
  }

  /** Round ty of the `ty` loop (bound r) runs the whole `tz` loop. */
  function YBlocks(cell: Vec3 -> seq<Vec3>, r: nat, tx: int): nat -> seq<Vec3> {
    k => ZRun(cell, tx, k, r)
  }

  /** Emitted by the `ty` loop (bound r) after its first n rounds. */
  function YRun(cell: Vec3 -> seq<Vec3>, r: nat, tx: int, n: nat): seq<Vec3> {
    Concat(YBlocks(cell, r, tx), n)
  }

  /** Round tx of the `tx` loop (bound r) runs the whole `ty` loop. */
  function XBlocks(cell: Vec3 -> seq<Vec3>, r: nat): nat -> seq<Vec3> {
    k => YRun(cell, r, k, r)
  }

  /** Emitted by the `tx` loop (bound r) after its first n rounds. */
  function XRun(cell: Vec3 -> seq<Vec3>, r: nat, n: nat): seq<Vec3> {
    Concat(XBlocks(cell, r), n)
  }

  /** Everything GenerateSphere(r) emits, in emission order; no loop runs when r <= 0. */
  function SpherePoints(r: int): seq<Vec3> {
    if r <= 0 then [] else XRun(CellsOf(r), r, r)
  }

  /** Every point a visited cell emits has that cell as its octant representative. */
  ghost predicate CellsCanonical(cell: Vec3 -> seq<Vec3>) {
    forall t, p {:trigger p in cell(t)} :: NonNeg(t) && p in cell(t) ==> Canonical(p) == t
  }

  /** No visited cell emits a point twice. */
  ghost predicate CellsNoDup(cell: Vec3 -> seq<Vec3>) {
    forall t :: NonNeg(t) ==> NoDup(cell(t))
  }

  /** Every point of block k has key k. */
  ghost predicate Keyed(blocks: nat -> seq<Vec3>, key: Vec3 -> int) {
    forall k: nat, p {:trigger p in blocks(k)} :: p in blocks(k) ==> key(p) == k
  }

  lemma NoDupConcat<T>(a: seq<T>, b: seq<T>)
    requires NoDup(a) && NoDup(b)
    requires forall x :: x in a ==> x !in b
    ensures NoDup(a + b)
  {
    forall i, j | 0 <= i < j < |a + b| ensures (a + b)[i] != (a + b)[j] {
      if j < |a| {
      } else if i >= |a| {
        assert (a + b)[i] == b[i - |a|] && (a + b)[j] == b[j - |a|];
      } else {
        assert (a + b)[i] in a && (a + b)[j] in b;
      }
    }
  }

  /** The reflections of a representative are exactly the offsets in its octant orbit,
      each listed once: reflecting a zero coordinate is never emitted twice. */
  lemma ReflectionsExact(t: Vec3)
    requires t.x >= 0 && t.y >= 0 && t.z >= 0
    ensures forall p :: p in Reflections(t) <==> Canonical(p) == t
  {
    var tx, ty, tz := t.x, t.y, t.z;
    var xs := if tx == 0 then [0] else [tx, -tx];
    var ys := if ty == 0 then [0] else [ty, -ty];
    var zs := if tz == 0 then [0] else [tz, -tz];
    forall p | Canonical(p) == t ensures p in Reflections(t) {
      assert p.x in xs && p.y in ys && p.z in zs;
    }
    forall p | p in Reflections(t) ensures Canonical(p) == t {
    }
  }

  lemma ReflectionsNoDup(t: Vec3)
    requires t.x >= 0 && t.y >= 0 && t.z >= 0
    ensures NoDup(Reflections(t))
  {
    var tx, ty, tz := t.x, t.y, t.z;
    if tx == 0 {
      if ty == 0 {
        assert Reflections(t) == if tz == 0 then [t] else [t, Vec3(0, 0, -tz)];
      } else if tz == 0 {
        assert Reflections(t) == [t, Vec3(0, -ty, 0)];
      } else {
        assert Reflections(t) == [t, Vec3(0, ty, -tz), Vec3(0, -ty, tz), Vec3(0, -ty, -tz)];
      }
    } else if ty == 0 {
      if tz == 0 {
        assert Reflections(t) == [t, Vec3(-tx, 0, 0)];
      } else {
        assert Reflections(t) == [t, Vec3(-tx, 0, tz), Vec3(-tx, 0, -tz), Vec3(tx, 0, -tz)];
      }
    } else if tz == 0 {
      assert Reflections(t) == [t, Vec3(-tx, ty, 0), Vec3(tx, -ty, 0), Vec3(-tx, -ty, 0)];
    } else {
      assert Reflections(t) == [t, Vec3(-tx, ty, tz), Vec3(-tx, ty, -tz), Vec3(tx, ty, -tz),
                                Vec3(tx, -ty, tz), Vec3(-tx, -ty, tz), Vec3(-tx, -ty, -tz), Vec3(tx, -ty, -tz)];
    }
  }

  /** The cells of the sphere of radius r emit each point once and only from its own
      octant representative. */
  lemma CellsOfSound(r: int)
    ensures CellsCanonical(CellsOf(r)) && CellsNoDup(CellsOf(r))
  {
    forall t, p | NonNeg(t) && p in CellsOf(r)(t) ensures Canonical(p) == t {
      ReflectionsExact(t);
    }
    forall t | NonNeg(t) ensures NoDup(CellsOf(r)(t)) {
      ReflectionsNoDup(t);
    }
  }

  /** When every point of block k has key k, the first n blocks hold exactly the points
      whose key is below n and whose own block holds them. */
  lemma {:induction false} ConcatMembers(blocks: nat -> seq<Vec3>, key: Vec3 -> int, n: nat)
    requires Keyed(blocks, key)
    ensures forall p {:trigger p in Concat(blocks, n)} :: p in Concat(blocks, n) <==>
      (0 <= key(p) < n && p in blocks(key(p)))
  {
    if n > 0 {
      assert Concat(blocks, n) == Concat(blocks, n - 1) + blocks(n - 1);
      ConcatMembers(blocks, key, n - 1);
    }
  }

  /** Keyed blocks that each hold no point twice hold no point twice together. */
  lemma {:induction false} ConcatNoDup(blocks: nat -> seq<Vec3>, key: Vec3 -> int, n: nat)
    requires Keyed(blocks, key)
    requires forall k: nat :: k < n ==> NoDup(blocks(k))
    ensures NoDup(Concat(blocks, n))
  {
    if n > 0 {
      var a, b := Concat(blocks, n - 1), blocks(n - 1);
      ConcatMembers(blocks, key, n - 1);
      ConcatNoDup(blocks, key, n - 1);
      NoDupConcat(a, b);
      assert Concat(blocks, n) == a + b;
    }
  }

  /** The `tz` loop emits exactly the points of column (tx, ty) below the loop count that
      their own cell emits. */
  lemma ZRunMembers(cell: Vec3 -> seq<Vec3>, tx: int, ty: int, n: nat)
    requires 0 <= tx && 0 <= ty && CellsCanonical(cell)
    ensures forall p {:trigger p in ZRun(cell, tx, ty, n)} :: p in ZRun(cell, tx, ty, n) <==>
      (Abs(p.x) == tx && Abs(p.y) == ty && Abs(p.z) < n && p in cell(Canonical(p)))
  {
    var blocks, key := ZBlocks(cell, tx, ty), (p: Vec3) => Abs(p.z);
    forall k: nat, p {:trigger p in blocks(k)} | p in blocks(k) ensures key(p) == k {
      assert Canonical(p) == Vec3(tx, ty, k);
    }
    ConcatMembers(blocks, key, n);
    forall p: Vec3 ensures p in ZRun(cell, tx, ty, n) <==>
      (Abs(p.x) == tx && Abs(p.y) == ty && Abs(p.z) < n && p in cell(Canonical(p)))
    {
      var t := Vec3(tx, ty, Abs(p.z));
      assert blocks(Abs(p.z)) == cell(t);
      if p in cell(t) {
        assert NonNeg(t);
      }
      if Abs(p.x) == tx && Abs(p.y) == ty {
        assert Canonical(p) == t;
      }
    }
  }

  lemma ZRunNoDup(cell: Vec3 -> seq<Vec3>, tx: int, ty: int, n: nat)
    requires 0 <= tx && 0 <= ty && CellsCanonical(cell) && CellsNoDup(cell)
    ensures NoDup(ZRun(cell, tx, ty, n))
  {
    var blocks, key := ZBlocks(cell, tx, ty), (p: Vec3) => Abs(p.z);
    forall k: nat, p {:trigger p in blocks(k)} | p in blocks(k) ensures key(p) == k {
      assert Canonical(p) == Vec3(tx, ty, k);
    }
    forall k: nat | k < n ensures NoDup(blocks(k)) {
      assert NonNeg(Vec3(tx, ty, k));
    }
    ConcatNoDup(blocks, key, n);
  }

  /** The `ty` loop emits exactly the points of slab tx with |y| below the loop count and
      |z| below r that their own cell emits. */
  lemma YRunMembers(cell: Vec3 -> seq<Vec3>, r: nat, tx: int, n: nat)
    requires 0 <= tx && CellsCanonical(cell)
    ensures forall p {:trigger p in YRun(cell, r, tx, n)} :: p in YRun(cell, r, tx, n) <==>
      (Abs(p.x) == tx && Abs(p.y) < n && Abs(p.z) < r && p in cell(Canonical(p)))
  {
    var blocks, key := YBlocks(cell, r, tx), (p: Vec3) => Abs(p.y);
    forall k: nat, p {:trigger p in blocks(k)} | p in blocks(k) ensures key(p) == k {
      ZRunMembers(cell, tx, k, r);
    }
    ConcatMembers(blocks, key, n);
    forall p: Vec3 ensures p in YRun(cell, r, tx, n) <==>
      (Abs(p.x) == tx && Abs(p.y) < n && Abs(p.z) < r && p in cell(Canonical(p)))
    {
      ZRunMembers(cell, tx, Abs(p.y), r);
    }
  }

  lemma YRunNoDup(cell: Vec3 -> seq<Vec3>, r: nat, tx: int, n: nat)
    requires 0 <= tx && CellsCanonical(cell) && CellsNoDup(cell)
    ensures NoDup(YRun(cell, r, tx, n))
  {
    var blocks, key := YBlocks(cell, r, tx), (p: Vec3) => Abs(p.y);
    forall k: nat, p {:trigger p in blocks(k)} | p in blocks(k) ensures key(p) == k {
      ZRunMembers(cell, tx, k, r);
    }
    forall k: nat | k < n ensures NoDup(blocks(k)) {
      ZRunNoDup(cell, tx, k, r);
    }
    ConcatNoDup(blocks, key, n);
  }

  /** The `tx` loop emits exactly the points with |x| below the loop count and |y|, |z|
      below r that their own cell emits. */
  lemma XRunMembers(cell: Vec3 -> seq<Vec3>, r: nat, n: nat)
    requires CellsCanonical(cell)
    ensures forall p {:trigger p in XRun(cell, r, n)} :: p in XRun(cell, r, n) <==>
      (Abs(p.x) < n && Abs(p.y) < r && Abs(p.z) < r && p in cell(Canonical(p)))
  {
    var blocks, key := XBlocks(cell, r), (p: Vec3) => Abs(p.x);
    forall k: nat, p {:trigger p in blocks(k)} | p in blocks(k) ensures key(p) == k {
      YRunMembers(cell, r, k, r);
    }
    ConcatMembers(blocks, key, n);
    forall p: Vec3 ensures p in XRun(cell, r, n) <==>
      (Abs(p.x) < n && Abs(p.y) < r && Abs(p.z) < r && p in cell(Canonical(p)))
    {
      YRunMembers(cell, r, Abs(p.x), r);
    }
  }

  lemma XRunNoDup(cell: Vec3 -> seq<Vec3>, r: nat, n: nat)
    requires CellsCanonical(cell) && CellsNoDup(cell)
    ensures NoDup(XRun(cell, r, n))
  {
    var blocks, key := XBlocks(cell, r), (p: Vec3) => Abs(p.x);
    forall k: nat, p {:trigger p in blocks(k)} | p in blocks(k) ensures key(p) == k {
      YRunMembers(cell, r, k, r);
    }
    forall k: nat | k < n ensures NoDup(blocks(k)) {
      YRunNoDup(cell, r, k, r);
    }
    ConcatNoDup(blocks, key, n);
  }

  /** GenerateSphere(r) emits every integer point with x²+y²+z² < r², exactly once, and
      no other point. */
  lemma SpherePointsExact(r: int)
    ensures forall p :: p in SpherePoints(r) <==> InSphere(p, r)
    ensures NoDup(SpherePoints(r))
  {
    if r > 0 {
      var cell := CellsOf(r);
      CellsOfSound(r);
      XRunMembers(cell, r, r);
      XRunNoDup(cell, r, r);
      forall p: Vec3 ensures p in SpherePoints(r) <==> InSphere(p, r) {
        var t := Canonical(p);
        SqrMagCanonical(p);
        ReflectionsExact(t);
        if InSphere(p, r) {
          InSphereBounds(p, r);
        }
      }
    }
  }

  /** How many signs a coordinate of magnitude n can take. */
  function Signs(n: int): int {
    if n == 0 then 1 else 2
  }

  /** A cell emits one point per sign choice of its non-zero coordinates. */
  lemma ReflectionsLength(t: Vec3)
    ensures |Reflections(t)| == Signs(t.x) * Signs(t.y) * Signs(t.z)
  {
    if t.x == 0 {
      assert Signs(t.x) * Signs(t.y) * Signs(t.z) == Signs(t.y) * Signs(t.z);
    } else {
      assert Signs(t.x) * Signs(t.y) * Signs(t.z) == 2 * Signs(t.y) * Signs(t.z);
    }
  }

  /** For r = 2 the strict test keeps exactly the 27 cells of {-1, 0, 1}³. */
  lemma {:induction false} RadiusTwoCount()
    ensures |SpherePoints(2)| == 27
  {
    var cell := CellsOf(2);
    RadiusTwoColumn(0, 0);
    RadiusTwoColumn(0, 1);
    RadiusTwoColumn(1, 0);
    RadiusTwoColumn(1, 1);
    assert Signs(0) == 1 && Signs(1) == 2;
    assert |YRun(cell, 2, 0, 2)| == 9;
    assert |YRun(cell, 2, 1, 2)| == 18;
  }

  /** The `tz` loop for r = 2: both cells of the column are interior. */
  lemma {:induction false} RadiusTwoColumn(tx: int, ty: int)
    requires 0 <= tx < 2 && 0 <= ty < 2
    ensures |ZRun(CellsOf(2), tx, ty, 2)| == 3 * (Signs(tx) * Signs(ty))
  {
    var cell := CellsOf(2);
    var a := Signs(tx) * Signs(ty);
    assert InSphere(Vec3(tx, ty, 0), 2) && InSphere(Vec3(tx, ty, 1), 2);
    ReflectionsLength(Vec3(tx, ty, 0));
    ReflectionsLength(Vec3(tx, ty, 1));
    assert |cell(Vec3(tx, ty, 0))| == a;
    assert |cell(Vec3(tx, ty, 1))| == a * 2;
    assert ZRun(cell, tx, ty, 1) == [] + cell(Vec3(tx, ty, 0));
  }

  /** The body of the innermost loop for an interior cell (tx, ty, tz): one new voxel per
      reflection, all carrying the cell's squared distance d. */
  method EmitCell(tx: int, ty: int, tz: int, d: int) returns (cell: seq<Voxel>)
    ensures Positions(cell) == Reflections(Vec3(tx, ty, tz))
    ensures forall v :: v in cell ==> v == NewVoxel(v.pos, d)
  {
    cell := [NewVoxel(Vec3(tx, ty, tz), d)];
    if tx != 0 {
      cell := cell + [NewVoxel(Vec3(-tx, ty, tz), d)];
      if tz != 0 {
        cell := cell + [NewVoxel(Vec3(-tx, ty, -tz), d)];
      }
    }
    if tz != 0 {
      cell := cell + [NewVoxel(Vec3(tx, ty, -tz), d)];
    }
    if ty != 0 {
      cell := cell + [NewVoxel(Vec3(tx, -ty, tz), d)];
      if tx != 0 {
        cell := cell + [NewVoxel(Vec3(-tx, -ty, tz), d)];
        if tz != 0 {
          cell := cell + [NewVoxel(Vec3(-tx, -ty, -tz), d)];
        }
      }
      if tz != 0 {
        cell := cell + [NewVoxel(Vec3(tx, -ty, -tz), d)];
      }
    }
  }

  /** Every reflection of t has t's squared length. */
  lemma ReflectionsSqrMag(t: Vec3)
    requires t.x >= 0 && t.y >= 0 && t.z >= 0
    ensures forall p :: p in Reflections(t) ==> SqrMag(p) == SqrMag(t)
  {
    ReflectionsExact(t);
    forall p | p in Reflections(t) ensures SqrMag(p) == SqrMag(t) {
      SqrMagCanonical(p);
    }
  }

  /** Every voxel is as the constructor made it from its own position: distance and order
      both equal its squared length. */
  predicate AllFresh(vs: seq<Voxel>) {
    forall v :: v in vs ==> v == NewVoxel(v.pos, SqrMag(v.pos))
  }

  lemma AllFreshConcat(a: seq<Voxel>, b: seq<Voxel>)
    requires AllFresh(a) && AllFresh(b)
    ensures AllFresh(a + b)
  {
    forall v | v in a + b ensures v == NewVoxel(v.pos, SqrMag(v.pos)) {
      assert v in a || v in b;
    }
  }

  /** One round of the `tz` loop: appending what cell (tx, ty, tz) emits (nothing
      outside the sphere) takes the column from ZRun's first tz cells to its first tz + 1,
      and keeps every voxel fresh. */
  lemma ColumnStep(r: int, tx: int, ty: int, tz: nat, col: seq<Voxel>, cell: seq<Voxel>)
    requires Positions(col) == ZRun(CellsOf(r), tx, ty, tz) && AllFresh(col)
    requires InSphere(Vec3(tx, ty, tz), r) ==>
               (0 <= tx && 0 <= ty && Positions(cell) == Reflections(Vec3(tx, ty, tz))
                && forall v :: v in cell ==> v == NewVoxel(v.pos, SqrMag(Vec3(tx, ty, tz))))
    requires !InSphere(Vec3(tx, ty, tz), r) ==> cell == []
    ensures Positions(col + cell) == ZRun(CellsOf(r), tx, ty, tz + 1) && AllFresh(col + cell)
  {
    assert ZRun(CellsOf(r), tx, ty, tz + 1) == ZRun(CellsOf(r), tx, ty, tz) + CellsOf(r)(Vec3(tx, ty, tz));
    PositionsConcat(col, cell);
    if InSphere(Vec3(tx, ty, tz), r) {
      ReflectionsSqrMag(Vec3(tx, ty, tz));
      forall v | v in cell ensures v == NewVoxel(v.pos, SqrMag(v.pos)) {
        var i :| 0 <= i < |cell| && cell[i] == v;
        assert Positions(cell)[i] == v.pos;
      }
    }
    AllFreshConcat(col, cell);
  }

  /** The `tz` loop for fixed tx, ty: the voxels it emits are ZRun's points, in order. */
  method EmitColumn(r: int, tx: int, ty: int) returns (col: seq<Voxel>)
    requires 0 <= tx < r && 0 <= ty < r
    ensures Positions(col) == ZRun(CellsOf(r), tx, ty, r)
    ensures AllFresh(col)
  {
    col := [];
    var tz := 0;
    while tz < r
      invariant 0 <= tz <= r
      invariant Positions(col) == ZRun(CellsOf(r), tx, ty, tz)
      invariant AllFresh(col)
    {
      var d := SqrMag(Vec3(tx, ty, tz));
      if InSphere(Vec3(tx, ty, tz), r) {
        var cell := EmitCell(tx, ty, tz, d);
        ColumnStep(r, tx, ty, tz, col, cell);
        col := col + cell;
      } else {
        ColumnStep(r, tx, ty, tz, col, []);
      }
      tz := tz + 1;
    }
  }

  /** The `ty` loop for fixed tx: the voxels it emits are YRun's points, in order. */
  method EmitSlab(r: int, tx: int) returns (slab: seq<Voxel>)
    requires 0 <= tx < r
    ensures Positions(slab) == YRun(CellsOf(r), r, tx, r)
    ensures AllFresh(slab)
  {
    slab := [];
    var ty := 0;
    while ty < r
      invariant 0 <= ty <= r
      invariant Positions(slab) == YRun(CellsOf(r), r, tx, ty)
      invariant AllFresh(slab)
    {
      var col := EmitColumn(r, tx, ty);
      PositionsConcat(slab, col);
      AllFreshConcat(slab, col);
      assert YRun(CellsOf(r), r, tx, ty + 1) == YRun(CellsOf(r), r, tx, ty) + ZRun(CellsOf(r), tx, ty, r);
      slab := slab + col;
      ty := ty + 1;
    }
  }

  /** GenerateSphere (the callback is replaced by the returned list of emitted voxels):
      the nested loops emit exactly SpherePoints(r), in order, each as a new voxel whose
      distance and order are its squared length. SpherePointsExact says what that list is:
      every interior lattice point, once. */
  method GenerateSphere(r: int) returns (out: seq<Voxel>)
    ensures Positions(out) == SpherePoints(r)
    ensures AllFresh(out)
  {
    out := [];
    if r > 0 {
      var tx := 0;
      while tx < r
        invariant 0 <= tx <= r
        invariant Positions(out) == XRun(CellsOf(r), r, tx)
        invariant AllFresh(out)
      {
        var slab := EmitSlab(r, tx);
        PositionsConcat(out, slab);
        AllFreshConcat(out, slab);
        assert XRun(CellsOf(r), r, tx + 1) == XRun(CellsOf(r), r, tx) + YRun(CellsOf(r), r, tx, r);
        out := out + slab;
        tx := tx + 1;
      }
    }
  }
}
