/** The first pass of CalculateSphere (the callback handed to GenerateSphere): every
    emitted voxel the raycast lets through is stored, the others are counted as deleted,
    and the out layer the repair pass starts from is collected. The functions below say
    what that pass leaves behind after a prefix of the emission; the lemmas say what it
    means. */
module FirstPass {
  import opened Geometry
  import opened Voxels
  import opened Store
  import opened Lattice
  import opened Repair

  /** The emitted voxels the raycast lets through, in emission order. */
  function Kept(emitted: seq<Voxel>, rayBlocked: Vec3 -> bool): seq<Voxel> {
    if emitted == [] then []
    else
      var v := emitted[|emitted| - 1];
      Kept(emitted[..|emitted| - 1], rayBlocked) + (if rayBlocked(v.pos) then [] else [v])
  }

  /** The cache after the voxels vs are added to c one by one. */
  function Insert(c: Cache, vs: seq<Voxel>): Cache {
    if vs == [] then c
    else
      var v := vs[|vs| - 1];
      Insert(c, vs[..|vs| - 1])[v.pos := v]
  }

  /** The buckets after the voxels vs are put into o one by one. */
  function PutAll(o: Buckets, vs: seq<Voxel>): Buckets {
    if vs == [] then o
    else Put(PutAll(o, vs[..|vs| - 1]), vs[|vs| - 1])
  }

  /** The out layer and maxRadius after the kept voxels are seen in order, starting from
      an empty layer and maxRadius m0: a voxel farther out than every one before it
      replaces the layer, any other one joins it. */
  function Outermost(kept: seq<Voxel>, m0: int): (int, seq<Voxel>) {
    if kept == [] then (m0, [])
    else
      var (m, out) := Outermost(kept[..|kept| - 1], m0);
      Widen(m, out, kept[|kept| - 1])
  }

  /** One kept voxel seen by the first pass, with maxRadius m and out layer `out`. */
  function Widen(m: int, out: seq<Voxel>, v: Voxel): (int, seq<Voxel>) {
    if v.dist > m then (v.dist, [v]) else (m, out + [v])
  }

  /** maxRadius after the voxels vs are stored, starting from m: each voxel farther out
      than the current value raises it to that voxel's distance. */
  function MaxDist(m: int, vs: seq<Voxel>): int {
    if vs == [] then m
    else
      var d := MaxDist(m, vs[..|vs| - 1]);
      if vs[|vs| - 1].dist > d then vs[|vs| - 1].dist else d
  }

  /** MaxDist is the largest of m and the distances of vs. */
  lemma {:induction false} MaxDistBounds(m: int, vs: seq<Voxel>)
    ensures m <= MaxDist(m, vs)
    ensures forall v :: v in vs ==> v.dist <= MaxDist(m, vs)
    ensures MaxDist(m, vs) == m || exists v :: v in vs && v.dist == MaxDist(m, vs)
    decreases |vs|
  {
    if vs != [] {
      var init, v := vs[..|vs| - 1], vs[|vs| - 1];
      assert vs == init + [v];
      MaxDistBounds(m, init);
      var d := MaxDist(m, init);
      if v.dist <= d && d != m {
        var w :| w in init && w.dist == d;
        assert w in vs;
      }
    }
  }

  /** The maxRadius the first pass tracks alongside its out layer is MaxDist. */
  lemma {:induction false} OutermostRadius(kept: seq<Voxel>, m0: int)
    ensures Outermost(kept, m0).0 == MaxDist(m0, kept)
    decreases |kept|
  {
    if kept != [] {
      OutermostRadius(kept[..|kept| - 1], m0);
    }
  }

  /** Storing one more voxel: the cache, the buckets and maxRadius each take one step. */
  lemma StoreOne(c: Cache, o: Buckets, m: int, vs: seq<Voxel>, w: Voxel)
    ensures Insert(c, vs + [w]) == Insert(c, vs)[w.pos := w]
    ensures PutAll(o, vs + [w]) == Put(PutAll(o, vs), w)
    ensures MaxDist(m, vs + [w]) == if w.dist > MaxDist(m, vs) then w.dist else MaxDist(m, vs)
    ensures Positions(vs + [w]) == Positions(vs) + [w.pos]
  {
    assert (vs + [w])[..|vs|] == vs;
    PositionsConcat(vs, [w]);
  }

  /** Storing a then b is storing a + b, for the cache, the buckets and maxRadius. */
  lemma {:induction false} StoreConcat(c: Cache, o: Buckets, m: int, a: seq<Voxel>, b: seq<Voxel>)
    ensures Insert(c, a + b) == Insert(Insert(c, a), b)
    ensures PutAll(o, a + b) == PutAll(PutAll(o, a), b)
    ensures MaxDist(m, a + b) == MaxDist(MaxDist(m, a), b)
    decreases |b|
  {
    if b == [] {
      assert a + b == a;
    } else {
      var init, w := b[..|b| - 1], b[|b| - 1];
      assert a + b == (a + init) + [w] && b == init + [w];
      StoreConcat(c, o, m, a, init);
      StoreOne(c, o, m, a + init, w);
      StoreOne(Insert(c, a), PutAll(o, a), MaxDist(m, a), init, w);
    }
  }

  /** Seeing one more emitted voxel: it is kept iff the raycast lets it through. */
  lemma KeptStep(emitted: seq<Voxel>, i: int, rayBlocked: Vec3 -> bool)
    requires 0 <= i < |emitted|
    ensures Kept(emitted[..i + 1], rayBlocked)
            == Kept(emitted[..i], rayBlocked) + (if rayBlocked(emitted[i].pos) then [] else [emitted[i]])
  {
    assert emitted[..i + 1][..i] == emitted[..i];
  }

  /** Keeping one more voxel stores it, puts it in its bucket and widens the out layer. */
  lemma KeepOne(c: Cache, o: Buckets, kept: seq<Voxel>, m0: int, v: Voxel)
    ensures Insert(c, kept + [v]) == Insert(c, kept)[v.pos := v]
    ensures PutAll(o, kept + [v]) == Put(PutAll(o, kept), v)
    ensures Outermost(kept + [v], m0) == Widen(Outermost(kept, m0).0, Outermost(kept, m0).1, v)
  {
    assert (kept + [v])[..|kept|] == kept;
  }

  /** Keeping never adds voxels. */
  lemma {:induction false} KeptLength(emitted: seq<Voxel>, rayBlocked: Vec3 -> bool)
    ensures |Kept(emitted, rayBlocked)| <= |emitted|
    decreases |emitted|
  {
    if emitted != [] {
      KeptLength(emitted[..|emitted| - 1], rayBlocked);
    }
  }

  /** A voxel is kept exactly when it was emitted and the raycast does not block it. */
  lemma {:induction false} KeptMembers(emitted: seq<Voxel>, rayBlocked: Vec3 -> bool)
    ensures forall v :: v in Kept(emitted, rayBlocked) <==> v in emitted && !rayBlocked(v.pos)
    decreases |emitted|
  {
    if emitted != [] {
      var init, v := emitted[..|emitted| - 1], emitted[|emitted| - 1];
      KeptMembers(init, rayBlocked);
      assert emitted == init + [v];
    }
  }

  /** Keeping never reorders, so distinct positions stay distinct. */
  lemma {:induction false} KeptNoDup(emitted: seq<Voxel>, rayBlocked: Vec3 -> bool)
    requires NoDup(Positions(emitted))
    ensures NoDup(Positions(Kept(emitted, rayBlocked)))
    decreases |emitted|
  {
    if emitted != [] {
      var init, v := emitted[..|emitted| - 1], emitted[|emitted| - 1];
      var a := Kept(init, rayBlocked);
      assert emitted == init + [v];
      PositionsConcat(init, [v]);
      NoDupSnoc(Positions(init), v.pos);
      KeptNoDup(init, rayBlocked);
      if rayBlocked(v.pos) {
        assert Kept(emitted, rayBlocked) == a;
      } else {
        assert v.pos !in Positions(a) by {
          KeptMembers(init, rayBlocked);
          forall i | 0 <= i < |a| ensures Positions(a)[i] != v.pos {
            var k :| 0 <= k < |init| && init[k] == a[i];
            assert Positions(init)[k] == a[i].pos;
          }
        }
        NoDupSnoc(Positions(a), v.pos);
        PositionsConcat(a, [v]);
        assert Kept(emitted, rayBlocked) == a + [v];
      }
    }
  }

  /** Inserting voxels leaves the cache holding exactly c's positions and theirs;
      entries of c at other positions are untouched. */
  lemma {:induction false} InsertKeys(c: Cache, vs: seq<Voxel>)
    ensures forall p :: p in Insert(c, vs) <==> p in c || p in Positions(vs)
    ensures forall p :: p in c && p !in Positions(vs) ==> Insert(c, vs)[p] == c[p]
    decreases |vs|
  {
    if vs != [] {
      var init, v := vs[..|vs| - 1], vs[|vs| - 1];
      assert vs == init + [v];
      PositionsConcat(init, [v]);
      InsertKeys(c, init);
      var m := Insert(c, init);
      assert Insert(c, vs) == m[v.pos := v];
      forall p ensures p in m[v.pos := v] <==> p in c || p in Positions(vs) {
        assert p in Positions(vs) <==> p in Positions(init) || p == v.pos;
      }
      forall p | p in c && p !in Positions(vs) ensures m[v.pos := v][p] == c[p] {
        assert p != v.pos && p !in Positions(init);
      }
    }
  }

  /** When every inserted voxel is as the constructor made it, each new entry is the
      constructor voxel for its position. */
  lemma {:induction false} InsertValues(c: Cache, vs: seq<Voxel>)
    requires forall v :: v in vs ==> v == NewVoxel(v.pos, SqrMag(v.pos))
    ensures forall p :: p in Insert(c, vs) && p !in c ==> Insert(c, vs)[p] == NewVoxel(p, SqrMag(p))
    decreases |vs|
  {
    if vs != [] {
      var init, v := vs[..|vs| - 1], vs[|vs| - 1];
      assert vs == init + [v];
      PositionsConcat(init, [v]);
      InsertValues(c, init);
    }
  }

  /** Inserting voxels at distinct new positions grows the cache by one entry each. */
  lemma {:induction false} InsertSize(c: Cache, vs: seq<Voxel>)
    requires NoDup(Positions(vs)) && forall v :: v in vs ==> v.pos !in c
    ensures |Insert(c, vs)| == |c| + |vs|
    decreases |vs|
  {
    if vs != [] {
      var init, v := vs[..|vs| - 1], vs[|vs| - 1];
      assert forall w :: w in init ==> w in vs;
      assert NoDup(Positions(init)) by {
        forall i, j | 0 <= i < j < |init| ensures Positions(init)[i] != Positions(init)[j] {
          assert Positions(vs)[i] != Positions(vs)[j];
        }
      }
      InsertSize(c, init);
      InsertKeys(c, init);
    }
  }

  /** maxRadius ends at the largest kept distance, or at m0 when none is larger. */
  lemma {:induction false} OutermostMax(kept: seq<Voxel>, m0: int)
    ensures m0 <= Outermost(kept, m0).0
    ensures forall v :: v in kept ==> v.dist <= Outermost(kept, m0).0
    ensures Outermost(kept, m0).0 == m0 || exists v :: v in kept && v.dist == Outermost(kept, m0).0
    decreases |kept|
  {
    if kept != [] {
      var init, v := kept[..|kept| - 1], kept[|kept| - 1];
      assert kept == init + [v];
      OutermostMax(init, m0);
      var m := Outermost(init, m0).0;
      if v.dist <= m && m != m0 {
        var w :| w in init && w.dist == m;
        assert w in kept;
      }
    }
  }

  /** The out layer is the tail of the kept voxels that starts at the first one at the
      final maxRadius: every voxel before it lies strictly closer. When no kept voxel
      lies beyond m0, the out layer is all of them. */
  lemma {:induction false} OutermostTail(kept: seq<Voxel>, m0: int)
    ensures var (m, out) := Outermost(kept, m0);
      |out| <= |kept| && out == kept[|kept| - |out|..]
      && (forall k :: 0 <= k < |kept| - |out| ==> kept[k].dist < m)
      && (m > m0 ==> out != [] && out[0].dist == m)
      && (m == m0 ==> out == kept)
    decreases |kept|
  {
    if kept != [] {
      var init, v := kept[..|kept| - 1], kept[|kept| - 1];
      assert kept == init + [v];
      OutermostTail(init, m0);
      OutermostMax(init, m0);
      var (m, out) := Outermost(init, m0);
      assert Outermost(kept, m0) == Widen(m, out, v);
      if v.dist > m {
        forall k | 0 <= k < |kept| - 1 ensures kept[k].dist < v.dist {
          assert kept[k] in init;
        }
      } else {
        assert kept[|kept| - |out| - 1..] == init[|init| - |out|..] + [v];
      }
    }
  }

  /** A position is among the kept ones exactly when it was emitted and the raycast
      lets it through. */
  lemma KeptPositions(emitted: seq<Voxel>, rayBlocked: Vec3 -> bool)
    ensures forall p :: p in Positions(Kept(emitted, rayBlocked)) <==> p in Positions(emitted) && !rayBlocked(p)
  {
    var kept := Kept(emitted, rayBlocked);
    KeptMembers(emitted, rayBlocked);
    forall p ensures p in Positions(kept) <==> p in Positions(emitted) && !rayBlocked(p) {
      if p in Positions(kept) {
        var i :| 0 <= i < |kept| && Positions(kept)[i] == p;
        assert kept[i] in emitted;
        var j :| 0 <= j < |emitted| && emitted[j] == kept[i];
        assert Positions(emitted)[j] == p;
      }
      if p in Positions(emitted) && !rayBlocked(p) {
        var j :| 0 <= j < |emitted| && Positions(emitted)[j] == p;
        assert emitted[j] in kept;
        var i :| 0 <= i < |kept| && kept[i] == emitted[j];
        assert Positions(kept)[i] == p;
      }
    }
  }

  /** What the first pass leaves in an empty cache: exactly the emitted positions the
      raycast lets through, each with the voxel the constructor made for it. */
  lemma FirstPassStore(emitted: seq<Voxel>, rayBlocked: Vec3 -> bool)
    requires AllFresh(emitted)
    ensures var c := Insert(map[], Kept(emitted, rayBlocked));
      && (forall p :: p in c <==> p in Positions(emitted) && !rayBlocked(p))
      && (forall p :: p in c ==> c[p] == NewVoxel(p, SqrMag(p)))
  {
    KeptMembers(emitted, rayBlocked);
    KeptPositions(emitted, rayBlocked);
    InsertKeys(map[], Kept(emitted, rayBlocked));
    InsertValues(map[], Kept(emitted, rayBlocked));
  }

  /** No voxel the first pass stores lies beyond the maxRadius m it ends with, and unless
      m is still the starting value m0, some stored voxel lies exactly at m. */
  lemma FirstPassBound(emitted: seq<Voxel>, rayBlocked: Vec3 -> bool, m0: int, c: Cache, m: int)
    requires AllFresh(emitted)
    requires c == Insert(map[], Kept(emitted, rayBlocked)) && m == Outermost(Kept(emitted, rayBlocked), m0).0
    ensures forall p :: p in c ==> c[p].dist <= m
    ensures m == m0 || exists p :: p in c && c[p].dist == m
  {
    var kept := Kept(emitted, rayBlocked);
    KeptMembers(emitted, rayBlocked);
    InsertKeys(map[], kept);
    InsertValues(map[], kept);
    OutermostMax(kept, m0);
    forall p | p in c ensures c[p].dist <= m {
      var i :| 0 <= i < |kept| && Positions(kept)[i] == p;
      assert kept[i] in emitted && kept[i] in kept;
    }
    if m != m0 {
      var v :| v in kept && v.dist == m;
      var i :| 0 <= i < |kept| && kept[i] == v;
      assert Positions(kept)[i] == v.pos && v in emitted;
      assert c[v.pos].dist == m;
    }
  }

  /** The out layer the first pass collects is stored. */
  lemma FirstPassLayer(emitted: seq<Voxel>, rayBlocked: Vec3 -> bool, m0: int)
    requires AllFresh(emitted)
    ensures var c := Insert(map[], Kept(emitted, rayBlocked)); var out := Outermost(Kept(emitted, rayBlocked), m0).1;
      forall k :: 0 <= k < |out| ==> out[k].pos in c
  {
    var kept := Kept(emitted, rayBlocked);
    var out := Outermost(kept, m0).1;
    InsertKeys(map[], kept);
    OutermostTail(kept, m0);
    forall k | 0 <= k < |out| ensures out[k].pos in Positions(kept) {
      assert out[k] == kept[|kept| - |out| + k];
      assert Positions(kept)[|kept| - |out| + k] == out[k].pos;
    }
  }

  /** The repair pass starts from a valid state: with only the kept voxels stored, each
      has an order in [0, maxRadius + 1), the first order the repair pass hands out. */
  lemma FirstPassGrown(emitted: seq<Voxel>, rayBlocked: Vec3 -> bool, m0: int, boxBlocked: Vec3 -> bool,
                       c: Cache, m: int)
    requires AllFresh(emitted) && 0 <= m0
    requires c == Insert(map[], Kept(emitted, rayBlocked)) && m == Outermost(Kept(emitted, rayBlocked), m0).0
    ensures Grown(c, RepairLog(c.Keys, map[], [], m + 1), boxBlocked, m + 1)
  {
    FirstPassStore(emitted, rayBlocked);
    assert forall p :: p in c ==> c[p].dist <= m by {
      FirstPassBound(emitted, rayBlocked, m0, c, m);
    }
    assert m0 <= m by {
      OutermostMax(Kept(emitted, rayBlocked), m0);
    }
    forall p | p in c ensures 0 <= c[p].order {
      SqrMagNonNegative(p);
    }
  }

  /** What the first pass of CalculateSphere leaves, started from an empty cache, buckets
      o0 and maxRadius m0, with `emitted` the voxels GenerateSphere emitted: the cache c
      and the buckets o hold the kept voxels, in emission order; maxRadius m is the
      largest of m0 and their distances, and some kept voxel lies at m unless m is m0;
      the cache holds exactly the interior cells the raycast lets through, each as the
      constructor made it; `out` is the out layer and is stored; the deleted count makes
      up the rest of the sphere; and the repair log starts empty, handing out orders
      from m + 1, above every kept order. */
  ghost predicate FirstPassed(r: int, rayBlocked: Vec3 -> bool, boxBlocked: Vec3 -> bool, m0: int, o0: Buckets,
                              emitted: seq<Voxel>, c: Cache, o: Buckets, m: int, out: seq<Voxel>, deleted: int,
                              log: RepairLog) {
    Positions(emitted) == SpherePoints(r) && AllFresh(emitted)
    && c == Insert(map[], Kept(emitted, rayBlocked)) && o == PutAll(o0, Kept(emitted, rayBlocked))
    && m == MaxDist(m0, Kept(emitted, rayBlocked)) && out == Outermost(Kept(emitted, rayBlocked), m0).1
    && (forall p :: p in c ==> c[p].dist <= m)
    && (m == m0 || exists p :: p in c && c[p].dist == m)
    && (forall p :: p in c <==> InSphere(p, r) && !rayBlocked(p))
    && (forall p :: p in c ==> c[p] == NewVoxel(p, SqrMag(p)))
    && Cached(out, c)
    && 0 <= deleted && |c| + deleted == |SpherePoints(r)|
    && log == RepairLog(c.Keys, map[], [], m + 1) && Grown(c, log, boxBlocked, m + 1)
  }

  /** The first pass over the sphere's cells leaves what FirstPassed describes. */
  lemma FirstPassState(r: int, rayBlocked: Vec3 -> bool, boxBlocked: Vec3 -> bool, m0: int, o0: Buckets,
                       emitted: seq<Voxel>, c: Cache, o: Buckets, m: int, out: seq<Voxel>, deleted: int)
    requires Positions(emitted) == SpherePoints(r) && AllFresh(emitted) && 0 <= m0
    requires c == Insert(map[], Kept(emitted, rayBlocked)) && o == PutAll(o0, Kept(emitted, rayBlocked))
    requires (m, out) == Outermost(Kept(emitted, rayBlocked), m0)
    requires deleted == |emitted| - |Kept(emitted, rayBlocked)|
    ensures FirstPassed(r, rayBlocked, boxBlocked, m0, o0, emitted, c, o, m, out, deleted,
                        RepairLog(c.Keys, map[], [], m + 1))
  {
    var kept := Kept(emitted, rayBlocked);
    SpherePointsExact(r);
    OutermostRadius(kept, m0);
    FirstPassStore(emitted, rayBlocked);
    assert 0 <= deleted && |c| + deleted == |SpherePoints(r)| by {
      KeptNoDup(emitted, rayBlocked);
      KeptLength(emitted, rayBlocked);
      InsertSize(map[], kept);
    }
    FirstPassLayer(emitted, rayBlocked, m0);
    FirstPassBound(emitted, rayBlocked, m0, c, m);
    FirstPassGrown(emitted, rayBlocked, m0, boxBlocked, c, m);
  }
}
