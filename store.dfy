/** The two indexes a VoxelSphere keeps of its voxels: the position-keyed cache
    (`Dictionary<Vector3, Voxel>`) and the `Order`-keyed buckets (`SortedDictionary<float,
    List<Voxel>>`), whose values are visited in ascending key order. */
module Store {
  import opened Geometry
  import opened Voxels

  type Cache = map<Vec3, Voxel>
  type Buckets = map<int, seq<Voxel>>

  /** The bucket for key k, empty when there is none yet. */
  function Bucket(o: Buckets, k: int): seq<Voxel> {
    if k in o then o[k] else []
  }

  /** The bucket insertion of AddVoxel: v goes at the end of the bucket for its order,
      which is created when missing; no other bucket changes. */
  function Put(o: Buckets, v: Voxel): (o': Buckets)
    ensures o'.Keys == o.Keys + {v.order}
    ensures o'[v.order] == Bucket(o, v.order) + [v]
    ensures forall k :: k in o && k != v.order ==> o'[k] == o[k]
  {
    o[v.order := Bucket(o, v.order) + [v]]
  }

  lemma Inhabited(s: set<int>)
    requires s != {}
    ensures exists x :: x in s
  {
    if forall x :: x !in s {
      assert false;
    }
  }

  ghost function MaxKey(ks: set<int>): (k: int)
    requires ks != {}
    ensures k in ks && forall j :: j in ks ==> j <= k
  {
    Inhabited(ks);
    var x :| x in ks;
    if ks == {x} then x
    else
      var m := MaxKey(ks - {x});
      assert forall j :: j in ks ==> j == x || j in ks - {x};
      if m < x then x else m
  }

  ghost function MinKey(ks: set<int>): (k: int)
    requires ks != {}
    ensures k in ks && forall j :: j in ks ==> k <= j
  {
    Inhabited(ks);
    var x :| x in ks;
    if ks == {x} then x
    else
      var m := MinKey(ks - {x});
      assert forall j :: j in ks ==> j == x || j in ks - {x};
      if x < m then x else m
  }

  /** The bucket contents for the keys ks, in ascending key order: the sequence a
      `SortedDictionary` enumeration of those buckets visits. */
  ghost function Flatten(o: Buckets, ks: set<int>): seq<Voxel>
    requires ks <= o.Keys
    decreases ks
  {
    if ks == {} then []
    else
      var k := MaxKey(ks);
      Flatten(o, ks - {k}) + o[k]
  }

  /** Every voxel sits in the bucket of its own order. */
  ghost predicate Keyed(o: Buckets) {
    forall k, v {:trigger v in o[k]} :: k in o && v in o[k] ==> v.order == k
  }

  /** The two indexes agree: each cache entry sits under its own position and in the
      bucket of its own order, each bucketed voxel is the cached voxel for its position,
      and no bucket lists a voxel twice. */
  ghost predicate StoreInv(c: Cache, o: Buckets) {
    (forall p :: p in c ==> c[p].pos == p && c[p].order in o && c[p] in o[c[p].order])
    && Keyed(o)
    && (forall k, v {:trigger v in o[k]} :: k in o && v in o[k] ==> v.pos in c && c[v.pos] == v)
    && (forall k :: k in o ==> NoDup(o[k]))
  }

  predicate SortedByOrder(s: seq<Voxel>) {
    forall i, j :: 0 <= i < j < |s| ==> s[i].order <= s[j].order
  }

  /** The voxels of s whose order is k, in their order in s. */
  function Select(s: seq<Voxel>, k: int): seq<Voxel> {
    if s == [] then []
    else Select(s[..|s| - 1], k) + (if s[|s| - 1].order == k then [s[|s| - 1]] else [])
  }

  lemma {:induction false} SelectConcat(a: seq<Voxel>, b: seq<Voxel>, k: int)
    ensures Select(a + b, k) == Select(a, k) + Select(b, k)
    decreases |b|
  {
    if b != [] {
      var b' := b[..|b| - 1];
      assert (a + b)[..|a + b| - 1] == a + b';
      SelectConcat(a, b', k);
    } else {
      assert a + b == a;
    }
  }

  lemma {:induction false} SelectUniform(s: seq<Voxel>, m: int, k: int)
    requires forall v :: v in s ==> v.order == m
    ensures Select(s, k) == if k == m then s else []
    decreases |s|
  {
    if s != [] {
      var s', v := s[..|s| - 1], s[|s| - 1];
      assert s == s' + [v];
      forall w | w in s' ensures w.order == m {
        assert w in s;
      }
      SelectUniform(s', m, k);
      assert Select(s, k) == Select(s', k) + (if v.order == k then [v] else []);
    }
  }

  /** Enumerating one more key that is above all enumerated so far appends its bucket. */
  lemma FlattenAddMax(o: Buckets, ks: set<int>, k: int)
    requires ks <= o.Keys && k in o
    requires forall j :: j in ks ==> j < k
    ensures Flatten(o, ks + {k}) == Flatten(o, ks) + o[k]
  {
    assert MaxKey(ks + {k}) == k;
    assert ks + {k} - {k} == ks;
  }

  /** One step of the ascending enumeration: with the keys `rest` still to visit, all
      above the visited ones, visiting the least of them appends its bucket. */
  lemma VisitLeast(o: Buckets, rest: set<int>, k: int)
    requires rest <= o.Keys && k in rest && forall j :: j in rest ==> k <= j
    requires forall i, j :: i in o.Keys - rest && j in rest ==> i < j
    ensures Flatten(o, o.Keys - (rest - {k})) == Flatten(o, o.Keys - rest) + o[k]
    ensures forall i, j :: i in o.Keys - (rest - {k}) && j in rest - {k} ==> i < j
  {
    FlattenAddMax(o, o.Keys - rest, k);
    assert o.Keys - rest + {k} == o.Keys - (rest - {k});
  }

  /** The enumeration lists only voxels of visited keys, in non-decreasing order. */
  lemma {:induction false} FlattenSorted(o: Buckets, ks: set<int>)
    requires ks <= o.Keys && Keyed(o)
    ensures forall v :: v in Flatten(o, ks) ==> v.order in ks && v in o[v.order]
    ensures SortedByOrder(Flatten(o, ks))
    decreases ks
  {
    if ks != {} {
      var m := MaxKey(ks);
      var a: seq<Voxel>, b: seq<Voxel> := Flatten(o, ks - {m}), o[m];
      FlattenSorted(o, ks - {m});
      assert Flatten(o, ks) == a + b;
      forall v | v in a + b ensures v.order in ks && v in o[v.order] {
        if v in b {
          assert v.order == m;
        }
      }
      forall i: int, j: int | 0 <= i < j < |a + b| ensures (a + b)[i].order <= (a + b)[j].order {
        if j >= |a| {
          assert (a + b)[j] in b;
          if i < |a| {
            assert (a + b)[i] in a;
          } else {
            assert (a + b)[i] in b;
          }
        }
      }
    }
  }

  /** Within one key, the enumeration keeps the bucket's insertion order: the voxels of
      order k appear exactly as the bucket for k lists them. */
  lemma {:induction false} FlattenSelect(o: Buckets, ks: set<int>, k: int)
    requires ks <= o.Keys && Keyed(o)
    ensures Select(Flatten(o, ks), k) == if k in ks then o[k] else []
    decreases ks
  {
    if ks != {} {
      var m := MaxKey(ks);
      FlattenSelect(o, ks - {m}, k);
      SelectConcat(Flatten(o, ks - {m}), o[m], k);
      SelectUniform(o[m], m, k);
    }
  }

  lemma PutKeyed(o: Buckets, v: Voxel)
    requires Keyed(o)
    ensures Keyed(Put(o, v))
  {
    var o' := Put(o, v);
    forall j: int, w: Voxel | j in o' && w in o'[j] ensures w.order == j {
      if j == v.order && w !in Bucket(o, j) {
        assert w == v;
      } else {
        assert w in o[j];
      }
    }
  }

  lemma PutCached(c: Cache, o: Buckets, v: Voxel)
    requires forall k, w :: k in o && w in o[k] ==> w.pos in c && c[w.pos] == w
    requires v.pos !in c
    ensures var c', o' := c[v.pos := v], Put(o, v);
      forall k, w :: k in o' && w in o'[k] ==> w.pos in c' && c'[w.pos] == w
  {
    var c', o' := c[v.pos := v], Put(o, v);
    forall j: int, w: Voxel | j in o' && w in o'[j] ensures w.pos in c' && c'[w.pos] == w {
      if j == v.order && w !in Bucket(o, j) {
        assert w == v;
      } else {
        assert w in o[j];
      }
    }
  }

  lemma PutNoDup(c: Cache, o: Buckets, v: Voxel)
    requires forall k, w :: k in o && w in o[k] ==> w.pos in c && c[w.pos] == w
    requires forall k :: k in o ==> NoDup(o[k])
    requires v.pos !in c
    ensures var o' := Put(o, v); forall k :: k in o' ==> NoDup(o'[k])
  {
    var o', b := Put(o, v), Bucket(o, v.order);
    assert v !in b;
    forall i, j | 0 <= i < j < |o'[v.order]| ensures o'[v.order][i] != o'[v.order][j] {
      if j == |b| {
        assert o'[v.order][i] in b;
      }
    }
  }

  lemma PutCovers(c: Cache, o: Buckets, v: Voxel)
    requires forall p :: p in c ==> c[p].pos == p && c[p].order in o && c[p] in o[c[p].order]
    requires v.pos !in c
    ensures var c', o' := c[v.pos := v], Put(o, v);
      forall p :: p in c' ==> c'[p].pos == p && c'[p].order in o' && c'[p] in o'[c'[p].order]
  {
    var c', o' := c[v.pos := v], Put(o, v);
    forall p | p in c' ensures c'[p].pos == p && c'[p].order in o' && c'[p] in o'[c'[p].order] {
      if p != v.pos {
        assert c'[p] in o[c[p].order];
        assert c'[p] in Bucket(o, c[p].order);
      }
    }
  }

  /** Inserting a voxel at a new position keeps the two indexes in agreement. */
  lemma PutKeepsStore(c: Cache, o: Buckets, v: Voxel)
    requires StoreInv(c, o) && v.pos !in c
    ensures StoreInv(c[v.pos := v], Put(o, v))
  {
    PutKeyed(o, v);
    PutCached(c, o, v);
    PutNoDup(c, o, v);
    PutCovers(c, o, v);
  }

  /** The enumeration of the keys ks lists exactly the voxels in their buckets, each
      once. */
  lemma {:induction false} FlattenMembers(o: Buckets, ks: set<int>)
    requires ks <= o.Keys && Keyed(o)
    requires forall k :: k in o ==> NoDup(o[k])
    ensures forall v :: v in Flatten(o, ks) <==> v.order in ks && v in o[v.order]
    ensures NoDup(Flatten(o, ks))
    decreases ks
  {
    if ks != {} {
      var m := MaxKey(ks);
      var a: seq<Voxel>, b: seq<Voxel> := Flatten(o, ks - {m}), o[m];
      FlattenMembers(o, ks - {m});
      assert Flatten(o, ks) == a + b;
      forall v ensures v in a + b <==> v.order in ks && v in o[v.order] {
        if v.order == m && v in o[v.order] {
          assert v in b;
        }
      }
      forall i: int, j: int | 0 <= i < j < |a + b| ensures (a + b)[i] != (a + b)[j] {
        if i < |a| && j >= |a| {
          assert (a + b)[i] in a && (a + b)[j] in b;
        }
      }
    }
  }

  /** Enumerating all buckets lists every stored voxel exactly once. */
  lemma FlattenExact(c: Cache, o: Buckets)
    requires StoreInv(c, o)
    ensures forall v :: v in Flatten(o, o.Keys) <==> v.pos in c && c[v.pos] == v
    ensures NoDup(Flatten(o, o.Keys))
  {
    FlattenMembers(o, o.Keys);
  }

  /** A sequence without repeats has as many elements as the set of its elements. */
  lemma {:induction false} NoDupCard<T>(s: seq<T>)
    requires NoDup(s)
    ensures |set x | x in s| == |s|
    decreases |s|
  {
    if s != [] {
      var init, last := s[..|s| - 1], s[|s| - 1];
      assert NoDup(init);
      NoDupCard(init);
      assert last !in init;
      assert (set x | x in s) == (set x | x in init) + {last};
    }
  }

  /** A repeat-free list of exactly the cached voxels has repeat-free positions. */
  lemma ListedPositionsDistinct(c: Cache, s: seq<Voxel>)
    requires forall v :: v in s <==> v.pos in c && c[v.pos] == v
    requires NoDup(s)
    ensures NoDup(Positions(s))
  {
    var ps := Positions(s);
    forall i, j | 0 <= i < j < |ps| ensures ps[i] != ps[j] {
      assert s[i] in s && s[j] in s;
      assert s[i] != s[j];
    }
  }

  /** A list of exactly the cached voxels has exactly the cached positions. */
  lemma ListedPositionsExact(c: Cache, s: seq<Voxel>)
    requires forall p :: p in c ==> c[p].pos == p
    requires forall v :: v in s <==> v.pos in c && c[v.pos] == v
    ensures (set p | p in Positions(s)) == c.Keys
  {
    var ps := Positions(s);
    forall p | p in c ensures p in ps {
      assert c[p] in s;
      var i :| 0 <= i < |s| && s[i] == c[p];
      assert ps[i] == p;
    }
    forall p | p in ps ensures p in c {
      var i :| 0 <= i < |ps| && ps[i] == p;
      assert s[i] in s;
    }
    var keys := set p | p in ps;
    assert forall p :: p in keys <==> p in c.Keys;
  }

  /** Enumerating all buckets yields as many voxels as the cache holds. */
  lemma FlattenCount(c: Cache, o: Buckets)
    requires StoreInv(c, o)
    ensures |Flatten(o, o.Keys)| == |c|
  {
    var s := Flatten(o, o.Keys);
    FlattenExact(c, o);
    ListedPositionsDistinct(c, s);
    ListedPositionsExact(c, s);
    NoDupCard(Positions(s));
  }

  /** The transition list Reset builds from the buckets: every stored voxel exactly once
      and nothing else, as many entries as the cache, in non-decreasing order key, and
      the voxels of each key in the order their bucket received them. */
  lemma TransitionList(c: Cache, o: Buckets)
    requires StoreInv(c, o)
    ensures var s := Flatten(o, o.Keys);
      && (forall v :: v in s <==> v.pos in c && c[v.pos] == v)
      && NoDup(s) && |s| == |c|
      && SortedByOrder(s)
      && (forall k :: Select(s, k) == Bucket(o, k))
  {
    FlattenExact(c, o);
    FlattenCount(c, o);
    FlattenSorted(o, o.Keys);
    forall k ensures Select(Flatten(o, o.Keys), k) == Bucket(o, k) {
      FlattenSelect(o, o.Keys, k);
    }
  }

  /** Every voxel of the layer has its position stored. */
  ghost predicate Cached(layer: seq<Voxel>, c: map<Vec3, Voxel>) {
    forall k :: 0 <= k < |layer| ==> layer[k].pos in c
  }

  lemma CachedGrows(layer: seq<Voxel>, c: map<Vec3, Voxel>, w: Voxel)
    requires Cached(layer, c)
    ensures Cached(layer + [w], c[w.pos := w])
  {
  }

  lemma CachedAppend(a: seq<Voxel>, b: seq<Voxel>, c: map<Vec3, Voxel>)
    requires Cached(a, c) && Cached(b, c)
    ensures Cached(a + b, c)
  {
  }

  lemma CachedPermuted(a: seq<Voxel>, b: seq<Voxel>, c: map<Vec3, Voxel>)
    requires Cached(a, c) && multiset(a) == multiset(b)
    ensures Cached(b, c)
  {
    forall k | 0 <= k < |b| ensures b[k].pos in c {
      assert b[k] in multiset(a);
      var i :| 0 <= i < |a| && a[i] == b[k];
    }
  }
}
