/** The VoxelSphere component without its Unity and GPU layers: it voxelises a sphere,
    repairs the cells a scene blocked, orders the stored voxels for the growth animation
    and reveals them one by one in the debug view. */
module Sphere {
  import opened Geometry
  import opened Voxels
  import opened Lattice
  import opened Store
  import opened Connectivity
  import opened Repair
  import opened FirstPass
  import opened Growth

  /** A debug-view entry; only its position is modelled (its colour is random). */
  datatype DebugVoxel = DebugVoxel(pos: Vec3)

  /** Mathf.Clamp on integers. */
  function Clamp(value: int, lo: int, hi: int): (c: int)
    ensures lo <= hi ==> lo <= c <= hi
    ensures lo <= value <= hi ==> c == value
    ensures value < lo ==> c == lo
    ensures lo <= value && hi < value ==> c == hi
  {
    if value < lo then lo else if value > hi then hi else value
  }

  /** The debug entries for the transition list from index `start` up to `stop`
      (exclusive). */
  function Shown(list: seq<Voxel>, start: int, stop: int): (s: seq<DebugVoxel>)
    requires 0 <= start <= stop <= |list|
    decreases stop - start
    ensures |s| == stop - start
    ensures forall k :: 0 <= k < |s| ==> s[k] == DebugVoxel(list[start + k].pos)
  {
    if start == stop then [] else Shown(list, start, stop - 1) + [DebugVoxel(list[stop - 1].pos)]
  }

  /** The reveal bookkeeping of Update: `prev` entries are shown, the k-th of them is
      the list's entry k + 1 (entry 0 is skipped), and `prev` indexes the list. */
  ghost predicate Revealing(list: seq<Voxel>, shown: seq<DebugVoxel>, prev: int) {
    |shown| == prev && (prev == 0 || prev < |list|)
    && forall k :: 0 <= k < prev ==> shown[k] == DebugVoxel(list[k + 1].pos)
  }

  /** Appending to the transition list keeps what has been revealed of it. */
  lemma RevealingAppend(list: seq<Voxel>, extra: seq<Voxel>, shown: seq<DebugVoxel>, prev: int)
    requires Revealing(list, shown, prev)
    ensures Revealing(list + extra, shown, prev)
  {
    forall k | 0 <= k < prev ensures shown[k] == DebugVoxel((list + extra)[k + 1].pos) {
      assert (list + extra)[k + 1] == list[k + 1];
    }
  }

  /** Revealing entry i next, when it is the one after the last shown, keeps the reveal
      bookkeeping with i as the last shown index. */
  lemma RevealingNext(list: seq<Voxel>, shown: seq<DebugVoxel>, prev: int, i: int)
    requires Revealing(list, shown, prev) && i == |shown| + 1 && i < |list|
    ensures Revealing(list, shown + [DebugVoxel(list[i].pos)], i)
  {
  }

  /** The first j neighbours are each stored or box-blocked. */
  ghost predicate Scanned(connected: seq<Voxel>, j: int, c: map<Vec3, Voxel>, boxBlocked: Vec3 -> bool)
    requires 0 <= j <= |connected|
  {
    forall k :: 0 <= k < j ==> connected[k].pos in c || boxBlocked(connected[k].pos)
  }

  lemma ScannedNext(connected: seq<Voxel>, j: int, c: map<Vec3, Voxel>, boxBlocked: Vec3 -> bool)
    requires 0 <= j < |connected| && Scanned(connected, j, c, boxBlocked)
    requires connected[j].pos in c || boxBlocked(connected[j].pos)
    ensures Scanned(connected, j + 1, c, boxBlocked)
  {
  }

  /** Storing neighbour j itself extends the scan past it. */
  lemma ScannedStore(connected: seq<Voxel>, j: int, c: map<Vec3, Voxel>, boxBlocked: Vec3 -> bool, w: Voxel)
    requires 0 <= j < |connected| && Scanned(connected, j, c, boxBlocked) && connected[j].pos == w.pos
    ensures Scanned(connected, j + 1, c[w.pos := w], boxBlocked)
  {
  }

  /** Positions of later emitted voxels stay fresh once voxel i is stored. */
  lemma FreshAfter(emitted: seq<Voxel>, i: int, c: map<Vec3, Voxel>)
    requires 0 <= i < |emitted| && NoDup(Positions(emitted))
    requires forall k :: i <= k < |emitted| ==> emitted[k].pos !in c
    ensures forall k :: i < k < |emitted| ==> emitted[k].pos !in c[emitted[i].pos := emitted[i]]
  {
    forall k | i < k < |emitted| ensures emitted[k].pos != emitted[i].pos {
      assert Positions(emitted)[i] != Positions(emitted)[k];
    }
  }

  lemma ConnectedAdjacent(u: Voxel)
    ensures forall k :: 0 <= k < 6 ==> FaceAdjacent(u.pos, GetConnectedVoxels(u)[k].pos)
  {
    var connected := GetConnectedVoxels(u);
    ConnectedVoxelsSound(u);
    forall k | 0 <= k < 6 ensures FaceAdjacent(u.pos, connected[k].pos) {
      assert connected[k].pos == Positions(connected)[k];
    }
  }

  /** When all six neighbours GetConnectedVoxels lists are stored or box-blocked, u is
      enclosed. */
  lemma ScannedEnclosed(u: Voxel, c: map<Vec3, Voxel>, boxBlocked: Vec3 -> bool)
    requires Scanned(GetConnectedVoxels(u), 6, c, boxBlocked)
    ensures Enclosed(u, c, boxBlocked)
  {
    var connected := GetConnectedVoxels(u);
    ConnectedVoxelsSound(u);
    forall q | FaceAdjacent(u.pos, q) ensures q in c || boxBlocked(q) {
      var k :| 0 <= k < 6 && Positions(connected)[k] == q;
      assert connected[k].pos == q;
    }
  }

  /** The state of RepairPass's loop, in a store (c, o, m) with repair log `log`: since
      the state (c0, o0, m0, log0) the pass started from, with deleted0 deletions left and
      order0 the next order, it stored `stored`, grown from voxels of `layer + stored` and
      numbered from order0, in the breadth-first `rounds`; `current` is their frontier,
      `deleted` deletions are left and `order` is the next order. */
  ghost predicate PassState(c: Cache, o: Buckets, m: int, log: RepairLog, layer: seq<Voxel>,
                            rounds: seq<seq<Voxel>>, stored: seq<Voxel>, current: seq<Voxel>,
                            boxBlocked: Vec3 -> bool, total: int, deleted: int, order: int,
                            c0: Cache, o0: Buckets, m0: int, log0: RepairLog, deleted0: int, order0: int)
  {
    StoreInv(c, o) && Grown(c, log, boxBlocked, order)
    && 0 <= deleted && |c| + deleted == total
    && Cached(current, c) && Extends(c0, c) && log.kept == log0.kept
    && c == Insert(c0, stored) && o == PutAll(o0, stored) && m == MaxDist(m0, stored)
    && RepairedFrom(log0, log, stored, layer + stored) && Numbered(stored, order0)
    && order == order0 + |stored| && deleted == deleted0 - |stored|
    && (forall x :: x in current ==> x in layer + stored)
    && BreadthFirst(layer, rounds, c0, boxBlocked, deleted0, order0) && stored == Joined(rounds)
    && current == Frontier(layer, rounds)
  }

  /** RepairPass's loop state on entry: nothing stored yet, the whole layer is the
      frontier. */
  lemma PassStarts(c: Cache, o: Buckets, m: int, log: RepairLog, layer: seq<Voxel>, boxBlocked: Vec3 -> bool,
                   total: int, deleted: int, order: int)
    requires StoreInv(c, o) && Grown(c, log, boxBlocked, order)
    requires 0 <= deleted && |c| + deleted == total && Cached(layer, c)
    ensures PassState(c, o, m, log, layer, [], [], layer, boxBlocked, total, deleted, order,
                      c, o, m, log, deleted, order)
  {
    RepairedFromNone(log, layer + []);
  }

  /** RepairPass's loop state once no deletion is left, or a round stored nothing with
      everything enclosed: what the repair pass promises. */
  lemma PassEnded(c: Cache, o: Buckets, m: int, log: RepairLog, layer: seq<Voxel>, rounds: seq<seq<Voxel>>,
                  stored: seq<Voxel>, current: seq<Voxel>, boxBlocked: Vec3 -> bool, total: int,
                  remaining: int, next: int, c0: Cache, o0: Buckets, m0: int, log0: RepairLog,
                  deleted: int, order: int)
    requires PassState(c, o, m, log, layer, rounds, stored, current, boxBlocked, total, remaining, next,
                       c0, o0, m0, log0, deleted, order)
    requires remaining <= 0 || (rounds != [] && current == [] && EachEnclosed(layer + stored, c, boxBlocked))
    ensures StoreInv(c, o) && Grown(c, log, boxBlocked, log.base + |log.repaired|)
    ensures 0 <= remaining && |c| + remaining == total
    ensures Extends(c0, c) && log.kept == log0.kept
    ensures remaining > 0 ==> EachEnclosed(layer + stored, c, boxBlocked)
    ensures c == Insert(c0, stored) && o == PutAll(o0, stored) && m == MaxDist(m0, stored)
    ensures RepairedFrom(log0, log, stored, layer + stored) && Numbered(stored, order)
    ensures remaining == deleted - |stored|
    ensures Repaired(layer, rounds, c0, boxBlocked, deleted, order) && stored == Joined(rounds)
  {
    GrownNext(c, log, boxBlocked, next);
  }

  /** The layer a round grows from, and the voxels it stores, are among the first
      layer and the voxels stored so far. */
  lemma LayersWithin(current: seq<Voxel>, layer: seq<Voxel>, stored: seq<Voxel>, newLayer: seq<Voxel>)
    requires forall x :: x in current ==> x in layer + stored
    ensures forall x :: x in current ==> x in layer + (stored + newLayer)
    ensures forall x :: x in layer + stored ==> x in layer + (stored + newLayer)
    ensures forall x :: x in newLayer ==> x in layer + (stored + newLayer)
  {
  }

  class VoxelSphere {
    /** m_voxelsCache */
    var cache: map<Vec3, Voxel>
    /** m_orderedVoxels */
    var ordered: map<int, seq<Voxel>>
    /** m_voxelsToTransition */
    var toTransition: seq<Voxel>
    /** m_debugVoxels */
    var debugVoxels: seq<DebugVoxel>
    /** prev_i */
    var prevI: int
    /** maxRadius, in squared units */
    var maxRadius: int

    /** What the two passes of CalculateSphere stored, and from where. */
    ghost var log: RepairLog

    ghost predicate Valid()
      reads this
    {
      StoreInv(cache, ordered) && Revealing(toTransition, debugVoxels, prevI)
    }

    /** The account the repair loops carry: `stored` are the voxels stored since the
        state (c0, o0, m0, log0), in the order stored, numbered from order0 and each grown
        from a voxel of `from`; nothing else changed. */
    ghost predicate Account(c0: Cache, o0: Buckets, m0: int, log0: RepairLog, from: seq<Voxel>,
                            stored: seq<Voxel>, order0: int)
      reads this
    {
      Cached(stored, cache) && Extends(c0, cache) && log.kept == log0.kept
      && cache == Insert(c0, stored) && ordered == PutAll(o0, stored) && maxRadius == MaxDist(m0, stored)
      && RepairedFrom(log0, log, stored, from) && Numbered(stored, order0)
    }

    /** The state of GrowLayer's `i` loop after i voxels of the layer: the account of
        `newLayer` since the state (c0, o0, m0, log0), when deleted0 deletions were left,
        and `newLayer` is the growth of the first i voxels, in scan order. */
    ghost predicate LayerState(layer: seq<Voxel>, i: int, boxBlocked: Vec3 -> bool, total: int,
                               newLayer: seq<Voxel>, deleted: int, order: int, found: bool, end: bool,
                               c0: Cache, o0: Buckets, m0: int, log0: RepairLog, deleted0: int, order0: int)
      reads this
    {
      0 <= i <= |layer| && Cached(layer, c0)
      && StoreInv(cache, ordered) && Grown(cache, log, boxBlocked, order)
      && 0 <= deleted <= deleted0 && |cache| + deleted == total
      && (found <==> deleted < deleted0) && (end <==> deleted == 0)
      && Account(c0, o0, m0, log0, layer, newLayer, order0)
      && (!found ==> cache == c0)
      && (!end ==> AllEnclosed(layer, i, cache, boxBlocked))
      && order == order0 + |newLayer| && deleted == deleted0 - |newLayer|
      && newLayer == LayerGrowth(layer, i, c0, boxBlocked, deleted0, order0)
    }

    /** The field initialisers of the component. */
    constructor ()
      ensures Valid()
      ensures cache == map[] && ordered == map[] && toTransition == [] && debugVoxels == []
      ensures prevI == 0 && maxRadius == 0
    {
      cache := map[];
      ordered := map[];
      toTransition := [];
      debugVoxels := [];
      prevI := 0;
      maxRadius := 0;
      log := RepairLog({}, map[], [], 1);
    }

    /** AddVoxel: `Dictionary.Add` fails on a present key, so the position must be new.
        The voxel is cached under its position and appended to its order's bucket. */
    method AddVoxel(v: Voxel)
      requires StoreInv(cache, ordered) && v.pos !in cache
      modifies this`cache, this`ordered
      ensures cache == old(cache)[v.pos := v]
      ensures ordered == Put(old(ordered), v)
      ensures StoreInv(cache, ordered)
    {
      PutKeepsStore(cache, ordered, v);
      cache := cache[v.pos := v];
      if v.order in ordered {
        ordered := ordered[v.order := ordered[v.order] + [v]];
      } else {
        assert Bucket(ordered, v.order) + [v] == [v];
        ordered := ordered[v.order := [v]];
      }
    }

    /** Lines 184-192 for one neighbour: the neighbour is stored one step further out
        than `parent`, with the next order, and maxRadius grows to cover it. */
    method Attach(n: Voxel, parent: Voxel, ghost boxBlocked: Vec3 -> bool, order: int) returns (w: Voxel)
      requires StoreInv(cache, ordered) && Grown(cache, log, boxBlocked, order)
      requires n.pos !in cache && !boxBlocked(n.pos)
      requires parent.pos in cache && FaceAdjacent(parent.pos, n.pos)
      modifies this`cache, this`ordered, this`log, this`maxRadius
      ensures w == Voxel(n.pos, parent.dist + 1, order)
      ensures StoreInv(cache, ordered) && Grown(cache, log, boxBlocked, order + 1)
      ensures cache == old(cache)[w.pos := w] && ordered == Put(old(ordered), w)
      ensures log == Attached(old(log), w.pos, parent.pos)
      ensures maxRadius == if w.dist > old(maxRadius) then w.dist else old(maxRadius)
    {
      w := Voxel(n.pos, parent.dist + 1, order);
      var c', o', log' := cache[w.pos := w], Put(ordered, w), Attached(log, w.pos, parent.pos);
      AttachKeepsGrown(cache, log, boxBlocked, order, w, parent.pos);
      PutKeepsStore(cache, ordered, w);
      AddVoxel(w);
      log := log';
      if w.dist > maxRadius {
        maxRadius := w.dist;
      }
    }

    /** Attach, keeping the account the repair loops carry: `added` are the voxels
        stored since the state (c0, o0, m0, log0), numbered from order0 and grown from
        voxels of `from`; afterwards the stored neighbour is the last of them. */
    method AttachTracked(n: Voxel, u: Voxel, ghost from: seq<Voxel>, ghost boxBlocked: Vec3 -> bool, order: int,
                         ghost added: seq<Voxel>, ghost c0: Cache, ghost o0: Buckets, ghost m0: int,
                         ghost log0: RepairLog, ghost order0: int, ghost connected: seq<Voxel>, ghost j: int)
      returns (w: Voxel)
      requires StoreInv(cache, ordered) && Grown(cache, log, boxBlocked, order)
      requires n.pos !in cache && !boxBlocked(n.pos)
      requires 0 <= j < |connected| && connected[j].pos == n.pos && Scanned(connected, j, cache, boxBlocked)
      requires u.pos in cache && FaceAdjacent(u.pos, n.pos) && u in from
      requires Cached(added, cache) && Extends(c0, cache)
      requires cache == Insert(c0, added) && ordered == PutAll(o0, added) && maxRadius == MaxDist(m0, added)
      requires RepairedFrom(log0, log, added, from) && Numbered(added, order0) && order == order0 + |added|
      modifies this`cache, this`ordered, this`maxRadius, this`log
      ensures w == Voxel(n.pos, u.dist + 1, order) && |cache| == |old(cache)| + 1
      ensures Scanned(connected, j + 1, cache, boxBlocked) && cache == old(cache)[w.pos := w]
      ensures StoreInv(cache, ordered) && Grown(cache, log, boxBlocked, order + 1)
      ensures Cached(added + [w], cache) && Extends(c0, cache) && log.kept == old(log).kept
      ensures cache == Insert(c0, added + [w]) && ordered == PutAll(o0, added + [w])
              && maxRadius == MaxDist(m0, added + [w])
      ensures RepairedFrom(log0, log, added + [w], from) && Numbered(added + [w], order0)
    {
      ghost var next := Voxel(n.pos, u.dist + 1, order);
      CachedGrows(added, cache, next);
      ExtendsGrows(c0, cache, next);
      StoreOne(c0, o0, m0, added, next);
      RepairedFromOne(log0, log, added, from, next, u);
      NumberedOne(added, order0, next);
      ScannedStore(connected, j, cache, boxBlocked, next);
      w := Attach(n, u, boxBlocked, order);
    }

    /** The repair step for one layer voxel u: each face neighbour that is neither
        stored nor box-blocked is stored; the scan stops early once no deleted cell is
        left to replace. Unless it stopped early, every face neighbour of u is stored or
        box-blocked afterwards. */
    method GrowFrom(u: Voxel, boxBlocked: Vec3 -> bool, deleted: int, order: int, ghost total: int)
      returns (added: seq<Voxel>, deleted': int, order': int, grew: bool, end: bool)
      requires StoreInv(cache, ordered) && Grown(cache, log, boxBlocked, order)
      requires 0 < deleted && |cache| + deleted == total
      requires u.pos in cache
      modifies this`cache, this`ordered, this`maxRadius, this`log
      ensures StoreInv(cache, ordered) && Grown(cache, log, boxBlocked, order')
      ensures 0 <= deleted' <= deleted && |cache| + deleted' == total
      ensures grew <==> deleted' < deleted
      ensures end <==> deleted' == 0
      ensures Cached(added, cache) && Extends(old(cache), cache) && log.kept == old(log).kept
      ensures !grew ==> cache == old(cache) && Enclosed(u, cache, boxBlocked)
      ensures !end ==> Enclosed(u, cache, boxBlocked)
      ensures cache == Insert(old(cache), added) && ordered == PutAll(old(ordered), added)
              && maxRadius == MaxDist(old(maxRadius), added)
      ensures RepairedFrom(old(log), log, added, [u]) && Numbered(added, order)
      ensures order' == order + |added| && deleted' == deleted - |added|
      ensures added == ScanGrowth(u, GetConnectedVoxels(u), 0, old(cache), boxBlocked, deleted, order)
    {
      var connected := GetConnectedVoxels(u);
      ConnectedAdjacent(u);
      added, deleted', order', grew, end := ScanNeighbours(u, connected, boxBlocked, deleted, order, total);
      if !end {
        ScannedEnclosed(u, cache, boxBlocked);
      }
    }

    /** The `j` loop of the repair pass (lines 179-201) over the six neighbours of u. */
    method ScanNeighbours(u: Voxel, connected: seq<Voxel>, boxBlocked: Vec3 -> bool, deleted: int, order: int,
                          ghost total: int)
      returns (added: seq<Voxel>, deleted': int, order': int, grew: bool, end: bool)
      requires StoreInv(cache, ordered) && Grown(cache, log, boxBlocked, order)
      requires 0 < deleted && |cache| + deleted == total
      requires u.pos in cache
      requires |connected| == 6 && forall k :: 0 <= k < 6 ==> FaceAdjacent(u.pos, connected[k].pos)
      modifies this`cache, this`ordered, this`maxRadius, this`log
      ensures StoreInv(cache, ordered) && Grown(cache, log, boxBlocked, order')
      ensures 0 <= deleted' <= deleted && |cache| + deleted' == total
      ensures grew <==> deleted' < deleted
      ensures end <==> deleted' == 0
      ensures Cached(added, cache) && Extends(old(cache), cache) && log.kept == old(log).kept
      ensures !grew ==> cache == old(cache) && Scanned(connected, 6, cache, boxBlocked)
      ensures !end ==> Scanned(connected, 6, cache, boxBlocked)
      ensures cache == Insert(old(cache), added) && ordered == PutAll(old(ordered), added)
        && maxRadius == MaxDist(old(maxRadius), added) && RepairedFrom(old(log), log, added, [u]) && Numbered(added, order)
      ensures order' == order + |added| && deleted' == deleted - |added|
      ensures added == ScanGrowth(u, connected, 0, old(cache), boxBlocked, deleted, order)
    {
      added, deleted', order', grew, end := [], deleted, order, false, false;
      RepairedFromNone(log, [u]);
      ghost var scan := ScanGrowth(u, connected, 0, cache, boxBlocked, deleted, order);
      var j := 0;
      while j < 6 && !end
        invariant 0 <= j <= 6
        invariant StoreInv(cache, ordered) && Grown(cache, log, boxBlocked, order')
        invariant 0 <= deleted' <= deleted && |cache| + deleted' == total
        invariant grew <==> deleted' < deleted
        invariant end <==> deleted' == 0
        invariant u.pos in cache
        invariant Cached(added, cache) && Extends(old(cache), cache) && log.kept == old(log).kept
        invariant !grew ==> cache == old(cache)
        invariant Scanned(connected, j, cache, boxBlocked)
        invariant cache == Insert(old(cache), added) && ordered == PutAll(old(ordered), added)
        && maxRadius == MaxDist(old(maxRadius), added) && RepairedFrom(old(log), log, added, [u]) && Numbered(added, order)
        invariant order' == order + |added| && deleted' == deleted - |added|
        invariant added + ScanGrowth(u, connected, j, cache, boxBlocked, deleted', order') == scan
      {
        added, deleted', order', grew, end := ScanStep(u, connected, j, boxBlocked, deleted, order, total, added, deleted',
                                                       order', grew, old(cache), old(ordered), old(maxRadius), old(log),
                                                       scan);
        j := j + 1;
      }
      assert !end ==> j == 6;
      ScanGrowthDone(u, connected, j, cache, boxBlocked, deleted', order', added, scan);
    }

    /** One round of the `j` loop of ScanNeighbours, for neighbour j of u: the state
        (c0, o0, m0, log0) is the one the scan started from, and `added` what it has
        stored so far. */
    method ScanStep(u: Voxel, connected: seq<Voxel>, j: int, boxBlocked: Vec3 -> bool, deleted: int, order: int,
                    ghost total: int, added: seq<Voxel>, deleted': int, order': int, grew: bool,
                    ghost c0: Cache, ghost o0: Buckets, ghost m0: int, ghost log0: RepairLog, ghost scan: seq<Voxel>)
      returns (added': seq<Voxel>, deleted'': int, order'': int, grew': bool, end': bool)
      requires 0 <= j < 6 && |connected| == 6 && FaceAdjacent(u.pos, connected[j].pos)
      requires StoreInv(cache, ordered) && Grown(cache, log, boxBlocked, order')
      requires 0 < deleted' <= deleted && |cache| + deleted' == total
      requires grew <==> deleted' < deleted
      requires u.pos in cache
      requires Cached(added, cache) && Extends(c0, cache) && log.kept == log0.kept
      requires !grew ==> cache == c0
      requires Scanned(connected, j, cache, boxBlocked)
      requires cache == Insert(c0, added) && ordered == PutAll(o0, added)
        && maxRadius == MaxDist(m0, added) && RepairedFrom(log0, log, added, [u]) && Numbered(added, order)
      requires order' == order + |added| && deleted' == deleted - |added|
      requires added + ScanGrowth(u, connected, j, cache, boxBlocked, deleted', order') == scan
      modifies this`cache, this`ordered, this`maxRadius, this`log
      ensures StoreInv(cache, ordered) && Grown(cache, log, boxBlocked, order'')
      ensures 0 <= deleted'' <= deleted && |cache| + deleted'' == total
      ensures grew' <==> deleted'' < deleted
      ensures end' <==> deleted'' == 0
      ensures Cached(added', cache) && Extends(c0, cache) && log.kept == log0.kept
      ensures !grew' ==> cache == c0
      ensures Scanned(connected, j + 1, cache, boxBlocked)
      ensures cache == Insert(c0, added') && ordered == PutAll(o0, added')
        && maxRadius == MaxDist(m0, added') && RepairedFrom(log0, log, added', [u]) && Numbered(added', order)
      ensures order'' == order + |added'| && deleted'' == deleted - |added'|
      ensures added' + ScanGrowth(u, connected, j + 1, cache, boxBlocked, deleted'', order'') == scan
      ensures connected[j].pos !in old(cache) && !boxBlocked(connected[j].pos) ==>
                added' == added + [Voxel(connected[j].pos, u.dist + 1, order')]
      ensures !(connected[j].pos !in old(cache) && !boxBlocked(connected[j].pos)) ==>
                added' == added && cache == old(cache) && ordered == old(ordered) && maxRadius == old(maxRadius)
                && log == old(log)
    {
      added', deleted'', order'', grew', end' := added, deleted', order', grew, false;
      var n := connected[j];
      if n.pos !in cache && !boxBlocked(n.pos) {
        deleted'', order'' := deleted' - 1, order' + 1;
        ScanGrowthOpen(u, connected, j, cache, boxBlocked, deleted', order', deleted'', order'', added, scan);
        var w := AttachTracked(n, u, [u], boxBlocked, order', added, c0, o0, m0, log0, order, connected, j);
        added' := added + [w];
        grew' := true;
        end' := deleted'' == 0;
        assert Grown(cache, log, boxBlocked, order'');
      } else {
        ScannedNext(connected, j, cache, boxBlocked);
        ScanGrowthSkip(u, connected, j, cache, boxBlocked, deleted', order', added, scan);
        assert Grown(cache, log, boxBlocked, order'');
      }
    }

    /** One round of the `i` loop of GrowLayer, for layer[i]: GrowFrom, keeping the account
        GrowLayer carries. `newLayer` are the voxels stored since the state (c0, o0, m0,
        log0), when deleted0 deletions were left; they are numbered from order0 and grown
        from voxels of the layer. Afterwards what GrowFrom stored follows them, and unless
        no deletion is left, layer[i] is enclosed as well. */
    method LayerStep(layer: seq<Voxel>, i: int, boxBlocked: Vec3 -> bool, ghost total: int,
                     newLayer: seq<Voxel>, deleted: int, order: int, found: bool,
                     ghost c0: Cache, ghost o0: Buckets, ghost m0: int, ghost log0: RepairLog,
                     ghost deleted0: int, ghost order0: int)
      returns (newLayer': seq<Voxel>, deleted': int, order': int, found': bool, end: bool, next: int)
      requires i < |layer|
      requires LayerState(layer, i, boxBlocked, total, newLayer, deleted, order, found, false, c0, o0, m0, log0,
                          deleted0, order0)
      modifies this`cache, this`ordered, this`maxRadius, this`log
      ensures next == i + 1
      ensures LayerState(layer, next, boxBlocked, total, newLayer', deleted', order', found', end, c0, o0, m0, log0,
                         deleted0, order0)
    {
      ghost var c1, log1 := cache, log;
      CachedKept(layer, c0, cache);
      var added, grew;
      added, deleted', order', grew, end := GrowFrom(layer[i], boxBlocked, deleted, order, total);
      StoreConcat(c0, o0, m0, newLayer, added);
      RepairedFromWiden(log1, log, added, [layer[i]], layer);
      RepairedFromTrans(log0, log1, log, newLayer, added, layer);
      NumberedConcat(newLayer, added, order0);
      CachedKept(newLayer, c1, cache);
      CachedAppend(newLayer, added, cache);
      ExtendsTrans(c0, c1, cache);
      next := i + 1;
      LayerGrowthStep(layer, i, c0, boxBlocked, deleted0, order0, newLayer, c1, deleted, order, added, next);
      if !end {
        AllEnclosedStep(layer, i, c1, cache, boxBlocked);
      }
      newLayer', found' := newLayer + added, found || grew;
    }

    /** One round of the repair pass (the `i` loop, lines 178-202): grows from each
        voxel of the layer in turn, collecting what was stored into the next layer, and
        stops as soon as no deleted cell is left. Unless it stopped early, every face
        neighbour of every layer voxel is stored or box-blocked afterwards. The new layer
        is the layer's growth: each voxel's GrowFrom in turn, in scan order. */
    method GrowLayer(layer: seq<Voxel>, boxBlocked: Vec3 -> bool, deleted: int, order: int, ghost total: int)
      returns (newLayer: seq<Voxel>, deleted': int, order': int, found: bool, end: bool)
      requires StoreInv(cache, ordered) && Grown(cache, log, boxBlocked, order)
      requires 0 < deleted && |cache| + deleted == total
      requires Cached(layer, cache)
      modifies this`cache, this`ordered, this`maxRadius, this`log
      ensures StoreInv(cache, ordered) && Grown(cache, log, boxBlocked, order')
      ensures 0 <= deleted' <= deleted && |cache| + deleted' == total
      ensures found <==> deleted' < deleted
      ensures end <==> deleted' == 0
      ensures Cached(newLayer, cache) && Extends(old(cache), cache) && log.kept == old(log).kept
      ensures !found ==> cache == old(cache) && AllEnclosed(layer, |layer|, cache, boxBlocked)
      ensures !end ==> AllEnclosed(layer, |layer|, cache, boxBlocked)
      ensures cache == Insert(old(cache), newLayer) && ordered == PutAll(old(ordered), newLayer)
              && maxRadius == MaxDist(old(maxRadius), newLayer)
      ensures RepairedFrom(old(log), log, newLayer, layer) && Numbered(newLayer, order)
      ensures order' == order + |newLayer| && deleted' == deleted - |newLayer|
      ensures newLayer == LayerGrowth(layer, |layer|, old(cache), boxBlocked, deleted, order)
    {
      newLayer, deleted', order', found, end := [], deleted, order, false, false;
      LayerStarts(layer, boxBlocked, total, deleted, order);
      var i := 0;
      while !end && i < |layer|
        invariant LayerState(layer, i, boxBlocked, total, newLayer, deleted', order', found, end, old(cache),
                             old(ordered), old(maxRadius), old(log), deleted, order)
      {
        newLayer, deleted', order', found, end, i := LayerStep(layer, i, boxBlocked, total, newLayer, deleted', order',
                                                               found, old(cache), old(ordered), old(maxRadius),
                                                               old(log), deleted, order);
      }
      LayerEnded(layer, i, boxBlocked, total, newLayer, deleted', order', found, end, old(cache), old(ordered),
                 old(maxRadius), old(log), deleted, order);
    }

    /** GrowLayer's loop state on entry: nothing grown yet. */
    lemma LayerStarts(layer: seq<Voxel>, boxBlocked: Vec3 -> bool, total: int, deleted: int, order: int)
      requires StoreInv(cache, ordered) && Grown(cache, log, boxBlocked, order)
      requires 0 < deleted && |cache| + deleted == total
      requires Cached(layer, cache)
      ensures LayerState(layer, 0, boxBlocked, total, [], deleted, order, false, false, cache, ordered, maxRadius,
                         log, deleted, order)
    {
      RepairedFromNone(log, layer);
    }

    /** GrowLayer's loop state once no deletion is left or the whole layer was grown
        from: what GrowLayer promises. */
    lemma LayerEnded(layer: seq<Voxel>, i: int, boxBlocked: Vec3 -> bool, total: int, newLayer: seq<Voxel>,
                     deleted: int, order: int, found: bool, end: bool, c0: Cache, o0: Buckets, m0: int,
                     log0: RepairLog, deleted0: int, order0: int)
      requires LayerState(layer, i, boxBlocked, total, newLayer, deleted, order, found, end, c0, o0, m0, log0,
                          deleted0, order0)
      requires 0 < deleted0 && (end || i == |layer|)
      ensures StoreInv(cache, ordered) && Grown(cache, log, boxBlocked, order)
      ensures 0 <= deleted <= deleted0 && |cache| + deleted == total
      ensures found <==> deleted < deleted0
      ensures end <==> deleted == 0
      ensures Cached(newLayer, cache) && Extends(c0, cache) && log.kept == log0.kept
      ensures !found ==> cache == c0 && AllEnclosed(layer, |layer|, cache, boxBlocked)
      ensures !end ==> AllEnclosed(layer, |layer|, cache, boxBlocked)
      ensures cache == Insert(c0, newLayer) && ordered == PutAll(o0, newLayer)
              && maxRadius == MaxDist(m0, newLayer)
      ensures RepairedFrom(log0, log, newLayer, layer) && Numbered(newLayer, order0)
      ensures order == order0 + |newLayer| && deleted == deleted0 - |newLayer|
      ensures newLayer == LayerGrowth(layer, |layer|, c0, boxBlocked, deleted0, order0)
    {
      if i < |layer| {
        LayerGrowthDone(layer, i, c0, boxBlocked, deleted0, order0);
      }
    }

    /** The callback of the first pass for one emitted voxel (lines 153-165): a voxel the
        raycast lets through is stored and widens maxRadius and the out layer; a blocked
        one is counted as deleted. */
    method Visit(v: Voxel, rayBlocked: Vec3 -> bool, outLayer: seq<Voxel>, deleted: int)
      returns (outLayer': seq<Voxel>, deleted': int)
      requires StoreInv(cache, ordered) && v.pos !in cache
      modifies this`cache, this`ordered, this`maxRadius
      ensures StoreInv(cache, ordered)
      ensures !rayBlocked(v.pos) ==>
        cache == old(cache)[v.pos := v] && ordered == Put(old(ordered), v)
        && (maxRadius, outLayer') == Widen(old(maxRadius), outLayer, v) && deleted' == deleted
      ensures rayBlocked(v.pos) ==>
        cache == old(cache) && ordered == old(ordered) && maxRadius == old(maxRadius)
        && outLayer' == outLayer && deleted' == deleted + 1
    {
      outLayer', deleted' := outLayer, deleted;
      if !rayBlocked(v.pos) {
        AddVoxel(v);
        if v.dist > maxRadius {
          maxRadius := v.dist;
          outLayer' := [v];
        } else {
          outLayer' := outLayer + [v];
        }
      } else {
        deleted' := deleted + 1;
      }
    }

    /** The first pass of CalculateSphere (lines 152-166) over the voxels GenerateSphere
        emits, in emission order. */
    method KeepVisible(emitted: seq<Voxel>, rayBlocked: Vec3 -> bool) returns (outLayer: seq<Voxel>, deleted: int)
      requires StoreInv(cache, ordered)
      requires NoDup(Positions(emitted)) && forall k :: 0 <= k < |emitted| ==> emitted[k].pos !in cache
      modifies this`cache, this`ordered, this`maxRadius
      ensures cache == Insert(old(cache), Kept(emitted, rayBlocked))
      ensures ordered == PutAll(old(ordered), Kept(emitted, rayBlocked))
      ensures (maxRadius, outLayer) == Outermost(Kept(emitted, rayBlocked), old(maxRadius))
      ensures deleted == |emitted| - |Kept(emitted, rayBlocked)|
      ensures StoreInv(cache, ordered)
    {
      outLayer, deleted := [], 0;
      ghost var c0, o0, m0 := cache, ordered, maxRadius;
      for i := 0 to |emitted|
        invariant cache == Insert(c0, Kept(emitted[..i], rayBlocked))
        invariant ordered == PutAll(o0, Kept(emitted[..i], rayBlocked))
        invariant (maxRadius, outLayer) == Outermost(Kept(emitted[..i], rayBlocked), m0)
        invariant deleted == i - |Kept(emitted[..i], rayBlocked)|
        invariant StoreInv(cache, ordered)
        invariant forall k :: i <= k < |emitted| ==> emitted[k].pos !in cache
      {
        var v := emitted[i];
        ghost var kept := Kept(emitted[..i], rayBlocked);
        KeptStep(emitted, i, rayBlocked);
        FreshAfter(emitted, i, cache);
        if !rayBlocked(v.pos) {
          KeepOne(c0, o0, kept, m0, v);
        } else {
          assert kept + [] == kept;
        }
        outLayer, deleted := Visit(v, rayBlocked, outLayer, deleted);
      }
      assert emitted[..|emitted|] == emitted;
    }

    /** The first pass of CalculateSphere (lines 148-170) from an empty cache: the
        sphere's cells are emitted, the ones the raycast lets through are kept, each as
        the constructor made it, and the repair pass is set up to hand out orders from
        maxRadius + 1 on. `deleted` counts the cells the raycast blocked. */
    method RunFirstPass(r: int, rayBlocked: Vec3 -> bool, ghost boxBlocked: Vec3 -> bool)
      returns (outLayer: seq<Voxel>, deleted: int, ghost emitted: seq<Voxel>)
      requires StoreInv(cache, ordered) && cache == map[] && 0 <= maxRadius
      modifies this`cache, this`ordered, this`maxRadius, this`log
      ensures StoreInv(cache, ordered)
      ensures FirstPassed(r, rayBlocked, boxBlocked, old(maxRadius), old(ordered), emitted, cache, ordered, maxRadius,
                          outLayer, deleted, log)
    {
      var cells := GenerateSphere(r);
      emitted := cells;
      SpherePointsExact(r);
      ghost var m0, o0 := maxRadius, ordered;
      outLayer, deleted := KeepVisible(cells, rayBlocked);
      FirstPassState(r, rayBlocked, boxBlocked, m0, o0, cells, cache, ordered, maxRadius, outLayer, deleted);
      log := RepairLog(cache.Keys, map[], [], maxRadius + 1);
    }

    /** CalculateSphere (lines 146-209) for a sphere of r cells, with the scene's raycast
        and box test as parameters. The first pass keeps exactly the interior cells the
        raycast lets through, each as the constructor made it; the repair pass then grows
        from the (shuffled) out layer, layer by layer, until every deleted cell is
        replaced or a whole layer finds nothing to grow into. `remaining` is the count of
        deleted cells left unreplaced; when it is positive, every face neighbour of every
        voxel of the out layer or stored by the repair pass is stored or box-blocked. */
    method CalculateSphere(r: int, rayBlocked: Vec3 -> bool, boxBlocked: Vec3 -> bool)
      returns (remaining: int, ghost emitted: seq<Voxel>, ghost firstCache: Cache, ghost firstRadius: int,
               ghost deletions: int, ghost shuffled: seq<Voxel>, ghost rounds: seq<seq<Voxel>>, ghost stored: seq<Voxel>)
      requires StoreInv(cache, ordered) && cache == map[] && 0 <= maxRadius
      modifies this`cache, this`ordered, this`maxRadius, this`log
      ensures SphereCalculated(r, rayBlocked, boxBlocked, old(maxRadius), old(ordered), emitted, stored, firstRadius,
                               remaining, cache, ordered, maxRadius, log)
      ensures SphereRepaired(r, rayBlocked, boxBlocked, old(maxRadius), emitted, firstCache, firstRadius, deletions,
                             shuffled, rounds, stored)
    {
      var outLayer, deleted;
      outLayer, deleted, emitted := RunFirstPass(r, rayBlocked, boxBlocked);
      ghost var o1, log1 := ordered, log;
      firstCache, firstRadius, deletions := cache, maxRadius, deleted;
      var layer :| multiset(layer) == multiset(outLayer);
      CachedPermuted(outLayer, layer, cache);
      shuffled := layer;
      remaining, stored, rounds := RepairPass(layer, boxBlocked, deleted, maxRadius + 1, |SpherePoints(r)|);
      CalculatedFrom(r, rayBlocked, boxBlocked, old(maxRadius), old(ordered), emitted, firstCache, o1, firstRadius,
                     log1, outLayer, deleted, layer, stored, remaining, cache, ordered, maxRadius, log);
    }

    /** Initialize (lines 66-98) without its Unity set-up: CalculateSphere, then Reset.
        The stored voxels, the buckets, maxRadius and the repair log are those
        CalculateSphere leaves, grown as it describes; the transition list then holds every
        stored voxel, in ascending order key and, within a key, in the order the passes
        stored them. */
    method Initialize(r: int, rayBlocked: Vec3 -> bool, boxBlocked: Vec3 -> bool)
      returns (ghost remaining: int, ghost emitted: seq<Voxel>, ghost firstCache: Cache, ghost firstRadius: int,
               ghost deletions: int, ghost shuffled: seq<Voxel>, ghost rounds: seq<seq<Voxel>>, ghost stored: seq<Voxel>)
      requires Valid() && cache == map[] && 0 <= maxRadius
      modifies this`cache, this`ordered, this`maxRadius, this`log, this`toTransition
      ensures Valid()
      ensures SphereCalculated(r, rayBlocked, boxBlocked, old(maxRadius), old(ordered), emitted, stored, firstRadius,
                               remaining, cache, ordered, maxRadius, log)
      ensures SphereRepaired(r, rayBlocked, boxBlocked, old(maxRadius), emitted, firstCache, firstRadius, deletions,
                             shuffled, rounds, stored)
      ensures toTransition == old(toTransition) + Flatten(ordered, ordered.Keys)
    {
      remaining, emitted, firstCache, firstRadius, deletions, shuffled, rounds, stored :=
        CalculateSphere(r, rayBlocked, boxBlocked);
      Reset();
    }

    /** Reset (lines 264-276): appends the bucket contents, in ascending
        order key and each bucket in insertion order, to the transition list. The list is
        not cleared first. */
    method Reset()
      requires Valid()
      modifies this`toTransition
      ensures Valid() && unchanged(this`cache, this`ordered, this`maxRadius, this`log)
      ensures toTransition == old(toTransition) + Flatten(ordered, ordered.Keys)
    {
      ghost var list0 := toTransition;
      var rest := ordered.Keys;
      while rest != {}
        invariant rest <= ordered.Keys
        invariant forall j, k :: j in ordered.Keys - rest && k in rest ==> j < k
        invariant toTransition == list0 + Flatten(ordered, ordered.Keys - rest)
        invariant Revealing(toTransition, debugVoxels, prevI)
        decreases rest
      {
        ghost var least := MinKey(rest);
        var k :| k in rest && forall j :: j in rest ==> k <= j;
        AppendBucket(ordered[k]);
        VisitLeast(ordered, rest, k);
        rest := rest - {k};
      }
      assert ordered.Keys - {} == ordered.Keys;
    }

    /** The inner loop of Reset (lines 269-272): one bucket's voxels are appended in
        insertion order. */
    method AppendBucket(bucket: seq<Voxel>)
      requires Revealing(toTransition, debugVoxels, prevI)
      modifies this`toTransition
      ensures toTransition == old(toTransition) + bucket
      ensures Revealing(toTransition, debugVoxels, prevI)
    {
      ghost var list0 := toTransition;
      for i := 0 to |bucket|
        invariant toTransition == list0 + bucket[..i]
        invariant Revealing(toTransition, debugVoxels, prevI)
      {
        RevealingAppend(toTransition, [bucket[i]], debugVoxels, prevI);
        assert bucket[..i + 1] == bucket[..i] + [bucket[i]];
        toTransition := toTransition + [bucket[i]];
      }
      assert bucket[..|bucket|] == bucket;
    }

    /** The debug branch of Update (lines 278-300) with the frame's target count
        `RoundToInt(count * normalizedTime)` as a parameter: the entries after the last
        one shown, up to the clamped target, are revealed in order. */
    method Update(debugView: bool, target: int)
      requires Valid()
      modifies this`debugVoxels, this`prevI
      ensures Valid()
      ensures !debugView ==> debugVoxels == old(debugVoxels) && prevI == old(prevI)
      ensures debugView ==>
        var start, stop := old(prevI) + 1, Clamp(target, 0, |toTransition|);
        (start < stop ==> debugVoxels == old(debugVoxels) + Shown(toTransition, start, stop) && prevI == stop - 1)
        && (stop <= start ==> debugVoxels == old(debugVoxels) && prevI == old(prevI))
    {
      ghost var debug0 := debugVoxels;
      if debugView {
        var start := prevI + 1;
        var stop := Clamp(target, 0, |toTransition|);
        if start < stop {
          for i := start to stop
            invariant debugVoxels == debug0 + Shown(toTransition, start, i)
            invariant prevI == i - 1
            invariant Revealing(toTransition, debugVoxels, prevI)
          {
            RevealingNext(toTransition, debugVoxels, prevI, i);
            prevI := i;
            debugVoxels := debugVoxels + [DebugVoxel(toTransition[i].pos)];
          }
        }
      }
    }

    /** GrowLayer for the current layer, keeping the account RepairPass carries:
        `stored` are the voxels stored since the state (c0, o0, m0, log0), numbered from
        order0 and grown from voxels of `layer + stored`; afterwards the new layer follows
        them. */
    method GrowLayerTracked(current: seq<Voxel>, boxBlocked: Vec3 -> bool, deleted: int, order: int, ghost total: int,
                            ghost layer: seq<Voxel>, ghost rounds: seq<seq<Voxel>>, ghost stored: seq<Voxel>,
                            ghost c0: Cache, ghost o0: Buckets, ghost m0: int, ghost log0: RepairLog,
                            ghost deleted0: int, ghost order0: int)
      returns (newLayer: seq<Voxel>, deleted': int, order': int, found: bool, end: bool)
      requires PassState(cache, ordered, maxRadius, log, layer, rounds, stored, current, boxBlocked, total,
                         deleted, order, c0, o0, m0, log0, deleted0, order0)
      requires 0 < deleted && (rounds != [] ==> current != [])
      requires EnclosedBut(layer + stored, current, cache, boxBlocked)
      modifies this`cache, this`ordered, this`maxRadius, this`log
      ensures PassState(cache, ordered, maxRadius, log, layer, rounds + [newLayer], stored + newLayer, newLayer,
                        boxBlocked, total, deleted', order', c0, o0, m0, log0, deleted0, order0)
      ensures deleted' <= deleted && (found <==> deleted' < deleted) && (end <==> deleted' == 0)
      ensures !found ==> newLayer == [] && cache == old(cache) && AllEnclosed(current, |current|, cache, boxBlocked)
      ensures !end ==> EnclosedBut(layer + (stored + newLayer), newLayer, cache, boxBlocked)
      ensures !found && !end ==> EachEnclosed(layer + (stored + newLayer), cache, boxBlocked)
    {
      ghost var c1, log1 := cache, log;
      newLayer, deleted', order', found, end := GrowLayer(current, boxBlocked, deleted, order, total);
      BreadthFirstNext(layer, rounds, c0, boxBlocked, deleted0, order0, newLayer, current, c1, deleted, order);
      ExtendsTrans(c0, c1, cache);
      LayersWithin(current, layer, stored, newLayer);
      StoreConcat(c0, o0, m0, stored, newLayer);
      RepairedFromWiden(log1, log, newLayer, current, layer + (stored + newLayer));
      RepairedFromWiden(log0, log1, stored, layer + stored, layer + (stored + newLayer));
      RepairedFromTrans(log0, log1, log, stored, newLayer, layer + (stored + newLayer));
      NumberedConcat(stored, newLayer, order0);
      if !end {
        EnclosedButGrow(layer, stored, current, newLayer, c1, cache, boxBlocked);
      }
    }

    /** The rounds of the repair loop (lines 173-207). */
    method RepairRounds(layer: seq<Voxel>, boxBlocked: Vec3 -> bool, deleted: int, order: int, ghost total: int)
      returns (remaining: int, current: seq<Voxel>, next: int, ghost stored: seq<Voxel>,
               ghost rounds: seq<seq<Voxel>>)
      requires StoreInv(cache, ordered) && Grown(cache, log, boxBlocked, order)
      requires 0 <= deleted && |cache| + deleted == total
      requires Cached(layer, cache)
      modifies this`cache, this`ordered, this`maxRadius, this`log
      ensures PassState(cache, ordered, maxRadius, log, layer, rounds, stored, current, boxBlocked, total,
                        remaining, next, old(cache), old(ordered), old(maxRadius), old(log), deleted, order)
      ensures remaining <= 0 || (rounds != [] && current == [] && EachEnclosed(layer + stored, cache, boxBlocked))
    {
      var order' := order;
      current := layer;
      remaining, stored, rounds := deleted, [], [];
      PassStarts(cache, ordered, maxRadius, log, layer, boxBlocked, total, deleted, order);
      while remaining > 0
        invariant PassState(cache, ordered, maxRadius, log, layer, rounds, stored, current, boxBlocked, total,
                            remaining, order', old(cache), old(ordered), old(maxRadius), old(log), deleted, order)
        invariant rounds != [] ==> current != []
        invariant EnclosedBut(layer + stored, current, cache, boxBlocked)
        decreases remaining
      {
        var newLayer, deleted', order'', found, end := GrowLayerTracked(current, boxBlocked, remaining, order', total,
                                                                        layer, rounds, stored, old(cache), old(ordered),
                                                                        old(maxRadius), old(log), deleted, order);
        stored, rounds := stored + newLayer, rounds + [newLayer];
        remaining, order' := deleted', order'';
        current := newLayer;
        if end || !found {
          break;
        }
      }
      next := order';
    }

    /** The repair pass of CalculateSphere (lines 172-208): one GrowLayer round per
        layer, the voxels each round stores becoming the next layer, until no deleted
        cell is left or a round finds nothing. Unless every deleted cell was replaced,
        every voxel it grew from or stored is left enclosed. */
    method RepairPass(layer: seq<Voxel>, boxBlocked: Vec3 -> bool, deleted: int, order: int, ghost total: int)
      returns (remaining: int, ghost stored: seq<Voxel>, ghost rounds: seq<seq<Voxel>>)
      requires StoreInv(cache, ordered) && Grown(cache, log, boxBlocked, order)
      requires 0 <= deleted && |cache| + deleted == total
      requires Cached(layer, cache)
      modifies this`cache, this`ordered, this`maxRadius, this`log
      ensures StoreInv(cache, ordered) && Grown(cache, log, boxBlocked, log.base + |log.repaired|)
      ensures 0 <= remaining && |cache| + remaining == total
      ensures Extends(old(cache), cache) && log.kept == old(log).kept
      ensures remaining > 0 ==> EachEnclosed(layer + stored, cache, boxBlocked)
      ensures cache == Insert(old(cache), stored) && ordered == PutAll(old(ordered), stored)
              && maxRadius == MaxDist(old(maxRadius), stored)
      ensures RepairedFrom(old(log), log, stored, layer + stored) && Numbered(stored, order)
      ensures remaining == deleted - |stored|
      ensures Repaired(layer, rounds, old(cache), boxBlocked, deleted, order) && stored == Joined(rounds)
    {
      var current, next;
      remaining, current, next, stored, rounds := RepairRounds(layer, boxBlocked, deleted, order, total);
      PassEnded(cache, ordered, maxRadius, log, layer, rounds, stored, current, boxBlocked, total, remaining, next,
                old(cache), old(ordered), old(maxRadius), old(log), deleted, order);
    }
  }
}
