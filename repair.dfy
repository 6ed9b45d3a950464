/** The bookkeeping of CalculateSphere's repair pass, as values: which stored positions
    the first pass kept, which the repair pass added and where each was grown from. */
module Repair {
  import opened Geometry
  import opened Voxels
  import opened Connectivity

  /** kept: positions stored by the first pass; parentOf: for each repaired position, the
      stored face neighbour it was grown from; repaired: repaired positions in the order
      they were stored; base: the first order handed out by the repair pass. */
  datatype RepairLog = RepairLog(kept: set<Vec3>, parentOf: map<Vec3, Vec3>, repaired: seq<Vec3>, base: int)

  /** What the repair pass keeps true of the cache; `order` is the next order it hands
      out. The cache holds the kept positions and the repaired ones and nothing else;
      kept voxels have orders in [0, base); the i-th repaired voxel has order base + i,
      passed the box check and hangs off a stored face neighbour of smaller order. */
  ghost predicate Grown(c: map<Vec3, Voxel>, log: RepairLog, boxBlocked: Vec3 -> bool, order: int) {
    1 <= log.base
    && c.Keys == log.kept + log.parentOf.Keys && log.kept !! log.parentOf.Keys
    && (forall p :: p in log.kept ==> 0 <= c[p].order < log.base)
    && Supported(c, log.parentOf)
    && (forall p :: p in log.parentOf <==> p in log.repaired)
    && order == log.base + |log.repaired|
    && (forall i :: 0 <= i < |log.repaired| ==>
          log.repaired[i] in c && c[log.repaired[i]].order == log.base + i && !boxBlocked(log.repaired[i]))
    && (forall p :: p in c ==> c[p].order < order)
  }

  /** The log after the repair pass stores position p, grown from `parent`. */
  function Attached(log: RepairLog, p: Vec3, parent: Vec3): RepairLog {
    log.(parentOf := log.parentOf[p := parent], repaired := log.repaired + [p])
  }

  /** w was grown from a voxel of `from` at position `parent`: it is a face neighbour of
      that voxel, one distance unit further out. */
  ghost predicate ChildOf(w: Voxel, parent: Vec3, from: seq<Voxel>) {
    exists i :: 0 <= i < |from| && from[i].pos == parent && FaceAdjacent(parent, w.pos) && w.dist == from[i].dist + 1
  }

  /** log is log0 after the repair pass stored the voxels `added`, in that order, each
      grown from a voxel of `from`: the kept positions and the base are unchanged, the
      added positions follow the earlier repaired ones, earlier parents stay as they
      were, and each added position records the voxel of `from` it was grown from. */
  ghost predicate RepairedFrom(log0: RepairLog, log: RepairLog, added: seq<Voxel>, from: seq<Voxel>) {
    log.kept == log0.kept && log.base == log0.base
    && log.repaired == log0.repaired + Positions(added)
    && (forall p :: p in log0.parentOf ==> p in log.parentOf && log.parentOf[p] == log0.parentOf[p])
    && (forall k :: 0 <= k < |added| ==>
          added[k].pos in log.parentOf && ChildOf(added[k], log.parentOf[added[k].pos], from))
  }

  /** The voxels vs carry consecutive orders starting at `order`. */
  ghost predicate Numbered(vs: seq<Voxel>, order: int) {
    forall k :: 0 <= k < |vs| ==> vs[k].order == order + k
  }

  lemma RepairedFromNone(log: RepairLog, from: seq<Voxel>)
    ensures RepairedFrom(log, log, [], from)
  {
    assert log.repaired + Positions([]) == log.repaired;
  }

  /** Storing w, grown from the voxel u of `from`, extends what was repaired by one. */
  lemma RepairedFromOne(log0: RepairLog, log: RepairLog, added: seq<Voxel>, from: seq<Voxel>, w: Voxel, u: Voxel)
    requires RepairedFrom(log0, log, added, from)
    requires w.pos !in log.parentOf
    requires u in from && FaceAdjacent(u.pos, w.pos) && w.dist == u.dist + 1
    ensures RepairedFrom(log0, Attached(log, w.pos, u.pos), added + [w], from)
  {
    var log' := Attached(log, w.pos, u.pos);
    PositionsConcat(added, [w]);
    assert log'.repaired == log0.repaired + Positions(added + [w]);
    var i :| 0 <= i < |from| && from[i] == u;
    assert ChildOf(w, u.pos, from);
    forall k | 0 <= k < |added + [w]|
      ensures (added + [w])[k].pos in log'.parentOf
        && ChildOf((added + [w])[k], log'.parentOf[(added + [w])[k].pos], from)
    {
      if k < |added| {
        assert (added + [w])[k] == added[k];
        assert added[k].pos in log.parentOf;
      }
    }
  }

  /** Two stretches of repair one after the other make one. */
  lemma RepairedFromTrans(log0: RepairLog, log1: RepairLog, log2: RepairLog, a: seq<Voxel>, b: seq<Voxel>,
                          from: seq<Voxel>)
    requires RepairedFrom(log0, log1, a, from) && RepairedFrom(log1, log2, b, from)
    ensures RepairedFrom(log0, log2, a + b, from)
  {
    PositionsConcat(a, b);
    forall k | 0 <= k < |a + b|
      ensures (a + b)[k].pos in log2.parentOf && ChildOf((a + b)[k], log2.parentOf[(a + b)[k].pos], from)
    {
      if k < |a| {
        assert (a + b)[k] == a[k] && a[k].pos in log1.parentOf;
      } else {
        assert (a + b)[k] == b[k - |a|];
      }
    }
  }

  /** Growing from voxels of `from` is growing from voxels of any list that holds them. */
  lemma RepairedFromWiden(log0: RepairLog, log: RepairLog, added: seq<Voxel>, from: seq<Voxel>, wider: seq<Voxel>)
    requires RepairedFrom(log0, log, added, from) && forall x :: x in from ==> x in wider
    ensures RepairedFrom(log0, log, added, wider)
  {
    forall k | 0 <= k < |added| ensures ChildOf(added[k], log.parentOf[added[k].pos], wider) {
      var i :| 0 <= i < |from| && from[i].pos == log.parentOf[added[k].pos]
        && FaceAdjacent(log.parentOf[added[k].pos], added[k].pos) && added[k].dist == from[i].dist + 1;
      assert from[i] in wider;
      var j :| 0 <= j < |wider| && wider[j] == from[i];
    }
  }

  lemma NumberedOne(vs: seq<Voxel>, order: int, w: Voxel)
    requires Numbered(vs, order) && w.order == order + |vs|
    ensures Numbered(vs + [w], order)
  {
    forall k | 0 <= k < |vs| + 1 ensures (vs + [w])[k].order == order + k {
      if k < |vs| {
        assert (vs + [w])[k] == vs[k];
      }
    }
  }

  lemma NumberedConcat(a: seq<Voxel>, b: seq<Voxel>, order: int)
    requires Numbered(a, order) && Numbered(b, order + |a|)
    ensures Numbered(a + b, order)
  {
  }

  /** The order counter of the repair invariant is determined by the log. */
  lemma GrownNext(c: map<Vec3, Voxel>, log: RepairLog, boxBlocked: Vec3 -> bool, order: int)
    requires Grown(c, log, boxBlocked, order)
    ensures order == log.base + |log.repaired| && Grown(c, log, boxBlocked, log.base + |log.repaired|)
  {
  }

  /** Storing an unblocked, uncached face neighbour of a stored voxel with the next order
      keeps the repair invariant, with the order counter one further on. */
  lemma AttachKeepsGrown(c: map<Vec3, Voxel>, log: RepairLog, boxBlocked: Vec3 -> bool, order: int,
                         w: Voxel, parent: Vec3)
    requires Grown(c, log, boxBlocked, order)
    requires w.pos !in c && !boxBlocked(w.pos) && w.order == order
    requires parent in c && FaceAdjacent(parent, w.pos)
    ensures Grown(c[w.pos := w], Attached(log, w.pos, parent), boxBlocked, order + 1)
  {
    var c', log' := c[w.pos := w], Attached(log, w.pos, parent);
    assert 0 <= c[parent].order by {
      if parent in log.parentOf {
        assert 0 <= c[log.parentOf[parent]].order < c[parent].order;
      }
    }
    assert c'.Keys == log'.kept + log'.parentOf.Keys;
    forall p | p in log'.parentOf
      ensures p in c' && log'.parentOf[p] in c' && FaceAdjacent(log'.parentOf[p], p)
      ensures 0 <= c'[log'.parentOf[p]].order < c'[p].order
    {
      if p != w.pos {
        assert p in log.parentOf && log.parentOf[p] in c;
      }
    }
    forall p | p in log'.kept ensures 0 <= c'[p].order < log'.base {
      assert p in c && p != w.pos;
    }
    forall i | 0 <= i < |log'.repaired|
      ensures log'.repaired[i] in c' && c'[log'.repaired[i]].order == log'.base + i
    {
      if i < |log.repaired| {
        assert log'.repaired[i] == log.repaired[i];
      }
    }
  }

  /** Under the repair invariant every stored position is reached from a position the
      first pass kept by a chain of face-adjacent stored cells. */
  lemma GrownReachable(c: map<Vec3, Voxel>, log: RepairLog, boxBlocked: Vec3 -> bool, order: int, p: Vec3)
    requires Grown(c, log, boxBlocked, order) && p in c
    ensures var path := ChainTo(c, log.parentOf, p);
      path[0] in log.kept && path[|path| - 1] == p && IsChain(path) && forall q :: q in path ==> q in c
  {
    var path := ChainTo(c, log.parentOf, p);
    assert path[0] in c.Keys;
  }
}
