/** What the repair pass of CalculateSphere guarantees about where a voxel can appear:
    every voxel it adds was grown from an already stored face neighbour with a smaller
    order, so following those links back always ends at a voxel the first pass kept. */
module Connectivity {
  import opened Geometry
  import opened Voxels

  /** `parent` records, for each repaired position, the stored voxel it was grown from:
      a face neighbour that was stored before it, with a smaller, non-negative order. */
  ghost predicate Supported(c: map<Vec3, Voxel>, parent: map<Vec3, Vec3>) {
    forall p :: p in parent ==>
      p in c && parent[p] in c && FaceAdjacent(parent[p], p) && 0 <= c[parent[p]].order < c[p].order
  }

  /** Consecutive cells of the path share a face. */
  predicate IsChain(path: seq<Vec3>) {
    forall i :: 0 < i < |path| ==> FaceAdjacent(path[i - 1], path[i])
  }

  /** The chain of growth links from a seed (a stored position with no parent, that is one
      the first pass kept) to p: it stays inside the store and every step crosses a face. */
  ghost function ChainTo(c: map<Vec3, Voxel>, parent: map<Vec3, Vec3>, p: Vec3): (path: seq<Vec3>)
    requires Supported(c, parent) && p in c
    ensures 0 < |path| && path[|path| - 1] == p
    ensures path[0] in c && path[0] !in parent
    ensures forall q :: q in path ==> q in c
    ensures IsChain(path)
    decreases if p in parent then c[p].order else 0
  {
    if p in parent then ChainTo(c, parent, parent[p]) + [p] else [p]
  }
}
