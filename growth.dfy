/** What the growth steps leave behind: which entries of the cache they keep, which
    voxels they store, and what the whole sphere calculation yields. */
module Growth {
  import opened Geometry
  import opened Voxels
  import opened Store
  import opened Repair
  import opened Lattice
  import opened FirstPass

  /** c keeps every entry of c0 unchanged. */
  ghost predicate Extends(c0: map<Vec3, Voxel>, c: map<Vec3, Voxel>) {
    forall p :: p in c0 ==> p in c && c[p] == c0[p]
  }

  lemma ExtendsGrows(c0: map<Vec3, Voxel>, c: map<Vec3, Voxel>, w: Voxel)
    requires Extends(c0, c) && w.pos !in c
    ensures Extends(c0, c[w.pos := w])
  {
  }

  lemma ExtendsTrans(c0: map<Vec3, Voxel>, c1: map<Vec3, Voxel>, c2: map<Vec3, Voxel>)
    requires Extends(c0, c1) && Extends(c1, c2)
    ensures Extends(c0, c2)
  {
  }

  lemma CachedKept(layer: seq<Voxel>, c0: map<Vec3, Voxel>, c: map<Vec3, Voxel>)
    requires Cached(layer, c0) && Extends(c0, c)
    ensures Cached(layer, c)
  {
  }

  /** No face neighbour of u can still be added: each is stored or box-blocked. */
  ghost predicate Enclosed(u: Voxel, c: map<Vec3, Voxel>, boxBlocked: Vec3 -> bool) {
    forall q :: FaceAdjacent(u.pos, q) ==> q in c || boxBlocked(q)
  }

  /** The first i voxels of the layer are each enclosed. */
  ghost predicate AllEnclosed(layer: seq<Voxel>, i: int, c: map<Vec3, Voxel>, boxBlocked: Vec3 -> bool)
    requires 0 <= i <= |layer|
  {
    forall k :: 0 <= k < i ==> Enclosed(layer[k], c, boxBlocked)
  }

  /** Every voxel of vs is enclosed. */
  ghost predicate EachEnclosed(vs: seq<Voxel>, c: map<Vec3, Voxel>, boxBlocked: Vec3 -> bool) {
    forall v :: v in vs ==> Enclosed(v, c, boxBlocked)
  }

  /** A voxel stays enclosed while the cache only grows. */
  lemma EnclosedExtends(u: Voxel, c0: map<Vec3, Voxel>, c: map<Vec3, Voxel>, boxBlocked: Vec3 -> bool)
    requires Enclosed(u, c0, boxBlocked) && Extends(c0, c)
    ensures Enclosed(u, c, boxBlocked)
  {
    forall q | FaceAdjacent(u.pos, q) ensures q in c || boxBlocked(q) {
      assert q in c0 || boxBlocked(q);
    }
  }

  /** The voxels of the layer before i stay enclosed as the cache grows, and with voxel i
      enclosed too the first i + 1 are. */
  lemma AllEnclosedStep(layer: seq<Voxel>, i: int, c0: map<Vec3, Voxel>, c: map<Vec3, Voxel>,
                        boxBlocked: Vec3 -> bool)
    requires 0 <= i < |layer| && AllEnclosed(layer, i, c0, boxBlocked) && Extends(c0, c)
    requires Enclosed(layer[i], c, boxBlocked)
    ensures AllEnclosed(layer, i + 1, c, boxBlocked)
  {
    forall k | 0 <= k < i ensures Enclosed(layer[k], c, boxBlocked) {
      EnclosedExtends(layer[k], c0, c, boxBlocked);
    }
  }

  /** Every voxel of vs is enclosed, except possibly those of the layer still to grow
      from. */
  ghost predicate EnclosedBut(vs: seq<Voxel>, current: seq<Voxel>, c: map<Vec3, Voxel>, boxBlocked: Vec3 -> bool) {
    forall v :: v in vs ==> v in current || Enclosed(v, c, boxBlocked)
  }

  /** Once the whole current layer is enclosed, only the next layer may still be open. */
  lemma EnclosedButGrow(layer: seq<Voxel>, stored: seq<Voxel>, current: seq<Voxel>, newLayer: seq<Voxel>,
                        c0: map<Vec3, Voxel>, c: map<Vec3, Voxel>, boxBlocked: Vec3 -> bool)
    requires EnclosedBut(layer + stored, current, c0, boxBlocked) && Extends(c0, c)
    requires AllEnclosed(current, |current|, c, boxBlocked)
    ensures EnclosedBut(layer + (stored + newLayer), newLayer, c, boxBlocked)
  {
    forall v | v in layer + (stored + newLayer) && v !in newLayer ensures Enclosed(v, c, boxBlocked) {
      assert v in layer + stored;
      if v in current {
        var k :| 0 <= k < |current| && current[k] == v;
      } else {
        assert Enclosed(v, c0, boxBlocked);
        EnclosedExtends(v, c0, c, boxBlocked);
      }
    }
  }

  /** The shuffled out layer holds the same voxels as the out layer. */
  lemma PermutedWithin(layer: seq<Voxel>, outLayer: seq<Voxel>, stored: seq<Voxel>)
    requires multiset(layer) == multiset(outLayer)
    ensures forall x :: x in layer + stored <==> x in outLayer + stored
  {
    forall x ensures x in layer + stored <==> x in outLayer + stored {
      assert x in layer <==> x in multiset(layer);
      assert x in outLayer <==> x in multiset(outLayer);
    }
  }

  /** The repair pass leaves the first pass's voxels as they were, so the bound on their
      distances, and where it is attained, carry over. */
  lemma KeptUnchanged(c1: Cache, c: Cache, m: int, m0: int)
    requires Extends(c1, c)
    requires forall p :: p in c1 ==> c1[p].dist <= m
    requires m == m0 || exists p :: p in c1 && c1[p].dist == m
    ensures forall p :: p in c1 ==> c[p].dist <= m
    ensures m == m0 || exists p :: p in c1 && c[p].dist == m
  {
    if m != m0 {
      var p :| p in c1 && c1[p].dist == m;
      assert c[p] == c1[p];
    }
  }

  /** The voxels one GrowFrom call stores, in the order it stores them: it walks u's
      connected voxels from index j, and while deletions remain (budget > 0) stores each
      one whose position is neither cached nor box-blocked, one step further out than u
      and numbered from `order`; the cache c grows as it goes, so a later neighbour sees
      the earlier ones. */
  ghost function ScanGrowth(u: Voxel, connected: seq<Voxel>, j: nat, c: Cache, boxBlocked: Vec3 -> bool,
                            budget: int, order: int): seq<Voxel>
    decreases |connected| - j
  {
    if j >= |connected| || budget <= 0 then []
    else if connected[j].pos !in c && !boxBlocked(connected[j].pos) then
      var w := Voxel(connected[j].pos, u.dist + 1, order);
      [w] + ScanGrowth(u, connected, j + 1, c[w.pos := w], boxBlocked, budget - 1, order + 1)
    else
      ScanGrowth(u, connected, j + 1, c, boxBlocked, budget, order)
  }

  /** The voxels the first i rounds of a GrowLayer call store: GrowFrom on layer[0],
      layer[1], ... in turn, each seeing what the earlier ones stored and numbering on
      from them, until the budget of deletions runs out. */
  ghost function LayerGrowth(layer: seq<Voxel>, i: nat, c: Cache, boxBlocked: Vec3 -> bool,
                             budget: int, order: int): seq<Voxel>
    requires i <= |layer|
  {
    if i == 0 then []
    else
      var p := LayerGrowth(layer, i - 1, c, boxBlocked, budget, order);
      if budget - |p| <= 0 then p
      else p + ScanGrowth(layer[i - 1], GetConnectedVoxels(layer[i - 1]), 0, Insert(c, p), boxBlocked,
                          budget - |p|, order + |p|)
  }

  /** Each voxel ScanGrowth stores takes a position that was neither cached nor
      box-blocked and lies one step further out than u, and they are numbered
      consecutively from `order`, at most `budget` of them. */
  lemma {:induction false} ScanGrowthSound(u: Voxel, connected: seq<Voxel>, j: nat, c: Cache,
                                           boxBlocked: Vec3 -> bool, budget: int, order: int)
    ensures var r := ScanGrowth(u, connected, j, c, boxBlocked, budget, order);
      Numbered(r, order) && (0 <= budget ==> |r| <= budget)
    ensures var r := ScanGrowth(u, connected, j, c, boxBlocked, budget, order);
      forall k :: 0 <= k < |r| ==> r[k].dist == u.dist + 1 && r[k].pos !in c && !boxBlocked(r[k].pos)
    decreases |connected| - j
  {
    if j >= |connected| || budget <= 0 {
    } else if connected[j].pos !in c && !boxBlocked(connected[j].pos) {
      var w := Voxel(connected[j].pos, u.dist + 1, order);
      var rest := ScanGrowth(u, connected, j + 1, c[w.pos := w], boxBlocked, budget - 1, order + 1);
      ScanGrowthSound(u, connected, j + 1, c[w.pos := w], boxBlocked, budget - 1, order + 1);
      assert ScanGrowth(u, connected, j, c, boxBlocked, budget, order) == [w] + rest;
      NumberedConcat([w], rest, order);
    } else {
      ScanGrowthSound(u, connected, j + 1, c, boxBlocked, budget, order);
    }
  }

  /** The voxels ScanGrowth stores take their positions from u's connected voxels,
      from j on. */
  lemma {:induction false} ScanGrowthWithin(u: Voxel, connected: seq<Voxel>, j: nat, c: Cache,
                                            boxBlocked: Vec3 -> bool, budget: int, order: int)
    ensures forall v :: v in ScanGrowth(u, connected, j, c, boxBlocked, budget, order) ==>
      v.pos in Positions(connected[j..])
    decreases |connected| - j
  {
    if j < |connected| && 0 < budget {
      assert connected[j..] == [connected[j]] + connected[j + 1..];
      PositionsConcat([connected[j]], connected[j + 1..]);
      if connected[j].pos !in c && !boxBlocked(connected[j].pos) {
        var w := Voxel(connected[j].pos, u.dist + 1, order);
        ScanGrowthWithin(u, connected, j + 1, c[w.pos := w], boxBlocked, budget - 1, order + 1);
      } else {
        ScanGrowthWithin(u, connected, j + 1, c, boxBlocked, budget, order);
      }
    }
  }

  /** When ScanGrowth stops short of the budget, it has passed every connected voxel
      from j on: each is afterwards cached or box-blocked. */
  lemma {:induction false} ScanGrowthComplete(u: Voxel, connected: seq<Voxel>, j: nat, c: Cache,
                                              boxBlocked: Vec3 -> bool, budget: int, order: int)
    requires |ScanGrowth(u, connected, j, c, boxBlocked, budget, order)| < budget
    ensures forall k :: j <= k < |connected| ==>
      connected[k].pos in Insert(c, ScanGrowth(u, connected, j, c, boxBlocked, budget, order))
      || boxBlocked(connected[k].pos)
    decreases |connected| - j
  {
    if j >= |connected| {
    } else if connected[j].pos !in c && !boxBlocked(connected[j].pos) {
      var w := Voxel(connected[j].pos, u.dist + 1, order);
      var rest := ScanGrowth(u, connected, j + 1, c[w.pos := w], boxBlocked, budget - 1, order + 1);
      ScanGrowthComplete(u, connected, j + 1, c[w.pos := w], boxBlocked, budget - 1, order + 1);
      StoreConcat(c, map[], 0, [w], rest);
      assert Insert(c, [w]) == c[w.pos := w];
      InsertKeys(c[w.pos := w], rest);
    } else {
      ScanGrowthComplete(u, connected, j + 1, c, boxBlocked, budget, order);
      InsertKeys(c, ScanGrowth(u, connected, j + 1, c, boxBlocked, budget, order));
    }
  }

  /** The layer's growth is numbered consecutively from `order` and stays within the
      budget. */
  lemma {:induction false} LayerGrowthSound(layer: seq<Voxel>, i: nat, c: Cache, boxBlocked: Vec3 -> bool,
                                            budget: int, order: int)
    requires i <= |layer|
    ensures var r := LayerGrowth(layer, i, c, boxBlocked, budget, order);
      Numbered(r, order) && (0 <= budget ==> |r| <= budget)
  {
    if i > 0 {
      var p := LayerGrowth(layer, i - 1, c, boxBlocked, budget, order);
      LayerGrowthSound(layer, i - 1, c, boxBlocked, budget, order);
      if budget - |p| > 0 {
        var a := ScanGrowth(layer[i - 1], GetConnectedVoxels(layer[i - 1]), 0, Insert(c, p), boxBlocked,
                            budget - |p|, order + |p|);
        ScanGrowthSound(layer[i - 1], GetConnectedVoxels(layer[i - 1]), 0, Insert(c, p), boxBlocked,
                        budget - |p|, order + |p|);
        NumberedConcat(p, a, order);
      }
    }
  }

  /** One step of ScanGrowth, seen from a prefix already stored towards `total`, at a
      neighbour that is neither cached nor box-blocked: it is stored next. */
  lemma {:induction false} ScanGrowthOpen(u: Voxel, connected: seq<Voxel>, j: nat, c: Cache, boxBlocked: Vec3 -> bool,
                       budget: int, order: int, budget': int, order': int, prefix: seq<Voxel>, total: seq<Voxel>)
    requires j < |connected| && 0 < budget && budget' == budget - 1 && order' == order + 1
    requires connected[j].pos !in c && !boxBlocked(connected[j].pos)
    requires prefix + ScanGrowth(u, connected, j, c, boxBlocked, budget, order) == total
    ensures (prefix + [Voxel(connected[j].pos, u.dist + 1, order)])
      + ScanGrowth(u, connected, j + 1, c[connected[j].pos := Voxel(connected[j].pos, u.dist + 1, order)],
                   boxBlocked, budget', order') == total
  {
    var w := Voxel(connected[j].pos, u.dist + 1, order);
    var rest := ScanGrowth(u, connected, j + 1, c[w.pos := w], boxBlocked, budget - 1, order + 1);
    assert (prefix + [w]) + rest == prefix + ([w] + rest);
  }

  /** One step of ScanGrowth, seen from a prefix already stored towards `total`, at a
      neighbour that is cached or box-blocked: it is passed over. */
  lemma {:induction false} ScanGrowthSkip(u: Voxel, connected: seq<Voxel>, j: nat, c: Cache, boxBlocked: Vec3 -> bool,
                       budget: int, order: int, prefix: seq<Voxel>, total: seq<Voxel>)
    requires j < |connected| && 0 < budget
    requires connected[j].pos in c || boxBlocked(connected[j].pos)
    requires prefix + ScanGrowth(u, connected, j, c, boxBlocked, budget, order) == total
    ensures prefix + ScanGrowth(u, connected, j + 1, c, boxBlocked, budget, order) == total
  {
  }

  /** ScanGrowth has nothing left to store once the neighbours or the budget run out. */
  lemma {:induction false} ScanGrowthDone(u: Voxel, connected: seq<Voxel>, j: nat, c: Cache, boxBlocked: Vec3 -> bool,
                       budget: int, order: int, prefix: seq<Voxel>, total: seq<Voxel>)
    requires j >= |connected| || budget <= 0
    requires prefix + ScanGrowth(u, connected, j, c, boxBlocked, budget, order) == total
    ensures prefix == total
  {
    assert prefix + [] == prefix;
  }

  /** One round of LayerGrowth: from the state the first i rounds leave, the growth
      from layer[i] comes next. */
  lemma {:induction false} LayerGrowthStep(layer: seq<Voxel>, i: nat, c0: Cache, boxBlocked: Vec3 -> bool, budget0: int, order0: int,
                        prefix: seq<Voxel>, c: Cache, budget: int, order: int, a: seq<Voxel>, i': nat)
    requires i < |layer| && i' == i + 1 && prefix == LayerGrowth(layer, i, c0, boxBlocked, budget0, order0)
    requires c == Insert(c0, prefix) && budget == budget0 - |prefix| && order == order0 + |prefix| && 0 < budget
    requires a == ScanGrowth(layer[i], GetConnectedVoxels(layer[i]), 0, c, boxBlocked, budget, order)
    ensures prefix + a == LayerGrowth(layer, i', c0, boxBlocked, budget0, order0)
  {
    assert LayerGrowth(layer, i' - 1, c0, boxBlocked, budget0, order0) == prefix;
  }

  /** Once the budget is used up, the rounds left store nothing. */
  lemma {:induction false} LayerGrowthDone(layer: seq<Voxel>, i: nat, c0: Cache, boxBlocked: Vec3 -> bool,
                                           budget0: int, order0: int)
    requires i <= |layer| && budget0 - |LayerGrowth(layer, i, c0, boxBlocked, budget0, order0)| <= 0
    ensures LayerGrowth(layer, |layer|, c0, boxBlocked, budget0, order0)
            == LayerGrowth(layer, i, c0, boxBlocked, budget0, order0)
    decreases |layer| - i
  {
    if i < |layer| {
      assert LayerGrowth(layer, i + 1, c0, boxBlocked, budget0, order0)
             == LayerGrowth(layer, i, c0, boxBlocked, budget0, order0);
      LayerGrowthDone(layer, i + 1, c0, boxBlocked, budget0, order0);
    }
  }

  /** The rounds of a repair pass, one after another. */
  function Joined(rounds: seq<seq<Voxel>>): seq<Voxel> {
    if rounds == [] then [] else Joined(rounds[..|rounds| - 1]) + rounds[|rounds| - 1]
  }

  /** The layer the next round grows from, after `rounds`: the first layer, then what
      the last round stored. */
  function Frontier(layer: seq<Voxel>, rounds: seq<seq<Voxel>>): seq<Voxel> {
    if rounds == [] then layer else rounds[|rounds| - 1]
  }

  /** The rounds grow breadth first: each is the round a repair pass runs after the ones
      before it. */
  ghost predicate BreadthFirst(layer: seq<Voxel>, rounds: seq<seq<Voxel>>, c: Cache, boxBlocked: Vec3 -> bool,
                               budget: int, order: int)
    decreases |rounds|, 0
  {
    rounds == [] || RoundAfter(layer, rounds[..|rounds| - 1], rounds[|rounds| - 1], c, boxBlocked, budget, order)
  }

  /** The rounds of a repair pass from `layer`, with `budget` deletions, grew breadth
      first, and `next` is the round it runs after them: it is started because some
      deletion is still left and the last round stored something, and it stores the
      growth of the frontier, from the cache and order the earlier rounds leave. */
  ghost predicate RoundAfter(layer: seq<Voxel>, rounds: seq<seq<Voxel>>, next: seq<Voxel>, c: Cache,
                             boxBlocked: Vec3 -> bool, budget: int, order: int)
    decreases |rounds|, 1
  {
    BreadthFirst(layer, rounds, c, boxBlocked, budget, order)
    && var done := Joined(rounds);
    var from := Frontier(layer, rounds);
    budget - |done| > 0 && (rounds != [] ==> from != [])
    && next == LayerGrowth(from, |from|, Insert(c, done), boxBlocked, budget - |done|, order + |done|)
  }

  /** Every round of a breadth-first run is the round run after the ones before it. */
  lemma {:induction false} BreadthFirstAt(layer: seq<Voxel>, rounds: seq<seq<Voxel>>, c: Cache,
                                          boxBlocked: Vec3 -> bool, budget: int, order: int, k: nat)
    requires BreadthFirst(layer, rounds, c, boxBlocked, budget, order) && k < |rounds|
    ensures RoundAfter(layer, rounds[..k], rounds[k], c, boxBlocked, budget, order)
    decreases |rounds|
  {
    var n := |rounds| - 1;
    if k < n {
      assert RoundAfter(layer, rounds[..n], rounds[n], c, boxBlocked, budget, order);
      BreadthFirstAt(layer, rounds[..n], c, boxBlocked, budget, order, k);
      assert rounds[..n][..k] == rounds[..k] && rounds[..n][k] == rounds[k];
    }
  }

  /** A round started while some deletion is left, from the frontier, from the cache the
      earlier rounds leave (`cache`), with the deletions and order they leave (`left`,
      `from`), keeps the rounds breadth first. */
  lemma BreadthFirstNext(layer: seq<Voxel>, rounds: seq<seq<Voxel>>, c: Cache, boxBlocked: Vec3 -> bool,
                         budget: int, order: int, next: seq<Voxel>, current: seq<Voxel>, cache: Cache,
                         left: int, start: int)
    requires BreadthFirst(layer, rounds, c, boxBlocked, budget, order)
    requires current == Frontier(layer, rounds) && (rounds != [] ==> current != [])
    requires cache == Insert(c, Joined(rounds)) && left == budget - |Joined(rounds)| && start == order + |Joined(rounds)|
    requires 0 < left && next == LayerGrowth(current, |current|, cache, boxBlocked, left, start)
    ensures BreadthFirst(layer, rounds + [next], c, boxBlocked, budget, order)
    ensures Joined(rounds + [next]) == Joined(rounds) + next && Frontier(layer, rounds + [next]) == next
  {
    assert RoundAfter(layer, rounds, next, c, boxBlocked, budget, order);
    assert (rounds + [next])[..|rounds|] == rounds;
  }

  /** A repair pass from `layer` has run to its end: its rounds grew breadth first, and
      either no deletion is left or its last round stored nothing. */
  ghost predicate Repaired(layer: seq<Voxel>, rounds: seq<seq<Voxel>>, c: Cache, boxBlocked: Vec3 -> bool,
                           budget: int, order: int) {
    BreadthFirst(layer, rounds, c, boxBlocked, budget, order)
    && (budget - |Joined(rounds)| <= 0 || (|rounds| > 0 && rounds[|rounds| - 1] == []))
  }

  /** Two breadth-first runs from the same layer, cache, budget and order agree on the
      rounds both have: each round is fixed by the ones before it. */
  lemma {:induction false} BreadthFirstAgree(layer: seq<Voxel>, rounds: seq<seq<Voxel>>, rounds': seq<seq<Voxel>>,
                                             c: Cache, boxBlocked: Vec3 -> bool, budget: int, order: int, n: nat)
    requires BreadthFirst(layer, rounds, c, boxBlocked, budget, order)
    requires BreadthFirst(layer, rounds', c, boxBlocked, budget, order)
    requires n <= |rounds| && n <= |rounds'|
    ensures rounds[..n] == rounds'[..n]
    decreases n
  {
    if n > 0 {
      var k := n - 1;
      BreadthFirstAgree(layer, rounds, rounds', c, boxBlocked, budget, order, k);
      BreadthFirstAt(layer, rounds, c, boxBlocked, budget, order, k);
      BreadthFirstAt(layer, rounds', c, boxBlocked, budget, order, k);
      assert rounds[..n] == rounds[..k] + [rounds[k]] && rounds'[..n] == rounds'[..k] + [rounds'[k]];
    }
  }

  /** Round k of a breadth-first run started with some deletion left, and after a
      round that stored something. */
  lemma RoundStarted(layer: seq<Voxel>, rounds: seq<seq<Voxel>>, c: Cache, boxBlocked: Vec3 -> bool,
                     budget: int, order: int, k: nat)
    requires BreadthFirst(layer, rounds, c, boxBlocked, budget, order) && k < |rounds|
    ensures budget - |Joined(rounds[..k])| > 0 && (0 < k ==> rounds[k - 1] != [])
  {
    BreadthFirstAt(layer, rounds, c, boxBlocked, budget, order, k);
    assert 0 < k ==> rounds[..k][k - 1] == rounds[k - 1];
  }

  /** A finished repair pass has no breadth-first run from the same start longer than
      it: once no deletion is left, or a round stored nothing, no further round starts. */
  lemma {:induction false} RepairedLongest(layer: seq<Voxel>, rounds: seq<seq<Voxel>>, rounds': seq<seq<Voxel>>,
                                           c: Cache, boxBlocked: Vec3 -> bool, budget: int, order: int)
    requires Repaired(layer, rounds, c, boxBlocked, budget, order)
    requires BreadthFirst(layer, rounds', c, boxBlocked, budget, order)
    ensures |rounds'| <= |rounds|
  {
    var n := |rounds|;
    if |rounds'| > n {
      BreadthFirstAgree(layer, rounds, rounds', c, boxBlocked, budget, order, n);
      assert rounds[..n] == rounds;
      RoundStarted(layer, rounds', c, boxBlocked, budget, order, n);
      assert false;
    }
  }

  /** A repair pass has one outcome: two finished breadth-first runs from the same
      layer, cache, budget and order are the same rounds. */
  lemma RepairedUnique(layer: seq<Voxel>, rounds: seq<seq<Voxel>>, rounds': seq<seq<Voxel>>,
                       c: Cache, boxBlocked: Vec3 -> bool, budget: int, order: int)
    requires Repaired(layer, rounds, c, boxBlocked, budget, order)
    requires Repaired(layer, rounds', c, boxBlocked, budget, order)
    ensures rounds == rounds'
  {
    RepairedLongest(layer, rounds, rounds', c, boxBlocked, budget, order);
    RepairedLongest(layer, rounds', rounds, c, boxBlocked, budget, order);
    BreadthFirstAgree(layer, rounds, rounds', c, boxBlocked, budget, order, |rounds|);
    assert rounds[..|rounds|] == rounds && rounds'[..|rounds'|] == rounds';
  }

  /** What CalculateSphere leaves, started from an empty cache, buckets o0 and
      maxRadius m0, with `emitted` the voxels GenerateSphere emitted, `stored` the voxels
      the repair pass stored and firstRadius the maxRadius the first pass left:
      - the store is consistent and grown as the repair log says, with orders below
        log.base + |log.repaired|;
      - the kept positions are exactly the interior cells the raycast lets through, each
        stored as the constructor made it, within firstRadius, which is m0 or attained;
      - the repair log hands out orders from firstRadius + 1;
      - from the first pass's store, the repair pass stored `stored`, each grown from a
        voxel of the out layer or from one stored before it, numbered from log.base;
      - the stored voxels and the `remaining` unreplaced deletions make up the sphere,
        and when some remain, every voxel of the out layer and every stored voxel is
        enclosed: no face neighbour of any of them is left to grow into. */
  ghost predicate SphereCalculated(r: int, rayBlocked: Vec3 -> bool, boxBlocked: Vec3 -> bool, m0: int, o0: Buckets,
                                   emitted: seq<Voxel>, stored: seq<Voxel>, firstRadius: int,
                                   remaining: int,
                                   c: Cache, o: Buckets, m: int, log: RepairLog) {
    StoreInv(c, o) && Grown(c, log, boxBlocked, log.base + |log.repaired|)
    && Positions(emitted) == SpherePoints(r) && AllFresh(emitted)
    && (forall p :: p in log.kept <==> InSphere(p, r) && !rayBlocked(p))
    && (forall p :: p in log.kept ==> p in c && c[p] == NewVoxel(p, SqrMag(p)) && c[p].dist <= firstRadius)
    && (firstRadius == m0 || exists p :: p in log.kept && p in c && c[p].dist == firstRadius)
    && firstRadius == MaxDist(m0, Kept(emitted, rayBlocked)) && log.base == firstRadius + 1
    && c == Insert(map[], Kept(emitted, rayBlocked) + stored)
    && o == PutAll(o0, Kept(emitted, rayBlocked) + stored)
    && m == MaxDist(m0, Kept(emitted, rayBlocked) + stored)
    && RepairedFrom(RepairLog(log.kept, map[], [], log.base), log, stored,
                    Outermost(Kept(emitted, rayBlocked), m0).1 + stored)
    && Numbered(stored, log.base)
    && 0 <= remaining && |c| + remaining == |SpherePoints(r)|
    && (remaining > 0 ==> EachEnclosed(Outermost(Kept(emitted, rayBlocked), m0).1 + stored, c, boxBlocked))
  }

  /** How the repair pass of CalculateSphere grew after the first pass over `emitted`,
      started from maxRadius m0: that pass left the cache c1 of the kept voxels, maxRadius
      m1 and `deleted` cells of the sphere unkept; from `shuffled`, a shuffle of its out
      layer, the repair pass grew breadth first in `rounds`, from c1, with the deletions
      as its budget and orders from m1 + 1, until none was left or a round stored
      nothing; `stored` are the rounds one after another. */
  ghost predicate SphereRepaired(r: int, rayBlocked: Vec3 -> bool, boxBlocked: Vec3 -> bool, m0: int,
                                 emitted: seq<Voxel>, c1: Cache, m1: int, deleted: int, shuffled: seq<Voxel>,
                                 rounds: seq<seq<Voxel>>, stored: seq<Voxel>) {
    c1 == Insert(map[], Kept(emitted, rayBlocked)) && m1 == MaxDist(m0, Kept(emitted, rayBlocked))
    && |c1| + deleted == |SpherePoints(r)|
    && multiset(shuffled) == multiset(Outermost(Kept(emitted, rayBlocked), m0).1)
    && Repaired(shuffled, rounds, c1, boxBlocked, deleted, m1 + 1) && stored == Joined(rounds)
  }

  /** The first pass followed by the repair pass, grown from a shuffle of the out layer,
      leaves what SphereCalculated describes. */
  lemma CalculatedFrom(r: int, rayBlocked: Vec3 -> bool, boxBlocked: Vec3 -> bool, m0: int, o0: Buckets,
                       emitted: seq<Voxel>, c1: Cache, o1: Buckets, firstRadius: int, log1: RepairLog,
                       out: seq<Voxel>, deleted: int, layer: seq<Voxel>, stored: seq<Voxel>,
                       remaining: int, c: Cache, o: Buckets, m: int, log: RepairLog)
    requires FirstPassed(r, rayBlocked, boxBlocked, m0, o0, emitted, c1, o1, firstRadius, out, deleted, log1)
    requires multiset(layer) == multiset(out)
    requires StoreInv(c, o) && Grown(c, log, boxBlocked, log.base + |log.repaired|)
    requires 0 <= remaining && |c| + remaining == |SpherePoints(r)|
    requires Extends(c1, c)
    requires remaining > 0 ==> EachEnclosed(layer + stored, c, boxBlocked)
    requires c == Insert(c1, stored) && o == PutAll(o1, stored) && m == MaxDist(firstRadius, stored)
    requires RepairedFrom(log1, log, stored, layer + stored) && Numbered(stored, firstRadius + 1)
    ensures SphereCalculated(r, rayBlocked, boxBlocked, m0, o0, emitted, stored, firstRadius, remaining,
                             c, o, m, log)
  {
    PermutedWithin(layer, out, stored);
    RepairedFromWiden(log1, log, stored, layer + stored, out + stored);
    StoreConcat(map[], o0, m0, Kept(emitted, rayBlocked), stored);
    KeptUnchanged(c1, c, firstRadius, m0);
  }
}
