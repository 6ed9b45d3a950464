# VoxelSphere, modelled in Dafny

This project models the core of `VoxelSphere`, the Unity component of a voxel smoke
effect. The Unity, physics and GPU layers are left out. The model covers five pieces:

- **Lattice enumeration** (`Lattice`). `GenerateSphere` walks the octant `0 <= tx, ty, tz < r`.
  For every interior cell it emits the sign reflections and never flips a zero coordinate.
  The emitted list is proved to hold every integer point with x² + y² + z² < r² exactly once,
  and nothing else.
- **Face neighbours** (`Voxels.GetConnectedVoxels`): the six face-adjacent cells of a voxel.
- **Voxel store** (`Store`, `Sphere.VoxelSphere.AddVoxel`). The store has two indexes:
  - the position-keyed cache;
  - the `Order`-keyed buckets of the sorted dictionary.

  The invariant `StoreInv` says the two indexes agree.
- **Voxelise and repair** (`FirstPass`, `Repair`, `Connectivity`, and `CalculateSphere` with its loops).
  - The first pass keeps the emitted cells that the raycast lets through and counts the others as deleted.
  - The repair pass then grows layer by layer from the shuffled out layer. It stores unblocked,
    uncached face neighbours with orders `maxRadius + 1`, `maxRadius + 2`, and so on.
    It stops when no deleted cell is left or a layer finds nothing.
  - Throughout, `|cache| + deleted` equals the number of emitted cells.
  - Every repaired cell hangs off a stored face neighbour with a smaller order. So every
    stored cell is reached from a kept cell by a chain of stored face neighbours.
- **Reveal list** (`Reset`, `Update`).
  - `Reset` appends every stored voxel to the transition list: once each, in non-decreasing
    order key, and in bucket insertion order within a key.
  - `Update` reveals a growing run of that list in the debug view, tracked by `prevI`.

Modelling choices:
- Positions are integer triples, since the voxel scale never scales a local position.
- Distances and the kept voxels' order keys are squared lengths. The source's square root
  orders them the same way and splits them into the same buckets.
- The raycast and the box test are parameters `Vec3 -> bool`.
- The shuffle is an arbitrary permutation, chosen by `:|` on multisets.
- Emission through a callback becomes a returned list. The first pass's callback is the method `Visit`.

Two quirks of the code are reproduced as written:
- `Reset` appends without clearing the list first.
- `Update` starts at `prev_i + 1` from `prev_i = 0`, so list index 0 is never revealed.
  `Revealing` states this as an invariant: debug entry k is transition entry k + 1.

The out layer is a third quirk. After the first pass it holds every kept voxel emitted from the
first voxel at the final maximum distance onwards (`FirstPass.OutermostTail`), not only the
outermost shell.

For r = 2 the strict test `sqrt(x²+y²+z²) < r` keeps 27 points, all of {-1, 0, 1}³
(`Lattice.RadiusTwoCount`); the closed ball x² + y² + z² <= 4 would have 33.

## Model

| member | source | states |
|---|---|---|
| Voxels.NewVoxel | Scripts/VoxelSphere.cs:12-16 | a new voxel has the given position and distance, and its order equals its distance |
| Voxels.GetConnectedVoxels | Scripts/VoxelSphere.cs:211-220 | six voxels whose positions are exactly the face-adjacent cells, pairwise distinct, none equal to the voxel's own position, each with distance and order equal to its squared length |
| Voxels.ConnectedVoxelsSound | Scripts/VoxelSphere.cs:211-220 | the six listed voxels are fresh, their positions are exactly the cells face-adjacent to the voxel, none twice and not the voxel's own |
| Geometry.InSphereBounds | Scripts/VoxelSphere.cs:223-228 | every coordinate of an interior offset is below r in magnitude, so the loop bounds never cut the sphere |
| Geometry.SqrMagCanonical | Scripts/VoxelSphere.cs:226-257 | reflecting an offset into another octant keeps its squared length, so every reflection carries the cell's distance |
| Lattice.ReflectionsExact | Scripts/VoxelSphere.cs:229-257 | the reflections a cell emits are exactly the offsets whose coordinate magnitudes are the cell's |
| Lattice.ReflectionsNoDup | Scripts/VoxelSphere.cs:229-257 | no reflection is emitted twice, zero coordinates included |
| Lattice.ReflectionsLength | Scripts/VoxelSphere.cs:229-257 | a cell emits one point per sign choice of its non-zero coordinates: 2 per non-zero coordinate, 1 per zero one |
| Lattice.ReflectionsSqrMag | Scripts/VoxelSphere.cs:226-257 | every reflection has the cell's squared length |
| Lattice.CellsOfSound | Scripts/VoxelSphere.cs:226-258 | a cell of the octant emits only points whose octant representative is that cell, and none twice; outside the sphere it emits nothing |
| Lattice.ConcatMembers | Scripts/VoxelSphere.cs:223-261 | when every point a loop round emits carries that round's index as its key, the first n rounds emit exactly the points whose key is below n and whose own round emits them |
| Lattice.ConcatNoDup | Scripts/VoxelSphere.cs:223-261 | rounds that each emit no point twice, and whose points carry the round's index as key, emit no point twice together |
| Lattice.ZRunMembers | Scripts/VoxelSphere.cs:225-259 | for cells that emit only points of their own octant orbit, the `tz` loop emits exactly the points with \|x\| = tx, \|y\| = ty and \|z\| below the loop count that their own cell emits |
| Lattice.ZRunNoDup | Scripts/VoxelSphere.cs:225-259 | the `tz` loop emits no point twice |
| Lattice.YRunMembers | Scripts/VoxelSphere.cs:224-260 | the `ty` loop emits exactly the points with \|x\| = tx, \|y\| below the loop count and \|z\| below r that their own cell emits |
| Lattice.YRunNoDup | Scripts/VoxelSphere.cs:224-260 | the `ty` loop emits no point twice |
| Lattice.XRunMembers | Scripts/VoxelSphere.cs:223-261 | the `tx` loop emits exactly the points with \|x\| below the loop count and \|y\|, \|z\| below r that their own cell emits |
| Lattice.XRunNoDup | Scripts/VoxelSphere.cs:223-261 | the `tx` loop emits no point twice |
| Lattice.SpherePointsExact | Scripts/VoxelSphere.cs:222-262 | the sphere's emission holds a point iff x² + y² + z² < r² (nothing when r <= 0), and holds no point twice |
| Lattice.RadiusTwoCount | Scripts/VoxelSphere.cs:222-262 | for r = 2 exactly 27 points are emitted |
| Lattice.RadiusTwoColumn | Scripts/VoxelSphere.cs:225-259 | for r = 2 each `tz` column emits three points per sign choice of tx and ty |
| Lattice.EmitCell | Scripts/VoxelSphere.cs:229-257 | the innermost loop body emits one fresh voxel per reflection of the cell, all with the cell's distance |
| Lattice.ColumnStep | Scripts/VoxelSphere.cs:225-259 | one round of the `tz` loop takes the emitted positions from the column's first tz cells to its first tz + 1 (nothing is added outside the sphere), and every voxel stays as the constructor makes it |
| Lattice.EmitColumn | Scripts/VoxelSphere.cs:225-259 | the `tz` loop emits the voxels of the column's points in order, each as the constructor makes it from its squared length |
| Lattice.EmitSlab | Scripts/VoxelSphere.cs:224-260 | the `ty` loop emits the voxels of the slab's points in order, each fresh |
| Lattice.GenerateSphere | Scripts/VoxelSphere.cs:222-262 | the positions emitted are the sphere's points in loop order, and each voxel's distance and order are its squared length |
| Store.Put | Scripts/VoxelSphere.cs:136-139 | the voxel is appended to the bucket of its order, which is created when missing; the key set gains only that order and every other bucket is unchanged |
| Store.PutKeepsStore | Scripts/VoxelSphere.cs:133-139 | adding a voxel at a new position keeps the cache and the buckets in agreement |
| Store.PutKeyed | Scripts/VoxelSphere.cs:136-139 | after Put every bucket still holds only voxels of its own order |
| Store.PutCached | Scripts/VoxelSphere.cs:133-139 | after adding a voxel at a new position, every bucketed voxel is the cache entry at its position |
| Store.PutNoDup | Scripts/VoxelSphere.cs:133-139 | adding a voxel at a new position leaves no bucket holding a voxel twice |
| Store.PutCovers | Scripts/VoxelSphere.cs:133-139 | after adding a voxel at a new position, every cache entry sits at its own position in the bucket of its order |
| Store.FlattenAddMax | Scripts/VoxelSphere.cs:268-273 | visiting one more key, above all keys visited so far, appends exactly that key's bucket |
| Store.VisitLeast | Scripts/VoxelSphere.cs:268-273 | visiting the least key still to visit appends exactly its bucket and keeps every visited key below every key still to visit |
| Store.FlattenSorted | Scripts/VoxelSphere.cs:268-273 | the ascending enumeration lists only voxels of the visited keys, in non-decreasing order key |
| Store.SelectConcat | Scripts/VoxelSphere.cs:268-273 | the voxels of one order key in a + b are those in a followed by those in b |
| Store.SelectUniform | Scripts/VoxelSphere.cs:268-273 | a bucket whose voxels all have key m contributes itself to key m and nothing to any other key |
| Store.FlattenSelect | Scripts/VoxelSphere.cs:268-273 | within one key the enumeration lists that key's voxels exactly as the bucket received them |
| Store.FlattenMembers | Scripts/VoxelSphere.cs:268-273 | the enumeration holds a voxel iff it sits in a visited bucket, and holds none twice |
| Store.FlattenExact | Scripts/VoxelSphere.cs:268-273 | enumerating all buckets lists every stored voxel once and nothing else |
| Store.FlattenCount | Scripts/VoxelSphere.cs:268-273 | enumerating all buckets yields as many voxels as the cache holds |
| Store.TransitionList | Scripts/VoxelSphere.cs:264-273 | what Reset appends holds each stored voxel exactly once and nothing else, as many entries as the cache, in non-decreasing order key, with each key's voxels in bucket order |
| Store.ListedPositionsExact | Scripts/VoxelSphere.cs:264-273 | a list holding exactly the stored voxels holds exactly the cached positions |
| Store.ListedPositionsDistinct | Scripts/VoxelSphere.cs:264-273 | a repeat-free list of exactly the stored voxels lists no position twice |
| Store.CachedPermuted | Scripts/VoxelSphere.cs:169 | shuffling the out layer keeps every one of its voxels stored |
| FirstPass.KeptMembers | Scripts/VoxelSphere.cs:153-166 | a voxel is kept iff it was emitted and the raycast lets it through |
| FirstPass.KeptNoDup | Scripts/VoxelSphere.cs:153-166 | when the emitted positions are distinct, so are the kept ones |
| FirstPass.KeptStep | Scripts/VoxelSphere.cs:153-166 | seeing one more emitted voxel appends it to the kept ones iff the raycast lets it through |
| FirstPass.KeepOne | Scripts/VoxelSphere.cs:155-163 | keeping one more voxel inserts it into the cache, puts it in its bucket and widens maxRadius and the out layer as lines 157-163 do |
| FirstPass.KeptLength | Scripts/VoxelSphere.cs:153-166 | the first pass keeps at most as many voxels as were emitted |
| FirstPass.KeptPositions | Scripts/VoxelSphere.cs:153-166 | a position is kept iff it was emitted and is not ray-blocked |
| FirstPass.InsertKeys | Scripts/VoxelSphere.cs:134 | after the inserts the cache holds exactly the old positions and the inserted ones, and old entries elsewhere are unchanged |
| FirstPass.InsertValues | Scripts/VoxelSphere.cs:134 | every new cache entry is the fresh voxel for its position when all inserted voxels are fresh |
| FirstPass.InsertSize | Scripts/VoxelSphere.cs:134 | inserting voxels at distinct new positions grows the cache by their number |
| FirstPass.StoreOne | Scripts/VoxelSphere.cs:184-192 | storing one more voxel takes one step each of the cache insert, the bucket Put and the maxRadius update |
| FirstPass.StoreConcat | Scripts/VoxelSphere.cs:155-192 | storing a and then b leaves the cache, the buckets and maxRadius as storing a + b |
| FirstPass.MaxDistBounds | Scripts/VoxelSphere.cs:157-158 | the running maximum is at least its start value, bounds every distance seen, and is attained unless it kept its start value |
| FirstPass.OutermostRadius | Scripts/VoxelSphere.cs:157-163 | the maxRadius the first pass tracks alongside its out layer is the running maximum of the kept distances |
| FirstPass.OutermostMax | Scripts/VoxelSphere.cs:157-163 | maxRadius never decreases, bounds every kept distance, and is attained unless it kept its start value |
| FirstPass.OutermostTail | Scripts/VoxelSphere.cs:157-163 | the out layer is a suffix of the kept voxels; every voxel before it is strictly closer; when maxRadius grew, the layer starts with a voxel at the new maximum, and otherwise it is every kept voxel |
| FirstPass.FirstPassStore | Scripts/VoxelSphere.cs:152-167 | from an empty cache the first pass stores exactly the emitted, unblocked positions, each with its constructor voxel |
| FirstPass.FirstPassBound | Scripts/VoxelSphere.cs:155-158 | no stored voxel is farther out than the final maxRadius |
| FirstPass.FirstPassLayer | Scripts/VoxelSphere.cs:155-163 | every voxel of the out layer is stored |
| FirstPass.FirstPassGrown | Scripts/VoxelSphere.cs:157-158 | after the first pass every stored order lies in [0, maxRadius + 1), the first repair order (line 171) |
| FirstPass.FirstPassState | Scripts/VoxelSphere.cs:148-171 | the first pass over the sphere's cells stores exactly the interior cells the raycast lets through, each as the constructor made it; maxRadius bounds their distances and is attained unless it kept its start value; the out layer is stored; \|cache\| + deleted is the number of interior cells; the repair invariant holds with base maxRadius + 1 |
| Connectivity.ChainTo | Scripts/VoxelSphere.cs:179-187 | following growth links back from a stored position gives a chain of face-adjacent stored cells ending at it and starting at a cell with no parent |
| Repair.AttachKeepsGrown | Scripts/VoxelSphere.cs:182-189 | storing an unblocked, uncached face neighbour of a stored voxel with the next order keeps the repair invariant: kept orders lie below the base, and the i-th repaired voxel has order base + i, passed the box test and hangs off a stored face neighbour of smaller order |
| Repair.RepairedFromOne | Scripts/VoxelSphere.cs:184-189 | storing a neighbour grown from a layer voxel extends the log: its position is appended to the repaired ones with that voxel as parent, one distance unit further out; kept positions, base and earlier parents are unchanged |
| Repair.RepairedFromTrans | Scripts/VoxelSphere.cs:173-208 | two stretches of repair one after the other make one: the repaired positions concatenate and every parent stays recorded |
| Repair.RepairedFromWiden | Scripts/VoxelSphere.cs:178-207 | a voxel grown from a voxel of one layer is grown from a voxel of any list that holds that layer |
| Repair.GrownReachable | Scripts/VoxelSphere.cs:178-187 | under the repair invariant every stored position is reached from a kept position by a chain of face-adjacent stored cells |
| Growth.PermutedWithin | Scripts/VoxelSphere.cs:169-207 | a voxel is in the shuffled out layer or stored since iff it is in the out layer or stored since |
| Growth.EnclosedExtends | Scripts/VoxelSphere.cs:173-208 | a voxel whose face neighbours are all stored or box-blocked stays so while the cache only grows |
| Growth.AllEnclosedStep | Scripts/VoxelSphere.cs:177-201 | the layer voxels already scanned stay enclosed as the cache grows, and with voxel i enclosed too the first i + 1 are |
| Growth.EnclosedButGrow | Scripts/VoxelSphere.cs:173-207 | once every voxel of the current layer is enclosed, every voxel grown from or stored is enclosed except possibly those of the next layer |
| Growth.KeptUnchanged | Scripts/VoxelSphere.cs:172-208 | the repair pass leaves the first pass's voxels as they were, so their distances stay within the first pass's maxRadius, which one of them attains unless it kept its start value |
| Growth.CalculatedFrom | Scripts/VoxelSphere.cs:147-209 | the first pass followed by the repair pass from a shuffle of the out layer yields the whole-sphere account: kept cells are the unblocked interior cells as the constructor made them, within and attaining the first maxRadius; the cache, buckets and maxRadius are those of the kept then the repaired voxels; each repaired voxel is numbered from maxRadius + 1 and grown from the out layer or an earlier repaired voxel; \|cache\| + remaining is the number of interior cells; when deleted cells remain, every voxel of the out layer and every repaired voxel has all its face neighbours stored or box-blocked |
| Growth.ScanGrowthSound | Scripts/VoxelSphere.cs:181-201 | the neighbour loop stores at most the deletions left, numbered consecutively from the current order, each one step further out than its parent and at a position that was neither stored nor box-blocked |
| Growth.ScanGrowthWithin | Scripts/VoxelSphere.cs:179-201 | every voxel the neighbour loop stores takes the position of one of the connected voxels it scans |
| Growth.ScanGrowthComplete | Scripts/VoxelSphere.cs:181-201 | when the neighbour loop stores fewer voxels than the deletions left, every neighbour it scans is stored or box-blocked afterwards |
| Growth.LayerGrowthSound | Scripts/VoxelSphere.cs:178-202 | one round over a layer stores at most the deletions left, numbered consecutively from the round's first order |
| Growth.LayerGrowthStep | Scripts/VoxelSphere.cs:178-202 | after the first i layer voxels, the round's growth continues with what the neighbour loop of layer voxel i stores from the cache and order they leave |
| Growth.LayerGrowthDone | Scripts/VoxelSphere.cs:178-202 | once no deletion is left the remaining layer voxels store nothing, which is the early exit `!end` of the layer loop |
| Growth.BreadthFirstAt | Scripts/VoxelSphere.cs:173-208 | each round of a breadth-first run is the one the repair loop runs after the rounds before it: started with some deletion left, from the last round's voxels, and storing their growth |
| Growth.BreadthFirstNext | Scripts/VoxelSphere.cs:173-208 | a round grown from the frontier while some deletion is left extends a breadth-first run; the stored voxels gain that round and it becomes the next frontier (line 207) |
| Growth.BreadthFirstAgree | Scripts/VoxelSphere.cs:173-208 | two breadth-first runs from the same out layer, cache, deletions and order agree on every round both have |
| Growth.RoundStarted | Scripts/VoxelSphere.cs:173-205 | every round of a breadth-first run started with some deletion left and, after the first, after a round that stored something |
| Growth.RepairedLongest | Scripts/VoxelSphere.cs:173-208 | a finished repair pass has no breadth-first run from the same start longer than it: its stop tests (line 173 and lines 204-205) leave no further round to run |
| Growth.RepairedUnique | Scripts/VoxelSphere.cs:173-208 | a finished repair pass from a given out layer, cache, deletions and order has exactly one outcome: any two finished breadth-first runs are the same rounds |
| Sphere.ScannedStore | Scripts/VoxelSphere.cs:181-187 | storing neighbour j itself extends the scanned prefix past it |
| Sphere.ScannedEnclosed | Scripts/VoxelSphere.cs:179-201 | when all six neighbours GetConnectedVoxels lists are stored or box-blocked, every face neighbour of the voxel is |
| Sphere.FreshAfter | Scripts/VoxelSphere.cs:153-166 | storing emitted voxel i keeps the positions of all later emitted voxels uncached |
| Sphere.Clamp | Scripts/VoxelSphere.cs:284 | the clamped value lies in [lo, hi], equals the input when that is in range, and is the nearer bound otherwise |
| Sphere.Shown | Scripts/VoxelSphere.cs:286-291 | the debug entries for a run of the list have its length and list positions, in order |
| Sphere.RevealingAppend | Scripts/VoxelSphere.cs:268-272 | appending to the transition list keeps what has been revealed of it |
| Sphere.RevealingNext | Scripts/VoxelSphere.cs:286-291 | revealing the entry after the last one shown keeps debug entry k equal to list entry k + 1 |
| Sphere.VoxelSphere.constructor | Scripts/VoxelSphere.cs:45-64 | the fields start empty, with prevI and maxRadius 0, and the component is valid |
| Sphere.VoxelSphere.AddVoxel | Scripts/VoxelSphere.cs:133-139 | requires the position to be absent; the cache gains exactly that entry, the buckets are Put's, and the indexes stay in agreement |
| Sphere.VoxelSphere.Visit | Scripts/VoxelSphere.cs:153-166 | an unblocked voxel is stored and widens maxRadius and the out layer; a blocked one changes nothing but the deleted count |
| Sphere.VoxelSphere.KeepVisible | Scripts/VoxelSphere.cs:152-167 | after the first pass the cache, buckets, maxRadius and out layer are those of the kept voxels, and deleted counts the blocked ones |
| Sphere.VoxelSphere.RunFirstPass | Scripts/VoxelSphere.cs:148-171 | from an empty cache the first pass stores exactly the interior cells the raycast lets through, each as the constructor made it, in the cache and (in emission order) the buckets; maxRadius bounds every stored distance and is attained unless it kept its start value; \|cache\| + deleted is the number of emitted cells; the out layer is stored; the repair invariant holds with base maxRadius + 1 |
| Sphere.VoxelSphere.Attach | Scripts/VoxelSphere.cs:184-192 | the neighbour is stored one step further out than its parent, with the next order; the repair invariant holds with the counter one further on; maxRadius grows to cover it |
| Sphere.VoxelSphere.ScanNeighbours | Scripts/VoxelSphere.cs:179-201 | the stored voxels are exactly ScanGrowth's: the six neighbours in list order, each stored when it is neither stored nor box-blocked while deletions remain; each stored neighbour decrements deleted, which stays non-negative with \|cache\| + deleted constant; the scan ends when deleted reaches 0, and unless it did, all six neighbours are stored or box-blocked afterwards (whether or not anything grew); the stored voxels are exactly the ones added to the cache, to their buckets (in order) and to maxRadius, carry consecutive orders, and are logged as repaired from u, with kept positions and base unchanged |
| Sphere.VoxelSphere.ScanStep | Scripts/VoxelSphere.cs:181-199 | one round of the neighbour loop: an uncached, unblocked neighbour j is stored one step further out than u with the next order, decrementing deleted, and anything else changes nothing; either way neighbour j is afterwards stored or box-blocked, the account of ScanNeighbours carries over, and the stored voxels followed by what ScanGrowth stores from neighbour j + 1 remain the whole scan |
| Sphere.VoxelSphere.GrowFrom | Scripts/VoxelSphere.cs:178-201 | as ScanNeighbours over the six neighbours GetConnectedVoxels lists, storing exactly their ScanGrowth from the old cache; unless deleted reached 0, every face neighbour of the voxel is stored or box-blocked afterwards |
| Sphere.VoxelSphere.LayerStep | Scripts/VoxelSphere.cs:178-202 | one round of the layer loop: GrowFrom on layer voxel i; the new layer grows by what it stored and stays the layer's growth of the first i + 1 voxels, with the account and the enclosure of the scanned voxels carried over |
| Sphere.VoxelSphere.GrowLayer | Scripts/VoxelSphere.cs:174-202 | the new layer is exactly LayerGrowth: each layer voxel's GrowFrom in turn, in scan order, until no deletion is left; one round keeps the repair invariant and the count; found iff deleted dropped; the new layer is stored and is exactly what was added to the cache, the buckets and maxRadius, numbered consecutively and grown from voxels of the layer; unless deleted reached 0, every layer voxel was scanned and has all its face neighbours stored or box-blocked; when nothing was found the cache is unchanged |
| Sphere.VoxelSphere.GrowLayerTracked | Scripts/VoxelSphere.cs:174-207 | one round of the repair loop from the frontier: the rounds stay breadth first with the new layer appended and becoming the frontier; found iff deleted dropped; when nothing was found the new layer is empty, the cache unchanged and every voxel of the frontier enclosed |
| Sphere.VoxelSphere.RepairRounds | Scripts/VoxelSphere.cs:173-208 | the repair loop ends with its rounds breadth first and either no deletion left or a last round that stored nothing, with every voxel grown from or stored enclosed |
| Sphere.VoxelSphere.RepairPass | Scripts/VoxelSphere.cs:171-208 | the rounds are breadth first and the pass ran to its end (Repaired): round after round is the layer growth of the previous round's voxels, started only while deletions remain and the previous round stored something, and the stored voxels are the rounds one after another; the loop terminates on the variant deleted; \|cache\| + remaining stays the emitted count with remaining >= 0 and remaining = deleted - \|stored\|; first-pass entries are untouched; the stored voxels are exactly what was added to the cache, buckets and maxRadius, numbered from the first order on and each grown from the first layer or an earlier stored voxel; when deleted cells remain, every voxel of the first layer and every stored voxel has all its face neighbours stored or box-blocked, so no round could grow further |
| Sphere.VoxelSphere.CalculateSphere | Scripts/VoxelSphere.cs:147-209 | the whole-sphere account of Growth.CalculatedFrom holds of the final state: kept positions are exactly the interior cells the raycast lets through, each with its constructor voxel, within and attaining the first maxRadius; cache, buckets and maxRadius are those of the kept then repaired voxels; repaired orders run from maxRadius + 1; \|cache\| + remaining equals the number of interior cells; when remaining > 0, every voxel of the out layer and every repaired voxel has all its face neighbours stored or box-blocked; the repair grew breadth first from a shuffle of the out layer, from the first pass's cache, deletions and maxRadius + 1 (SphereRepaired); the grid radius r is a parameter |
| Sphere.VoxelSphere.Initialize | Scripts/VoxelSphere.cs:93-95 | CalculateSphere then Reset: everything CalculateSphere promises holds, including the breadth-first repair and that unreplaced deleted cells leave no voxel grown from or stored with an open face neighbour, and the transition list gains the bucket enumeration |
| Sphere.VoxelSphere.Reset | Scripts/VoxelSphere.cs:264-276 | the transition list gains exactly the ascending bucket enumeration, appended without clearing, and what was revealed stays valid |
| Sphere.VoxelSphere.AppendBucket | Scripts/VoxelSphere.cs:269-272 | one bucket's voxels are appended in insertion order |
| Sphere.VoxelSphere.Update | Scripts/VoxelSphere.cs:282-291 | outside the debug view nothing changes; otherwise the entries from prevI + 1 up to the clamped target are revealed in order and prevI becomes the last one; the revealed list only grows, and debug entry k is transition entry k + 1 |

## Left out

- Floating point: distances are squared integer lengths, not `sqrt` floats. The strict test `sqrt(n) < r` is modelled as n < r². That matches for every r a float sqrt rounds correctly, and is not modelled for radii large enough that rounding matters.
- Sphere.VoxelSphere.Attach: a repaired voxel's distance is the parent's distance plus one in the model's units, which are squared lengths for kept parents. The source adds one to a Euclidean distance. The repaired voxels' distances and the maxRadius value after repair are therefore not the source's numbers; their orders and buckets are unaffected.
- Order keys are integers: kept voxels use their squared length, and repaired voxels use the first pass's final maxRadius (a squared length) plus 1, 2, and so on. This gives the same ordering and bucket partition as the source's float keys.
- `Physics.Raycast` and `Physics.CheckBox` are scene queries: they are the parameters `rayBlocked` and `boxBlocked`.
- `Shuffle` is randomness: the model takes an arbitrary permutation.
- `Random.ColorHSV` is randomness: a debug entry records only its position.
- The growth curve and `normalizedTime` are floats driven by the frame clock. `Update` takes the rounded target count as the integer parameter `target`.
- `GlobalBounds`, `UpdateGridSize`, `UpdateVoxelCell`, `Render`, the render bounds and all compute-buffer, material and draw calls are GPU and Unity glue.
- The Unity set-up in `Initialize` (lines 66-92) is not modelled; only its calls to CalculateSphere and Reset are.
- Sphere.VoxelSphere.CalculateSphere: takes the grid radius r as an integer parameter. The source derives it as `Mathf.RoundToInt(m_maxRadius / m_voxelScale)` (line 148), a float division and rounding that is not modelled.
- Sphere.VoxelSphere.CalculateSphere: requires an empty cache and a non-negative maxRadius, the state the component starts in. A second call on a filled cache would fail in `Dictionary.Add` and is not modelled.
- The loops of CalculateSphere are split into helper methods (Visit, KeepVisible, ScanNeighbours, GrowFrom, GrowLayer, RepairPass). The early `break` of the neighbour loop is its loop guard `!end`, and the body of that loop is the method ScanStep. The repair loop is the method RepairRounds, with its `if (!foundConnected || end) break;`, and its body is GrowLayerTracked; the body of the layer loop is LayerStep. AttachTracked, LayerStep and GrowLayerTracked call Attach, GrowFrom and GrowLayer and carry the ghost account of what has been stored so far from one loop round to the next; they add no behaviour.
- Voxels are values. The source sets the distance and order of `connectedVoxels[j]` in place (lines 184-185), but that object is freshly made and referenced nowhere else, so building a new value changes nothing observable.
- Scripts/Raymarcher.cs, Scripts/Editor/RaymarcherEditor.cs, Scripts/SmokeSettings.cs, Scripts/VoxeletricSpace.cs and the utility scripts are renderer, editor, configuration and input code and are not part of this model.
