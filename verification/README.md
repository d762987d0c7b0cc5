# Verified model of the out-of-core COPC octree engine

The program turns LAS/LAZ tiles into one COPC file. It counts points on a coarse grid, plans
chunks, routes every point to a chunk file, builds one octree per chunk (in memory, or spilled to
scratch files), merges the chunk roots up to the global root, and writes the nodes with two paged
indexes. This project models that engine in Dafny and proves what it is for: no point is lost or
duplicated, every point ends in the node its coordinates name, and a reader that follows the file's
pointers finds exactly what was written.

## How it is organised

- `Arith`, `Bytes`, `Buckets`: powers of two and row-major indices, fixed-width words, grouped records.
- `Voxel`, `Points`, `NodeMap`: octree keys and ancestors, the descent `point_to_key`, and maps from
  keys to points with the multiset of everything stored.
- `Sampling`, `Levels`, `Subtree`, `Leaves`: grid sampling, the bottom-up level loop, adaptive leaf
  subdivision, and the in-memory build of one subtree. `Collapse`: what the collapse branch sees.
- `Families`, `Growth`: what sampling one family does, in memory or on the store, and what it means
  for a whole tree to be sampled from its leaves up.
- `NodeStorage`, `Merge`, `MergeTops`, `Regions`: the scratch node store, merging subtree roots on
  it, and building several un-nested regions one after another.
- `Framing`, `FrameReader`, `WriterCache`: the scratch batch format, its readers, and the LRU cache
  of append writers.
- `SplitLevel`, `Spill`, `ChunkBuild`, `Build`: the spilled chunk path and `build_node_map`.
- `PlanGrid`, `SubSplit`, `Planner`, `PlanFacts`, `PlanBounds`, `Routing`, `Distribute`: counting,
  planning, the size of a plan, the routing table and the distribution pass.
- `Pipeline`: the end-to-end theorems: the build, the writing, and both together.
- `PagedLayout`, `PageShape`, `PageSplit`, `HierarchyFormat`, `Hierarchy`, `TimeOrder`,
  `TemporalFormat`, `Temporal`, `FileLayout`, `Writer`: the paged hierarchy, the order of GPS times,
  the paged temporal index, where the fields of both stand in the file, and the chunk-offset walk.
- `PackedStore`, `Interleaving`, `ParallelTasks`: the concurrent packed node store, and why parallel
  builds and merge groups on disjoint keys can be modelled one after another.
- `ExtraBytes`, `ExtraBytesMerge`, `OffsetScale`: merging Extra Bytes statistics, fitting offset and
  scale.

Parameters stand for what is outside: compressed sizes per node, memory and file limits, how points
are split over workers and read batches, how doubles are stored, the order in which hash maps are
walked (every loop over a map picks any key) and the order in which parallel builds finish (they are
picked in any order too). `ghost` parameters such as `all`, the multiset of
all input points, exist only in proofs.

Four ideas carry the build proof. Live subtree roots are never nested (`Antichain`, `Unnested`,
`LiveAbove`), so writing a parent can never hit a populated node. Points move between nodes only by
partitions of gathered lists, so the multiset of everything stored is constant. And density is
stated against the whole input: a voxel that holds at most one leaf's worth of input points has
nothing stored strictly below it (`Dense`). And the finished tree is `Grown`: there are un-nested
leaves that hold exactly the input, and a record of what each voxel held before it was sampled into
its parent, such that every family from the leaves up to the root was sampled once, whichever chunk, path
or merge it fell into.

## Where the code and its comments differ

- src/octree.rs:1669-1678 says the collapse branch sees the full subtree total. It sees what the
  children hold at that moment, which for a sampled child is only its sample.
  `Collapse.CollapseIsWhole` gives the exact condition (nothing is stored below the gathered
  children) and `Collapse.CollapseOverPopulated` a run that breaks it. What does hold, for every
  voxel and every run, is `Dense` in `Build.BuildNodeMap`.
- src/chunking.rs:80-86 speaks of multi-billion-point cells, but a cell's counter has 32 bits
  (433-445, 543) and wraps around. `PlanFacts.PlanCovers` says exactly which points a plan then
  covers, `PlanFacts.CountedIsCovered` that all are as long as no populated counter reads zero, and
  `PlanFacts.VanishingCell` that `2^32` coincident points get no chunk at all.
- src/chunking.rs:621-623 says every sub-chunk estimate stays at or just below the target.
  `PlanFacts.PlanFits` gives the exact condition (no finest cell above `8^6` targets) and
  `SubSplit.SplitCapBinds` an input that breaks it.
- src/writer.rs:808 gives boundaries `[3]` for a deepest level of 9; the loop yields 3 and 6, as
  `PageShape.ChoosePageBoundaries` states, and the branch after the loop never runs.
- src/extra_bytes.rs:213-214 says merging leaves descriptors of undocumented types untouched; their
  options byte is rewritten. `ExtraBytesMerge.UndocumentedMerge` says exactly when a descriptor comes
  out unchanged, `ExtraBytesMerge.UndocumentedChanges` gives two files for which it does not.

## Model

| member | source | states |
|---|---|---|
| Pipeline.BuildOctree | src/octree.rs:1774-3045 | Main theorem over any number of points, any split over workers and read batches, any limits, any mix of in-memory and spilled chunks and any order of the parallel builds: a successful run stores exactly the input multiset, every point under its own key, subdivides no voxel that fits one leaf, is the input sorted into leaves with every family sampled from there up to the root, and lists exactly the populated nodes and their ancestors with counts that add up to the input size, none deeper than level 31 or larger than the largest chunk; it succeeds at least whenever all points fit the memory limit of one merge parent |
| Pipeline.Convert | src/octree.rs:1774-3045 | from input points to the file: the build and the writing together, so that following the written hierarchy recovers every node of the octree of exactly the input points, with true counts and byte ranges that tile the point data |
| Pipeline.MakePlan | src/chunking.rs:295-340 | counting then planning gives a plan that routes every counted point, of about one chunk per target of points, with estimates summing to the number of points when no counter wraps |
| Pipeline.StoredInBounds | src/octree.rs:950-959 | in the finished octree every stored point lies inside the box a reader reconstructs for its node |
| Pipeline.WritesFitPack | src/node_store.rs:161-195 | what `NodeStorage.NodeStore.Write` asks, and every write of the build proves, is what the packed store asks: points of the input, so of one record width, and fewer than 2^32 of them |
| PlanBounds.ChunksPerTarget | src/chunking.rs:659-774 | target times chunks is at most target plus eight points per level and input point, since every maximal cell but the root has an oversized parent |
| PlanBounds.PlanSize | src/chunking.rs:616-649 | a plan has no more chunks than points for a target of at least 8, and no more than 8 (8^6) per point for a smaller (zero) target |
| PlanBounds.FitsWhenExact | src/chunking.rs:659-774 | a check on the input alone under which every plan has 32-bit chunk indices, small chunks, room for all levels and a chunk for every point: up to about 2^32 target / (8 (depth + 1)) points with no finest cell above the bound and no deep voxel too crowded |
| PlanBounds.SpreadAbove | src/octree.rs:2497-2547 | room for the levels below the most crowded voxels of the deepest split level is room below every voxel above them |
| Pipeline.WriteOctree | src/writer.rs:318-534 | from a finished octree with levels up to 31: header total and hierarchy counts equal the input size, byte ranges of populated nodes tile the point data, and following the hierarchy recovers every listed node exactly once |
| Build.BuildNodeMap | src/octree.rs:2800-3045 | whole-build conservation, placement, density and sampling of every level over any list of un-nested chunks whose builds finish in any order, and the exact node list |
| Build.CountNodes | src/octree.rs:2965-2982 | re-reading counts after the merge lists exactly the non-empty nodes with their lengths |
| Build.AddAllAncestors | src/octree.rs:3026-3041 | adds exactly the missing ancestors, with zero counts, leaving every other entry and the total unchanged |
| Build.LengthsTotal | src/octree.rs:2972-2996 | the reported node counts add up to the number of stored points |
| ChunkBuild.BuildChunk | src/octree.rs:2060-2085 | whichever path the point count selects, a chunk build adds exactly the chunk's points below its root, touches nothing else, returns every populated key, and stores nothing deeper than level 31 or larger than its chunk; the tree below the root is the points sorted into leaves and sampled at every level, and what is built in memory fits the budget or lies at the deepest split level |
| ChunkBuild.BuildChunkSpilled | src/octree.rs:2287-2462 | the spilled path (split, route, build each sub-octant, merge up) has the same effect as building the chunk whole, the levels above the sub-octants sampled like those below |
| ChunkBuild.BuildSubRoots | src/octree.rs:2403-2432 | the sub-octant builds, finishing in any order, accumulate: points conserved, nothing outside the sub-octants changed, every populated key collected |
| Regions.AccumulateStep | src/octree.rs:2869-2923 | building one more region, neither above nor below those built, keeps all earlier guarantees, the sampling of every level included: un-nestedness is what prevents clobbering |
| Regions.MergedIsRegion | src/octree.rs:2422-2461 | building un-nested regions below a voxel and merging their roots up to it is building that voxel |
| Regions.SubtreeIsRegion | src/octree.rs:2101-2135 | adding a finished subtree to a store that is empty below its root conserves points, placement and density |
| Spill.RouteToSubOctants | src/octree.rs:2337-2389 | after the streaming pass, with any flush threshold and writer capacity, each sub-octant file decodes to exactly that sub-octant's points in input order and every point's sub-octant has a file |
| Spill.SortedIsAll | src/octree.rs:2353-2385 | sorting points into voxels each belongs to exactly once loses and duplicates none |
| SplitLevel.ChooseSplitLevel | src/octree.rs:2481-2547 | the level is the shallowest of the 12 candidates whose densest sub-octant fits, or the deepest when none does, and the returned count is that level's densest |
| SplitLevel.RollUp | src/octree.rs:2527-2538 | rolling deep counts up by right shifts gives the direct counts of the shallower level |
| SplitLevel.DeeperIsSparser | src/octree.rs:2519-2544 | the densest count never grows with depth |
| MergeTops.MergeChunkTops | src/octree.rs:2572-2796 | merging roots of un-nested regions conserves the stored points and their placement, changes only roots and their ancestors down to the stop level (and returns exactly those ancestors), leaves every voxel below the top dense, turns regions whose levels were all sampled into one tree whose levels were all sampled up to the top, and keeps every node within level 31 and within any size bound that allows one point per sampling cell; on the memory failure all points are still stored, and it cannot fail when all points fit one parent's limit |
| MergeTops.RaisingStep | src/octree.rs:2746-2782 | merging one level samples every family of that level once, on exactly what its children were filled with, and leaves every family sampled before as it was |
| MergeTops.GroupCovers | src/octree.rs:2614-2660 | the children grouped under a parent are all its populated children |
| MergeTops.DenseAfterMerge | src/octree.rs:2572-2796 | after the merge a voxel whose points fit one leaf has nothing stored strictly below it |
| MergeTops.NoClobberStep | src/octree.rs:2746-2782 | after a level is merged, nothing is stored strictly above any node still to be merged |
| Merge.MergeLevel | src/octree.rs:2738-2782 | one level: points conserved and placed, only parents and their children changed, and a child keeps points only under a parent with more than one leaf of input; and family by family, however large, what the children held is redistributed between them and the parent on the store |
| Merge.CheckSizes | src/octree.rs:2664-2713 | the memory check fails exactly when some parent's children together exceed the limit, and writes nothing |
| Merge.ChildShrinks | src/octree.rs:2738-2782 | a merge leaves each child a part of what it held |
| Merge.ParentIsSmall | src/octree.rs:1659-1768 | a sampled parent holds at most 128^3 points, whatever its children hold |
| NodeMap.TotalByGet | src/node_store.rs:28-35 | what is stored depends only on what every key reads as |
| Leaves.Subdivide | src/octree.rs:2183-2258 | adaptive subdivision terminates, conserves points and placement, keeps leaves un-nested and oversized leaves on one level, and leaves oversized leaves only at depth 20 or deeper, and goes below the seeded depth only in a voxel with more than one leaf of points |
| Leaves.FinishSubtree | src/octree.rs:2183-2266 | a finished subtree holds exactly the leaves' points under their own keys, below the root, dense, every level sampled, written to the store, with exact counts |
| Leaves.BuildSubtree | src/octree.rs:2101-2135 | the subtree built from points of one voxel holds exactly those points, sorted into leaves and sampled at every level, whatever estimate seeded the leaf depth, as long as that depth stays within level 31 |
| Leaves.ExtraLevels | src/octree.rs:177-193 | the depth is the least one whose average leaf fits, capped at 13 |
| Leaves.LevelRoomExact | src/octree.rs:177-193 | the leaf level stays at 31 or above exactly when the point count is at most one leaf times 8 to the levels left, or 13 levels are left |
| Leaves.CollectLeaves | src/octree.rs:2139-2177 | classification at one depth puts every point under its own key and loses none |
| Subtree.BottomUpLevels | src/octree.rs:1565-1649 | the level loop conserves the points, keeps each under its key and below the root, ends dense, and samples every family exactly once from the leaves up to the root: the result is `Grown` |
| Subtree.ClimbingStep | src/octree.rs:1573-1636 | one more level of the loop: every family at or below it has been sampled on exactly what its children were filled with, and nothing above it has changed |
| Subtree.LevelStep | src/octree.rs:1573-1636 | one level: other nodes untouched, new nodes only as parents of existing ones, a child survives only under a parent with more than one leaf of input; and family by family, what the children hold is redistributed between them and the parent, all of it to the parent when it fits one leaf, otherwise at most one point per cell with every occupied cell represented unless a child was left with a single point |
| Subtree.StepKeepsLive | src/octree.rs:1625-1635 | no node is ever a strict ancestor of a node still to be sampled, so inserting a parent cannot overwrite points |
| Families.FamilyBySampling | src/octree.rs:1625-1635 | sampling a gathered family and putting the result back redistributes what the children held: all to the parent when it fits one leaf, otherwise one point per cell at most, no child emptied, and a cell without a representative only for a child left with a single point |
| Families.CrowdedIsCovered | src/octree.rs:1722-1764 | unless a child was left with a single point, every point the children of a crowded family held has one at the parent within a cell edge, a 128th of the voxel, on every axis |
| Growth.GrownJoin | src/octree.rs:2869-2923 | subtrees grown side by side are one forest grown from the union of their points |
| Sampling.GridSample | src/octree.rs:1659-1768 | the gathered points are partitioned between parent and originating children; a small set collapses; otherwise at most one point per cell goes up, every contributing child keeps a point, and a cell loses its representative only to a child that ends with that single point; without such a child every gathered point inside the voxel has a kept one within a cell edge |
| Sampling.SameCellIsNear | src/octree.rs:1728-1733 | two points of one voxel that share a cell are within one cell edge, a 128th of the voxel, on each of the three axes |
| Sampling.NearIsFine | src/octree.rs:1696-1700 | a cell edge is a 128th of the voxel's, which is the root's over 2^level, in units of the smallest of the three scales and at least one unit |
| Sampling.Scan | src/octree.rs:1722-1751 | the occupancy scan keeps exactly one point of every occupied cell and returns the others to their children |
| Sampling.GiveBack | src/octree.rs:1753-1764 | the give-back loop restores a point to every contributing child at the cost of at most one cell each, keeping the partition |
| Sampling.PartitionMembers | src/octree.rs:1659-1768 | a returned point came from the child it returns to |
| Collapse.CollapseIsWhole | src/octree.rs:1669-1682 | at a collapse the parent receives the whole stored subtree exactly when nothing is stored below the gathered children |
| Collapse.CollapseOverPopulated | src/octree.rs:1669-1682 | two level steps from a leaf of 100,001 coincident points: the second collapses one gathered point over 100,001 stored below, and leaves an empty node above the populated leaf |
| Collapse.SubdividedCopies | src/octree.rs:2183-2258 | such a leaf is what subdivision makes of any number of coincident points above one leaf |
| NodeMap.TotalUnion | src/octree.rs:1545-1560 | writing nodes where nothing is stored adds exactly their points |
| NodeMap.FitsLeafBelow | src/octree.rs:418-418 | a voxel that fits one leaf has only descendants that fit one leaf |
| Points.PointToKey | src/octree.rs:1007-1059 | on 32-bit coordinates the loop computes the declarative descent on each axis, and down to level 31 no step overflows |
| Points.DescentRefines | src/octree.rs:1007-1059 | taking parents from the deep key reaches the shallow key of the same point |
| Points.DescentRefinesByShift | src/octree.rs:2526-2538 | so does right-shifting the deep coordinates |
| Points.KeyInRange | src/octree.rs:1007-1059 | coordinates lie in [0, 2^depth), below the root, and fit 32 signed bits up to depth 31 |
| Points.DeeperOverflows | src/octree.rs:1017-1045 | beyond depth 31 they do not: a point on the far face of the root cube has coordinate 2^depth - 1 |
| Points.VoxelContainsPoint | src/octree.rs:950-959 | in exact arithmetic a coordinate inside the root cube lies in its voxel's half-open interval as readers reconstruct it |
| Points.VoxelSizeIsFraction | src/octree.rs:950-959 | the halved edge times 2^depth is the root edge |
| Voxel.AncestorByShift | src/copc_types.rs:30-40 | repeated `parent` equals one right shift |
| Voxel.AncestorAtLevel | src/writer.rs:827-833 | the loop reaches the ancestor at the level |
| Voxel.AncestorsComparable | src/copc_types.rs:30-40 | two ancestors of one key are themselves nested |
| PlanGrid.CountPoints | src/chunking.rs:417-553 | the grid holds each finest cell's population modulo 2^32, and the true one when no cell reaches 2^32 |
| PlanGrid.GridCell | src/octree.rs:1935-1951 | the defensive clamps change nothing: the cell index is the flat index of the point's key |
| PlanGrid.PopIsCount | src/chunking.rs:651-658 | the pyramid over the grid holds the true population of every cell at every level |
| PlanGrid.PopBelow | src/chunking.rs:651-658 | population never grows downwards |
| Planner.MergeSparseCells | src/chunking.rs:659-774 | emits each maximal cell exactly once and nothing else: populated, fitting the target (or finest), with an oversized parent (or root) |
| Planner.CollapseLevel | src/chunking.rs:680-752 | an entry of the pyramid above the finest level is the sentinel exactly when the cell's true population exceeds the target, otherwise the population |
| SubSplit.EmitChunkRoot | src/chunking.rs:586-650 | appends one chunk, or the 8^e sub-octants in z, y, x order with the remainder on the first ones |
| SubSplit.SubRootFacts | src/octree.rs:225-231 | the sub-octant index inverts the emission order, and every sub-octant lies in its cell |
| SubSplit.SubRootOfIndex | src/octree.rs:225-231 | every descendant at the split depth is the sub-octant its index names |
| SubSplit.SplitDepthFits | src/chunking.rs:96-108 | the split depth suffices exactly when the cap does |
| SubSplit.EmitConserves | src/chunking.rs:616-643 | the estimates of one cell's chunks add up to its population |
| SubSplit.EmitFits | src/chunking.rs:616-643 | one cell's estimates all fit the target exactly when the cell holds at most 8^6 targets |
| SubSplit.SplitCapBinds | src/chunking.rs:621-623 | an input on which sub-chunk estimates exceed the target |
| PlanFacts.MaximalUnnested | src/chunking.rs:651-658 | two maximal cells are never nested |
| PlanFacts.MaximalAbove | src/chunking.rs:651-658 | every populated cell has a maximal cell at or above it |
| PlanFacts.EstimatesTotal | src/chunking.rs:659-774 | the plan's estimates add up to the grid total |
| PlanFacts.PlanFits | src/chunking.rs:621-623 | every estimate fits the target exactly when no finest cell exceeds 8^6 targets |
| PlanFacts.PlanShape | src/chunking.rs:586-650 | chunk roots are pairwise un-nested and in range, and a split cell's chunks are consecutive in octant order |
| PlanFacts.PlanCovers | src/octree.rs:1923-1986 | a plan has a chunk for a point exactly when the point's cell, or one above it, is counted as populated and not divided further |
| PlanFacts.CountedIsCovered | src/chunking.rs:417-553 | so every point has its chunk as long as no populated cell's 32-bit counter has wrapped to zero |
| PlanFacts.VanishingCell | src/chunking.rs:433-553 | an input whose counters all wrap to zero and whose points get no chunk |
| Routing.BuildChunkLut | src/octree.rs:241-300 | for any plan of that shape: cells below a coarse chunk name it, a split cell is marked and its entry locates every sub-chunk, consistently over all of them |
| Routing.Route | src/octree.rs:1923-1986 | table plus second descent select a valid chunk whose root is the point's voxel at that level, never a sentinel |
| Routing.SameEntry | src/octree.rs:264-275 | all sub-chunks of a cell compute the same split depth and base, as the debug assertion demands |
| Routing.CubeIsBox | src/octree.rs:279-296 | the filled box, whose clamps to the grid never bind, is exactly the chunk's descendants |
| Distribute.DistributePoints | src/octree.rs:1774-2018 | every chunk file decodes to exactly the chunk's points of the whole input in worker order, and the tally is each file's point count |
| Distribute.MergeChunkShards | src/octree.rs:317-385 | none, one or several shards: the canonical file is their concatenation in worker order |
| Distribute.RowsJoin | src/octree.rs:317-385 | concatenated shards are one batch stream that decodes to the workers' points in worker order |
| Distribute.PartsConserve | src/octree.rs:1923-1986 | distribution loses and duplicates no point |
| WriterCache.ChunkWriterCache.Append | src/octree.rs:102-137 | one more batch in the chunk's log, and the access order of an LRU, across evictions, reopenings and partial flushes of the buffer |
| WriterCache.ChunkWriterCache.FlushAll | src/octree.rs:140-147 | every file is the concatenation of its appended batches |
| WriterCache.OpenWritersAreRecent | src/octree.rs:102-137 | over every access history the open writers are the most recently used chunks, at most `capacity` of them |
| WriterCache.EvictDown | src/octree.rs:113-123 | the eviction loop keeps duplicate-free agreement of list, writers and files, and stops at the capacity |
| Framing.RecordRoundTrip | src/octree.rs:558-604 | a point record of any extras width decodes to the point |
| Framing.BatchesRoundTrip | src/octree.rs:708-745 | concatenated batches decode to the concatenated points |
| FrameReader.MultiFrameReader.Read | src/octree.rs:685-703 | reads are prefixes of the remaining stream, and an empty read of a non-empty buffer happens only at its true end |
| FrameReader.ReadBatches | src/octree.rs:775-805 | reading in bounded pieces through frame boundaries computes the stream decoding, including the truncation cases |
| FrameReader.ReadTempBatches | src/octree.rs:733-745 | frame boundaries do not matter: reading equals decoding the concatenation |
| FrameReader.HeaderCountIsLength | src/octree.rs:831-881 | walking batch headers counts exactly the decoded points |
| FrameReader.CountFilePoints | src/octree.rs:831-881 | the header-walking loop computes that count |
| PackedStore.StepKeeps | src/node_store.rs:161-228 | every interleaved step (serialize, locked append, index insert, lookup, flush, buffer spill, range read) keeps the store invariant |
| PackedStore.RunIsMap | src/node_store.rs:161-228 | after any run from the empty store, returned reads gave what their lookup saw, every key reads from the bytes as its last insert, and counts are lengths |
| PackedStore.RunRefines | src/node_store.rs:161-228 | over any run, however interleaved, the bytes at a key are those of its last insert |
| PackedStore.WriteLands | src/node_store.rs:162-195 | once a write inserts its entry its key reads from the bytes as exactly its points and no other key has changed, whatever other tasks did in between |
| PackedStore.ReadReturnsLookup | src/node_store.rs:197-219 | a read returns what the bytes said at its lookup, whatever other tasks do before it returns |
| PackedStore.EntriesDisjoint | src/node_store.rs:161-195 | byte ranges of different keys never overlap |
| PackedStore.InBounds | src/node_store.rs:161-195 | indexed ranges lie within the bytes appended |
| PackedStore.RangeNeverAltered | src/node_store.rs:161-195 | a range indexed at any time of a run holds the same append at its end |
| PackedStore.CountIsLength | src/node_store.rs:221-227 | an entry's count is the length of the stored value |
| PackedStore.StepRefines | src/node_store.rs:161-228 | what the pack bytes decode to at a key, through its index entry, changes only when an index insert for that key takes effect, and then to exactly the written points; appends, flushes, buffer spills and reads change nothing |
| PackedStore.PackedNodeStore.Write | src/node_store.rs:162-195 | one caller's write overwrites exactly its key |
| PackedStore.PackedNodeStore.Read | src/node_store.rs:197-219 | one caller's read returns the map's value, empty for a missing key |
| PackedStore.PackedNodeStore.Count | src/node_store.rs:221-227 | one caller's count is the length of the map's value |
| NodeStorage.NodeStore.Write | src/node_store.rs:28-35 | the contract the build relies on: a write overwrites one key; and what every write keeps to: points of the input, a bounded number of them, at a level that fits |
| NodeStorage.NodeStore.Read | src/node_store.rs:28-35 | a read returns the last write, empty when there was none |
| ParallelTasks.ScopedKeepsToOwn | src/octree.rs:2869-2896 | any parallel tasks that stay below un-nested roots, reads included, keep to keys of their own, so each runs as if alone |
| ParallelTasks.TasksKeepToOwn | src/octree.rs:2869-2896 | subtree builds and merge groups on un-nested roots read and write only keys below their own root |
| ParallelTasks.AnySchedule | src/octree.rs:2869-2896 | whatever the interleaving of their store accesses, complete schedules leave the same store |
| ParallelTasks.SubtreesInParallel | src/octree.rs:2403-2432 | after any complete schedule every subtree is in the store exactly as its task built it and nothing else has changed |
| ParallelTasks.FamiliesInParallel | src/octree.rs:2746-2782 | after any complete schedule every family of a merge level reads as if its group had run alone on the store the level started from |
| Hierarchy.BuildPage | src/writer.rs:631-734 | pushes the pages of a tree, parent first, whose records are exactly the entries; every page is valid for its root |
| Hierarchy.BuildHierarchyPayload | src/writer.rs:741-797 | the round trip: from the root range, following pointers yields exactly the entries and visits each page exactly once, in order, the pages tile the payload and none exceeds 585 records; also for no entries |
| HierarchyFormat.PageSize | src/writer.rs:631-734 | for distinct keys in range a page has at most 585 records, so the size field cannot overflow |
| HierarchyFormat.EntryRoundTrip | src/copc_types.rs:107-117 | a 32-byte entry decodes to itself when its count is not the pointer marker |
| HierarchyFormat.PointerRoundTrip | src/writer.rs:711-727 | a patched pointer decodes to its key and byte range |
| FileLayout.EntryLayout | src/copc_types.rs:107-117 | byte by byte: level, x, y and z in the first 16 bytes, the offset at 16, the size at 24 and the count at 28, little-endian, negative words in two's complement |
| FileLayout.PointerLayout | src/writer.rs:711-727 | a page pointer has the child's range in those fields and -1 for the count |
| PageShape.ChoosePageBoundaries | src/writer.rs:813-824 | boundaries are levels 3, 6, 9, … below the deepest level, which is at most three below the last |
| PageShape.PageKeyCount | src/writer.rs:800-824 | at most 585 distinct keys lie within three levels of a subtree root |
| PageSplit.SplitEntries | src/writer.rs:658-672 | entries are partitioned between the page and one group per ancestor at the boundary level |
| PagedLayout.LayOut | src/writer.rs:760-766 | pages laid back to back, each at the sum of the sizes before it |
| PagedLayout.PatchedPointers | src/writer.rs:768-786 | patching fills every placeholder with its child's range and changes nothing else |
| PagedLayout.WritePage | src/writer.rs:699-732 | a serialised page has its records, then its placeholders, with patch positions that point at them |
| PagedLayout.PagesTile | src/writer.rs:760-796 | pages tile the payload |
| PagedLayout.ReadAll | src/writer.rs:1258-1303 | a pointer-following reader gets exactly the tree's records and visits all pages in layout order |
| Temporal.BuildPage | src/writer.rs:876-1000 | the page tree holds every entry exactly once and every pointer's range is exact over the whole index |
| Temporal.GroupRange | src/writer.rs:945-966 | a pointer's range is exactly the least and greatest sample at or below its key, boundary node included |
| Temporal.TimeRangeOf | src/writer.rs:838-854 | for all finite times, negative ones included, the range over sorted samples is exact, and the sentinels mean no entries |
| Temporal.BuildTemporalPayload | src/writer.rs:1006-1089 | the decoded header gives the exact node and page counts and a root from which the pages, tiling the rest, parse to the index; also for no entries |
| Temporal.IndexRoundTrip | src/writer.rs:1006-1089 | reading the pages returns each entry exactly once and visits each page exactly once |
| Temporal.QueryComplete | src/writer.rs:933-966 | skipping pages by their time range never misses a node whose time span meets the window |
| Temporal.WindowQuery | src/writer.rs:933-966 | a reader of the written bytes that follows only pointers meeting the window finds every node whose time span meets it, and only nodes of the index |
| Temporal.PointMeetsWindow | src/writer.rs:396-413 | a node with any point in the window, sampled or not, has a time span that meets it |
| TimeOrder.RankIsOrder | src/writer.rs:838-854 | the order used for times is that of the exact values of the doubles, of either sign |
| Temporal.SampleTimes | src/writer.rs:396-413 | exactly every stride-th time of the sorted node, from the first, and the last one; so the samples are in order by value and include the first and last time |
| TemporalFormat.NodeRoundTrip | src/copc_types.rs:258-270 | a node entry with any number of samples, whatever their bits, parses back |
| TemporalFormat.TagRoundTrip | src/copc_types.rs:231-250 | a 48-byte page pointer parses back with its time range |
| TemporalFormat.HeaderRoundTrip | src/copc_types.rs:199-213 | the 32-byte header decodes to itself |
| FileLayout.NodeLayout | src/copc_types.rs:258-270 | byte by byte: the key, the number of samples at 16 and the bits of sample j at 20 + 8 j |
| FileLayout.TagLayout | src/copc_types.rs:231-250 | byte by byte: the key, zero at 16, the child's offset at 20 and size at 28, the least time at 32 and the greatest at 40 |
| FileLayout.HeaderLayout | src/copc_types.rs:199-213 | byte by byte: version, stride, node count and page count, the root page's offset at 16 and size at 24, and a zero word |
| Writer.CompressAll | src/writer.rs:359-459 | windows partition the data nodes in order, each one node or within the point cap, and as long as the cap allows; the i-th table size belongs to the i-th node with points |
| Writer.PackWindow | src/writer.rs:361-372 | one window is maximal within the cap and never empty |
| Writer.ChunkInfo | src/writer.rs:508-523 | every node gets the range of its own chunk and empty ancestors get none |
| Writer.ChunksTile | src/writer.rs:508-523 | the ranges tile the point data from the first chunk |
| Writer.WriteNodes | src/writer.rs:318-534 | table, ranges and hierarchy together: counts sum to the header total and a reader recovers every range |
| ExtraBytes.Parse | src/extra_bytes.rs:137-227 | fails exactly when the length is not a whole number of descriptors, otherwise every descriptor's schema and statistics |
| ExtraBytes.FoldField | src/extra_bytes.rs:372-425 | the fold is the least and greatest finite value over the files that have the statistic |
| ExtraBytesMerge.MergePayloads | src/validate.rs:197-215 | parsing all payloads and merging into the first: every field keeps the first file's layout, a field of one documented type advertises exactly the range over all files, an undocumented one changes in its options byte only |
| ExtraBytesMerge.MergeAdvertises | src/extra_bytes.rs:356-483 | a merged field advertises a minimum exactly when some file has a finite one, and then the least over all files; likewise the maximum and the no-data bit |
| ExtraBytesMerge.MergedIntegers | src/extra_bytes.rs:61-81 | the same on the descriptor bytes, for the integer type codes: a merged field has a valid minimum exactly when some file has one, and its slot then holds the least of the integers in their slots; likewise the maximum |
| ExtraBytesMerge.MergeKeepsLayout | src/extra_bytes.rs:350-355 | whatever the data types, the structural part of every merged field is the first file's |
| ExtraBytesMerge.MergeOrderIrrelevant | src/extra_bytes.rs:372-425 | merging the same files in another order writes the same bytes |
| ExtraBytesMerge.UndocumentedMerge | src/extra_bytes.rs:212-219 | a field whose type is undocumented in every file comes out unchanged exactly when its options byte is its scale and offset bits plus the union's no-data bit |
| ExtraBytesMerge.UndocumentedChanges | src/extra_bytes.rs:212-219 | two files for which an undocumented field is changed |
| ExtraBytes.MergeStats | src/extra_bytes.rs:356-483 | on success every descriptor is the merge of its field over all files; failure, characterised exactly, leaves the buffer unmodified |
| ExtraBytes.SlotRoundTrip | src/extra_bytes.rs:61-81 | a finite value read from a slot is written back as a slot of the same value |
| ExtraBytes.SignedSlot | src/extra_bytes.rs:61-68 | for the type codes 2, 4, 6 and 8 the eight bytes of the two's complement of any 64-bit integer decode to that integer |
| ExtraBytes.UnsignedSlot | src/extra_bytes.rs:61-68 | for the type codes 1, 3, 5 and 7 the eight bytes of any unsigned 64-bit integer decode to it |
| ExtraBytes.OtherSlot | src/extra_bytes.rs:61-68 | the codes 9 and 10 decode by the bits of a double, and every other code has no value |
| OffsetScale.FitOffsetScale | src/octree.rs:987-999 | terminates with a fitting pair: a fitting input is unchanged, otherwise the midpoint and the original scale times the least sufficient power of two; the flag says which |
| OffsetScale.FittedIsRepresentable | src/octree.rs:973-999 | every value of a fitted range rounds to a signed 32-bit integer |
| OffsetScale.StoredReadsBack | src/octree.rs:1517-1519 | the integer a coordinate is stored as reads back within half a unit of it |
| OffsetScale.ClassifiedWhereItWas | src/octree.rs:1932-1934 | every stage classifies a stored point by coordinates within half a unit of the input's, each axis by its own scale and offset |
| OffsetScale.FittedIsStored | src/octree.rs:1517-1519 | with a fitted frame every point of the ranges is stored in 32 signed bits per axis and classified within half a unit of where it was |
| OffsetScale.DoublingsSuffice | src/octree.rs:995-997 | enough doublings always fit |

## Left out

- LZ4 and LAZ: frames are a list of byte lists and compressed sizes are a function of the node; the writer cache is modelled without compression.
- Floating-point rounding: coordinates, scales and the averages of the split-depth loops are exact reals.
- TimeOrder.RankIsOrder: does not model NaN; times that are NaN or infinite are excluded from the temporal index.
- ExtraBytes.SlotRoundTrip: does not model the loss of low bits of 64-bit integer statistics above 2^53, which the source documents as acceptable.
- Morton order: the sort in `grid_sample` and of the output nodes is any list order, on which no result depends; the final sort of the node list by level is left out for the same reason.
- Occupancy bitmap words: an array of booleans instead of packed 64-bit words.
- Parallelism: methods run one build, merge group or worker at a time, builds and groups in any order; `ParallelTasks` covers the interleaving of their store accesses, for tasks that only write (subtree builds) and for the groups of one merge level. A spilled chunk, whose writes are followed by merges, is not written out as a program; `ParallelTasks.ScopedKeepsToOwn` with `Interleaving.RunsAsAlone` covers any program that stays below its root.
- Hash map and B-tree map iteration: any order.
- Memory batching of the merge: only the failing size check is modelled, the grouping of parents into batches only orders the work.
- Pipeline.BuildOctree: does not model read batches or chunks of 2^32 points and more, plans of more than 2^32 - 2 chunks (whose indices collide with the two sentinels), points whose cells the wrapped counters of the plan lose, where the source indexes past its tallies, and keys deeper than level 31, whose 32-bit coordinates overflow. On the program's grids, up to 512^3, the last takes a chunk that was itself sub-split and then a spilled sub-octant with more than 100,000 * 8^(31 - its level) points, such as 409.6 million at level 27.
- Pipeline.WriteOctree: does not model counts or compressed sizes of 2^31 and more, which would overflow the record fields.
- Pipeline.Convert: does not model chunks of 2^31 points and more, for the same reason.
- PackedStore.RunIsMap: does not model nodes of 2^32 points or serialized bytes and more, and lock poisoning or I/O errors.
- PagedLayout.ReadAll: does not model readers without a depth bound; the reader's recursion takes a fuel that any depth above the page tree's height satisfies.
- Temporal.BuildTemporalPayload: does not model payloads of 2^32 bytes and more, whose page sizes would not fit their field.
- ExtraBytes.Parse: does not model UTF-8 decoding of names; they are bytes with trailing zeros removed.
- FileNodeStore, file system calls, rlimits, progress reporting, CRS handling, command lines and the inspector tools.
- LAS headers, VLR wrappers and per-format point encoding: one branch each.
- `compute_chunk_target`, `select_grid_size`, `build_concurrency_and_budget` and worker counts: short clamps.
- `diff_schemas` and `schema_hash`: comparison by value against comparison by bits, so an empty difference does not mean equal hashes.
