/** Building one chunk (src/octree.rs): in memory when it fits the budget, otherwise split into
    sub-octants that are built one by one and merged up to the chunk root. */
module ChunkBuild {
  import opened Bytes
  import opened Voxel
  import opened Points
  import opened Framing
  import opened FrameReader
  import opened NodeMap
  import opened NodeStorage
  import opened Sampling
  import opened Levels
  import opened Subtree
  import opened Leaves
  import opened Merge
  import opened MergeTops
  import opened Regions
  import opened WriterCache
  import opened SplitLevel
  import opened Spill

  /** Limits that steer the build but, when it succeeds, never its result. */
  datatype Limits = Limits(chunkBudget: nat, openFiles: nat, memPerPoint: nat, oomThreshold: nat)

  lemma {:induction false} InsideContained(f: Frame, pts: seq<RawPoint>, k: VoxelKey)
    ensures multiset(Inside(f, pts, k)) <= multiset(pts)
  {
    if pts != [] {
      var n := |pts| - 1;
      InsideContained(f, pts[..n], k);
      assert pts[..n] + [pts[n]] == pts;
      Snoc(pts[..n], pts[n]);
      if KeyAt(f, pts[n], k.level) == k {
        Snoc(Inside(f, pts[..n], k), pts[n]);
        MoreContained(multiset(Inside(f, pts[..n], k)), multiset(pts[..n]), pts[n]);
      } else {
        assert Inside(f, pts, k) == Inside(f, pts[..n], k);
      }
    }
  }

  lemma MoreContained<T>(a: multiset<T>, b: multiset<T>, x: T)
    requires a <= b
    ensures a + multiset{x} <= b + multiset{x}
  {
  }

  lemma SubRootUnder(f: Frame, points: seq<RawPoint>, root: VoxelKey, level: nat, sub: VoxelKey)
    requires AllIn(f, points, root) && root.level <= level == sub.level && Inside(f, points, sub) != []
    ensures Under(sub, root)
  {
    InsideFacts(f, points, sub);
    var p := Inside(f, points, sub)[0];
    assert p in Inside(f, points, sub);
    DescentRefines(f, p, root.level, level);
  }

  /** Sub-octants built so far, in whatever order the tasks finished. */
  ghost predicate SomeOf(done: seq<VoxelKey>, roots: seq<VoxelKey>, todo: set<nat>, level: nat) {
    Distinct(done) && (forall k :: k in done ==> k.level == level) &&
    (forall i: nat :: i in todo ==> i < |roots|) && (forall i: nat :: i < |roots| ==> (i in todo <==> roots[i] !in done)) &&
    Elems(done) <= Elems(roots)
  }

  lemma SomeOfStart(roots: seq<VoxelKey>, level: nat)
    ensures SomeOf([], roots, Upto(|roots|), level)
  {
  }

  lemma SomeOfAll(done: seq<VoxelKey>, roots: seq<VoxelKey>, level: nat)
    requires SomeOf(done, roots, {}, level)
    ensures Elems(done) == Elems(roots)
  {
    forall r | r in roots ensures r in done {
      var i: nat :| i < |roots| && roots[i] == r;
      assert i !in {};
    }
  }

  lemma SameLevelApart(done: seq<VoxelKey>, r: VoxelKey)
    requires r !in done && forall k :: k in done ==> k.level == r.level
    ensures Apart(Elems(done), r)
  {
  }

  lemma SomeOfStep(done: seq<VoxelKey>, roots: seq<VoxelKey>, todo: set<nat>, level: nat, i: nat)
    requires SomeOf(done, roots, todo, level) && i in todo && Distinct(roots) && roots[i].level == level
    ensures SomeOf(done + [roots[i]], roots, todo - {i}, level) && roots[i] !in done
  {
    var done', todo' := done + [roots[i]], todo - {i};
    forall j: nat | j < |roots| ensures j in todo' <==> roots[j] !in done' {
      if j != i {
        assert roots[j] != roots[i];
      }
    }
    assert Elems(done') == Elems(done) + {roots[i]};
  }

  /** The sub-octants `done` have been built. */
  ghost predicate BuiltTo(f: Frame, all: multiset<RawPoint>, points: seq<RawPoint>, done: seq<VoxelKey>,
                          m0: Nodes, m: Nodes, keys: set<VoxelKey>)
  {
    Accumulated(f, all, Elems(done), Sorted(f, points, done), m0, m, keys)
  }

  lemma BuiltStart(f: Frame, all: multiset<RawPoint>, points: seq<RawPoint>, m: Nodes)
    requires Placed(f, m)
    ensures BuiltTo(f, all, points, [], m, m, {})
  {
    AccumulateStart(f, all, m);
    var none: seq<VoxelKey> := [];
    assert Elems(none) == {} && Sorted(f, points, none) == multiset{};
  }

  lemma BuiltStep(f: Frame, all: multiset<RawPoint>, points: seq<RawPoint>, done: seq<VoxelKey>, r: VoxelKey,
                  m0: Nodes, m: Nodes, keys: set<VoxelKey>, top: VoxelKey, built: Nodes)
    requires BuiltTo(f, all, points, done, m0, m, keys)
    requires Apart(Elems(done), r) && Under(r, top) && Vacant(m0, top)
    requires Finished(f, all, r, multiset(Inside(f, points, r)), built)
    ensures BuiltTo(f, all, points, done + [r], m0, m + built, keys + built.Keys)
  {
    var pts := multiset(Inside(f, points, r));
    VacantBelow(m0, top, r);
    StillVacant(f, all, Elems(done), Sorted(f, points, done), m0, m, keys, r);
    SubtreeIsRegion(f, all, r, pts, m, built);
    AccumulateStep(f, all, Elems(done), Sorted(f, points, done), m0, m, keys, r, pts, m + built, built.Keys);
    assert (done + [r])[..|done|] == done;
    assert Elems(done + [r]) == Elems(done) + {r};
  }

  lemma VacantBelow(m: Nodes, top: VoxelKey, r: VoxelKey)
    requires Vacant(m, top) && Under(r, top)
    ensures Vacant(m, r)
  {
    forall k | Under(k, r) ensures Under(k, top) {
      UnderTransitive(k, r, top);
    }
  }

  /** Every subtree a chunk build may start below `root` has room for its levels: the chunk's own,
      and those of the sub-octants at every level it may be split at. */
  ghost predicate LevelsFit(f: Frame, pts: seq<RawPoint>, root: VoxelKey) {
    root.level + SPILL_DEPTH_CAP <= MAX_LEVEL &&
    forall k :: Under(k, root) && k.level <= root.level + SPILL_DEPTH_CAP ==> LevelRoom(k.level, |Inside(f, pts, k)|)
  }

  /** The sub-octants have room for their levels, and no chunk more points than a node may have. */
  ghost predicate SubsFit(f: Frame, points: seq<RawPoint>, roots: seq<VoxelKey>, cap: nat) {
    |points| <= cap && GRID_CELLS <= cap && forall i :: 0 <= i < |roots| ==> LevelRoom(roots[i].level, |Inside(f, points, roots[i])|)
  }

  lemma SubOctantsFit(f: Frame, points: seq<RawPoint>, top: VoxelKey, level: nat, roots: seq<VoxelKey>, cap: nat)
    requires LevelsFit(f, points, top) && AllIn(f, points, top) && top.level <= level <= top.level + SPILL_DEPTH_CAP
    requires |points| <= cap && GRID_CELLS <= cap
    requires forall i :: 0 <= i < |roots| ==> roots[i].level == level && Inside(f, points, roots[i]) != []
    ensures SubsFit(f, points, roots, cap)
  {
    forall i | 0 <= i < |roots| ensures LevelRoom(roots[i].level, |Inside(f, points, roots[i])|) {
      SubRootUnder(f, points, top, level, roots[i]);
    }
  }

  lemma InsideNoLonger(f: Frame, points: seq<RawPoint>, k: VoxelKey)
    ensures |Inside(f, points, k)| <= |points|
  {
    InsideContained(f, points, k);
    SubsetSize(multiset(Inside(f, points, k)), multiset(points));
  }

  lemma BuiltBounded(m: Nodes, built: Nodes, cap: nat)
    requires Bounded(m, cap) && Bounded(built, cap)
    ensures Bounded(m + built, cap)
  {
  }

  lemma {:induction false} InsideCount(f: Frame, pts: seq<RawPoint>, k: VoxelKey)
    ensures |Inside(f, pts, k)| == CountIn(f, pts, k)
  {
    if pts != [] {
      InsideCount(f, pts[..|pts| - 1], k);
    }
  }

  /** No sub-octant exceeds the budget, unless the split is at the deepest candidate level. */
  ghost predicate SubsWithin(f: Frame, points: seq<RawPoint>, roots: seq<VoxelKey>, deepest: nat, chunkBudget: nat) {
    forall i :: 0 <= i < |roots| ==> roots[i].level == deepest || WithinBudget(|Inside(f, points, roots[i])|, chunkBudget)
  }

  lemma ChosenIsWithin(f: Frame, points: seq<RawPoint>, rootLevel: nat, maxPoints: nat, level: nat, roots: seq<VoxelKey>, chunkBudget: nat)
    requires Chosen(f, points, rootLevel, maxPoints, level) && WithinBudget(maxPoints, chunkBudget)
    requires forall i :: 0 <= i < |roots| ==> roots[i].level == level
    ensures SubsWithin(f, points, roots, rootLevel + SPILL_DEPTH_CAP, chunkBudget)
  {
    forall i | 0 <= i < |roots| && level < rootLevel + SPILL_DEPTH_CAP
      ensures WithinBudget(|Inside(f, points, roots[i])|, chunkBudget)
    {
      InsideCount(f, points, roots[i]);
      assert CountIn(f, points, roots[i]) <= maxPoints;
    }
  }

  /** The number of points whose build fits the budget, at least one. */
  function MaxPoints(chunkBudget: nat): (n: nat)
    ensures WithinBudget(n, chunkBudget) && n >= 1
    ensures n > 1 ==> !WithinBudget(n + 1, chunkBudget)
  {
    if chunkBudget < BYTES_PER_POINT_BUILD then 1 else chunkBudget / BYTES_PER_POINT_BUILD
  }

  /** What the sub-octant builds rely on. */
  ghost predicate SpillReady(f: Frame, all: multiset<RawPoint>, points: seq<RawPoint>, top: VoxelKey, level: nat,
                             roots: seq<VoxelKey>, files: Files, nxb: nat, m0: Nodes) {
    Sharded(f, points, level, roots, files, nxb) && AllIn(f, points, top) && top.level < level &&
    multiset(points) <= all && Placed(f, m0) && Vacant(m0, top)
  }

  lemma SubBuildReady(f: Frame, all: multiset<RawPoint>, points: seq<RawPoint>, top: VoxelKey, level: nat,
                      roots: seq<VoxelKey>, files: Files, nxb: nat, m0: Nodes, i: nat)
    requires SpillReady(f, all, points, top, level, roots, files, nxb, m0) && i < |roots|
    ensures i in files && DecodeStream(files[i], nxb) == Some(Inside(f, points, roots[i]))
    ensures AllIn(f, Inside(f, points, roots[i]), roots[i]) && multiset(Inside(f, points, roots[i])) <= all
    ensures Under(roots[i], top)
  {
    InsideFacts(f, points, roots[i]);
    InsideContained(f, points, roots[i]);
    SubRootUnder(f, points, top, level, roots[i]);
  }

  /** Build one sub-octant from its own file. */
  method BuildSubRoot(f: Frame, roots: seq<VoxelKey>, i: nat, files: Files, nxb: nat, store: NodeStore,
                      keys: set<VoxelKey>, ghost done: seq<VoxelKey>, ghost points: seq<RawPoint>, ghost top: VoxelKey,
                      ghost level: nat, ghost m0: Nodes, ghost all: multiset<RawPoint>, ghost cap: nat, ghost chunkBudget: nat)
    returns (keys': set<VoxelKey>)
    requires SpillReady(f, all, points, top, level, roots, files, nxb, m0) && i < |roots| && Apart(Elems(done), roots[i])
    requires BuiltTo(f, all, points, done, m0, store.contents, keys)
    requires SubsFit(f, points, roots, cap) && Bounded(store.contents, cap)
    requires SubsWithin(f, points, roots, top.level + SPILL_DEPTH_CAP, chunkBudget)
    modifies store
    ensures BuiltTo(f, all, points, done + [roots[i]], m0, store.contents, keys') && Bounded(store.contents, cap)
  {
    SubBuildReady(f, all, points, top, level, roots, files, nxb, m0, i);
    ghost var m, sub := store.contents, Inside(f, points, roots[i]);
    InsideNoLonger(f, points, roots[i]);
    var counts, built := BuildFromFile(f, roots[i], files[i], nxb, store, sub, all, cap, chunkBudget, top.level + SPILL_DEPTH_CAP);
    BuiltStep(f, all, points, done, roots[i], m0, m, keys, top, built);
    keys' := keys + counts.Keys;
  }

  /** Read one sub-octant's points and build their subtree. */
  method BuildFromFile(f: Frame, root: VoxelKey, file: seq<U8>, nxb: nat, store: NodeStore, ghost pts: seq<RawPoint>,
                       ghost all: multiset<RawPoint>, ghost cap: nat, ghost chunkBudget: nat, ghost deepest: nat)
    returns (counts: map<VoxelKey, nat>, ghost built: Nodes)
    requires DecodeStream(file, nxb) == Some(pts) && Bounded(store.contents, cap)
    requires AllIn(f, pts, root) && multiset(pts) <= all && |pts| <= cap && LevelRoom(root.level, |pts|)
    requires root.level == deepest || WithinBudget(|pts|, chunkBudget)
    modifies store
    ensures Finished(f, all, root, multiset(pts), built) && Bounded(store.contents, cap)
    ensures store.contents == old(store.contents) + built && counts.Keys == built.Keys
  {
    var read := ReadPlainFile(file, nxb);
    ghost var m := store.contents;
    counts, built := BuildSubtree(f, root, read.value, |read.value|, store, all, cap, chunkBudget, deepest);
    BuiltBounded(m, built, cap);
  }

  /** Build every sub-octant, in any order, and collect the produced keys. */
  method BuildSubRoots(f: Frame, roots: seq<VoxelKey>, files: Files, nxb: nat, store: NodeStore,
                       ghost points: seq<RawPoint>, ghost top: VoxelKey, ghost level: nat, ghost all: multiset<RawPoint>,
                       ghost cap: nat, ghost chunkBudget: nat)
    returns (keys: set<VoxelKey>, ghost done: seq<VoxelKey>)
    requires SpillReady(f, all, points, top, level, roots, files, nxb, store.contents)
    requires SubsFit(f, points, roots, cap) && Bounded(store.contents, cap)
    requires SubsWithin(f, points, roots, top.level + SPILL_DEPTH_CAP, chunkBudget)
    modifies store
    ensures Bounded(store.contents, cap)
    ensures SomeOf(done, roots, {}, level) && BuiltTo(f, all, points, done, old(store.contents), store.contents, keys)
  {
    keys, done := {}, [];
    var todo := Upto(|roots|);
    SomeOfStart(roots, level);
    BuiltStart(f, all, points, store.contents);
    while todo != {}
      invariant SomeOf(done, roots, todo, level) && Bounded(store.contents, cap)
      invariant BuiltTo(f, all, points, done, old(store.contents), store.contents, keys)
      decreases todo
    {
      var i :| i in todo;
      SomeOfStep(done, roots, todo, level, i);
      SameLevelApart(done, roots[i]);
      keys := BuildSubRoot(f, roots, i, files, nxb, store, keys, done, points, top, level, old(store.contents), all, cap, chunkBudget);
      todo, done := todo - {i}, done + [roots[i]];
    }
  }

  /** The sub-octants tile the chunk. */
  lemma SubOctantsReady(f: Frame, all: multiset<RawPoint>, points: seq<RawPoint>, top: VoxelKey, level: nat,
                        roots: seq<VoxelKey>, files: Files, nxb: nat, m0: Nodes, m: Nodes, keys: set<VoxelKey>,
                        rootKeys: set<VoxelKey>, done: seq<VoxelKey>)
    requires SpillReady(f, all, points, top, level, roots, files, nxb, m0) && Total(m0) + multiset(points) <= all
    requires SomeOf(done, roots, {}, level) && BuiltTo(f, all, points, done, m0, m, keys)
    requires rootKeys == set k | k in keys && k.level == level
    ensures Accumulated(f, all, Elems(roots), multiset(points), m0, m, keys)
    ensures rootKeys == keys * Elems(roots) && (forall r :: r in Elems(roots) ==> Under(r, top))
    ensures Mergeable(f, all, m, top, Elems(roots), rootKeys)
  {
    SomeOfAll(done, roots, level);
    forall i | 0 <= i < |points| ensures KeyAt(f, points[i], level) in done {
      assert KeyAt(f, points[i], level) in Elems(roots);
    }
    SubOctantsPartition(f, points, done, level);
    forall r | r in Elems(roots) ensures Under(r, top) {
      SubRootUnder(f, points, top, level, r);
    }
    RootKeys(roots, keys, rootKeys, level);
    AccumulatedMergeable(f, all, top, Elems(roots), multiset(points), m0, m, keys, rootKeys);
  }

  lemma SubOctantsPartition(f: Frame, points: seq<RawPoint>, roots: seq<VoxelKey>, level: nat)
    requires Distinct(roots) && forall i :: 0 <= i < |roots| ==> roots[i].level == level
    requires forall i :: 0 <= i < |points| ==> KeyAt(f, points[i], level) in roots
    ensures Sorted(f, points, roots) == multiset(points)
  {
    forall i | 0 <= i < |points| ensures BelongsOnce(f, points[i], roots) {
      var k := KeyAt(f, points[i], level);
      assert k in roots;
      var at: nat :| at < |roots| && roots[at] == k;
      assert BelongsAt(f, points[i], roots, at);
    }
    SortedIsAll(f, points, roots);
  }

  lemma RootKeys(roots: seq<VoxelKey>, keys: set<VoxelKey>, rootKeys: set<VoxelKey>, level: nat)
    requires forall i :: 0 <= i < |roots| ==> roots[i].level == level
    requires forall k :: k in keys ==> InRegions(Elems(roots), k)
    requires rootKeys == set k | k in keys && k.level == level
    ensures rootKeys == keys * Elems(roots) && Antichain(Elems(roots))
  {
    forall k | k in rootKeys ensures k in Elems(roots) {
      var r :| r in Elems(roots) && Under(k, r);
    }
  }

  /** `build_chunk_spilled`. */
  method BuildChunkSpilled(f: Frame, top: VoxelKey, points: seq<RawPoint>, nxb: nat, limits: Limits, store: NodeStore,
                           ghost all: multiset<RawPoint>, ghost cap: nat)
    returns (ok: bool, keys: set<VoxelKey>)
    requires Placed(f, store.contents) && Vacant(store.contents, top) && AllIn(f, points, top)
    requires Total(store.contents) + multiset(points) <= all
    requires Uniform(points, nxb) && |points| <= cap < 0x1_0000_0000 && GRID_CELLS <= cap
    requires LevelsFit(f, points, top) && Bounded(store.contents, cap)
    modifies store
    ensures Bounded(store.contents, cap)
    ensures ok ==> RegionBuilt(f, all, top, multiset(points), old(store.contents), store.contents, keys)
    ensures Roomy(all, limits.memPerPoint, limits.oomThreshold) ==> ok
  {
    var level, densest := ChooseSplitLevel(f, points, top.level, MaxPoints(limits.chunkBudget));
    var dir := new Directory();
    var cache := new ChunkWriterCache(limits.openFiles, dir);
    var quarter := limits.chunkBudget / 4 / RecordSize(nxb);
    var roots := RouteToSubOctants(f, points, level, nxb, if quarter < 1 then 1 else quarter, cache);
    SubOctantsFit(f, points, top, level, roots, cap);
    ChosenIsWithin(f, points, top.level, MaxPoints(limits.chunkBudget), level, roots, limits.chunkBudget);
    ok, keys := BuildAndMerge(f, top, level, roots, cache.dir.files, nxb, limits, store, points, all, cap);
  }

  method BuildAndMerge(f: Frame, top: VoxelKey, level: nat, roots: seq<VoxelKey>, files: Files, nxb: nat,
                       limits: Limits, store: NodeStore, ghost points: seq<RawPoint>, ghost all: multiset<RawPoint>,
                       ghost cap: nat)
    returns (ok: bool, keys: set<VoxelKey>)
    requires SpillReady(f, all, points, top, level, roots, files, nxb, store.contents)
    requires Total(store.contents) + multiset(points) <= all
    requires SubsFit(f, points, roots, cap) && Bounded(store.contents, cap)
    requires SubsWithin(f, points, roots, top.level + SPILL_DEPTH_CAP, limits.chunkBudget)
    modifies store
    ensures Bounded(store.contents, cap)
    ensures ok ==> RegionBuilt(f, all, top, multiset(points), old(store.contents), store.contents, keys)
    ensures Roomy(all, limits.memPerPoint, limits.oomThreshold) ==> ok
  {
    ghost var m0 := store.contents;
    ghost var done: seq<VoxelKey>;
    keys, done := BuildSubRoots(f, roots, files, nxb, store, points, top, level, all, cap, limits.chunkBudget);
    var rootKeys := set k | k in keys && k.level == level;
    ghost var m := store.contents;
    SubOctantsReady(f, all, points, top, level, roots, files, nxb, m0, m, keys, rootKeys, done);
    var parents: set<VoxelKey> := {};
    if rootKeys == {} {
      MergeNothing(f, all, m, top, Elems(roots), multiset(points));
      ok := true;
    } else {
      ok, parents := MergeChunkTops(f, store, rootKeys, top.level, limits.memPerPoint, limits.oomThreshold,
                                    top, Elems(roots), multiset(points), all, cap);
    }
    if ok {
      MergedIsRegion(f, all, top, Elems(roots), multiset(points), m0, m, keys, rootKeys, store.contents, parents);
    }
    keys := keys + parents;
  }

  lemma WholeChunkFits(f: Frame, points: seq<RawPoint>, top: VoxelKey)
    requires AllIn(f, points, top) && LevelsFit(f, points, top)
    ensures LevelRoom(top.level, |points|)
  {
    AllInside(f, points, top);
    assert Under(top, top);
  }

  lemma {:induction false} AllInside(f: Frame, points: seq<RawPoint>, top: VoxelKey)
    requires AllIn(f, points, top)
    ensures Inside(f, points, top) == points
  {
    if points != [] {
      var n := |points| - 1;
      AllInside(f, points[..n], top);
      assert points[n] in points;
    }
  }

  /** `build_chunk_in_memory`: the tallied point count picks the path and the first leaf depth. */
  method BuildChunk(f: Frame, top: VoxelKey, file: seq<U8>, actualPoints: nat, nxb: nat, limits: Limits, store: NodeStore,
                    ghost points: seq<RawPoint>, ghost all: multiset<RawPoint>, ghost cap: nat)
    returns (ok: bool, keys: set<VoxelKey>)
    requires DecodeStream(file, nxb) == Some(points) && actualPoints == |points|
    requires Placed(f, store.contents) && Vacant(store.contents, top) && AllIn(f, points, top)
    requires Total(store.contents) + multiset(points) <= all
    requires Uniform(points, nxb) && |points| <= cap < 0x1_0000_0000 && GRID_CELLS <= cap
    requires LevelsFit(f, points, top) && Bounded(store.contents, cap)
    modifies store
    ensures Bounded(store.contents, cap)
    ensures ok ==> RegionBuilt(f, all, top, multiset(points), old(store.contents), store.contents, keys)
    ensures Roomy(all, limits.memPerPoint, limits.oomThreshold) ==> ok
    ensures actualPoints * BYTES_PER_POINT_BUILD <= limits.chunkBudget ==> ok
  {
    var read := ReadPlainFile(file, nxb);
    if actualPoints * BYTES_PER_POINT_BUILD <= limits.chunkBudget {
      ghost var m := store.contents;
      WholeChunkFits(f, points, top);
      var counts, built := BuildSubtree(f, top, read.value, actualPoints, store, all, cap,
                                        limits.chunkBudget, top.level + SPILL_DEPTH_CAP);
      BuiltBounded(m, built, cap);
      SubtreeIsRegion(f, all, top, multiset(points), m, built);
      return true, counts.Keys;
    }
    ok, keys := BuildChunkSpilled(f, top, read.value, nxb, limits, store, all, cap);
  }
}
