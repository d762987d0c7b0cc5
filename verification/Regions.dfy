/** Building several un-nested regions on one store: each build touches only keys below its own
    root, so the effects accumulate whatever the order. */
module Regions {
  import opened Voxel
  import opened Points
  import opened NodeMap
  import opened Growth
  import opened Subtree
  import opened Merge
  import opened MergeTops

  /** Nothing is stored below `root` yet. */
  ghost predicate Vacant(m: Nodes, root: VoxelKey) {
    forall k :: Under(k, root) ==> !Populated(m, k)
  }

  /** `pts` have been added to the store below `root`, each under its own key and with density, in a
      tree grown by sampling every level, and `keys` lists every populated key there. */
  ghost predicate RegionBuilt(f: Frame, all: multiset<RawPoint>, root: VoxelKey, pts: multiset<RawPoint>,
                              m: Nodes, m': Nodes, keys: set<VoxelKey>) {
    Placed(f, m') && Total(m') == Total(m) + pts &&
    (forall k :: !Under(k, root) ==> Get(m', k) == Get(m, k)) &&
    (forall v :: Under(v, root) ==> Dense(f, all, m', v)) &&
    (forall k :: Under(k, root) && Populated(m', k) ==> k in keys) &&
    (forall k :: k in keys ==> Under(k, root)) && Grown(f, pts, {root}, m')
  }

  lemma SubtreeIsRegion(f: Frame, all: multiset<RawPoint>, root: VoxelKey, pts: multiset<RawPoint>,
                        m: Nodes, built: Nodes)
    requires Placed(f, m) && Vacant(m, root) && Finished(f, all, root, pts, built)
    ensures RegionBuilt(f, all, root, pts, m, m + built, built.Keys)
  {
    TotalUnion(m, built);
    PlacedUnion(f, m, built);
    UnionReads(m, root, built);
    DenseUnion(f, all, root, m, built);
    BuiltAlike(m, root, built);
    GrownAlike(f, pts, {root}, built, m + built);
  }

  lemma BuiltAlike(m: Nodes, root: VoxelKey, built: Nodes)
    requires Vacant(m, root)
    ensures AlikeIn({root}, built, m + built)
  {
    forall k | InRegions({root}, k) ensures Get(built, k) == Get(m + built, k) {
      assert !Populated(m, k);
    }
  }

  lemma UnionReads(m: Nodes, root: VoxelKey, built: Nodes)
    requires Vacant(m, root) && KeysUnder(built, root)
    ensures forall k :: !Under(k, root) ==> Get(m + built, k) == Get(m, k)
    ensures forall k :: Under(k, root) && Populated(m + built, k) ==> k in built.Keys
  {
    forall k | Under(k, root) ensures !Populated(m, k) {
    }
  }

  lemma DenseUnion(f: Frame, all: multiset<RawPoint>, root: VoxelKey, m: Nodes, built: Nodes)
    requires Vacant(m, root) && DenseFrom(f, all, built, root.level)
    ensures forall v :: Under(v, root) ==> Dense(f, all, m + built, v)
  {
    forall v | Under(v, root) ensures Dense(f, all, m + built, v) {
      DenseInUnion(f, all, root, m, built, v);
    }
  }

  lemma PlacedUnion(f: Frame, a: Nodes, b: Nodes)
    requires Placed(f, a) && Placed(f, b)
    ensures Placed(f, a + b)
  {
  }

  lemma DenseInUnion(f: Frame, all: multiset<RawPoint>, root: VoxelKey, m: Nodes, built: Nodes, v: VoxelKey)
    requires Vacant(m, root) && Under(v, root) && Dense(f, all, built, v)
    ensures Dense(f, all, m + built, v)
  {
    forall k | StrictlyUnder(k, v) && !Populated(built, k) ensures !Populated(m + built, k) {
      UnderTransitive(k, v, root);
      assert !Populated(m, k);
    }
  }

  /** The regions in `done` have been built, adding `pts` to the store. */
  ghost predicate Accumulated(f: Frame, all: multiset<RawPoint>, done: set<VoxelKey>, pts: multiset<RawPoint>,
                              m: Nodes, m': Nodes, keys: set<VoxelKey>) {
    Placed(f, m') && Total(m') == Total(m) + pts &&
    (forall k :: !InRegions(done, k) ==> Get(m', k) == Get(m, k)) &&
    (forall v :: InRegions(done, v) ==> Dense(f, all, m', v)) &&
    (forall k :: InRegions(done, k) && Populated(m', k) ==> k in keys) &&
    (forall k :: k in keys ==> InRegions(done, k)) && Grown(f, pts, done, m')
  }

  lemma AccumulateStep(f: Frame, all: multiset<RawPoint>, done: set<VoxelKey>, pts: multiset<RawPoint>,
                       m0: Nodes, m: Nodes, keys: set<VoxelKey>,
                       r: VoxelKey, rpts: multiset<RawPoint>, m': Nodes, rkeys: set<VoxelKey>)
    requires Accumulated(f, all, done, pts, m0, m, keys) && Apart(done, r)
    requires RegionBuilt(f, all, r, rpts, m, m', rkeys)
    ensures Accumulated(f, all, done + {r}, pts + rpts, m0, m', keys + rkeys)
  {
    forall k ensures InRegions(done + {r}, k) <==> InRegions(done, k) || Under(k, r) {
      RegionsPlusOne(done, r, k);
    }
    forall v | InRegions(done, v) ensures Dense(f, all, m', v) && (Populated(m', v) ==> v in keys) {
      DenseElsewhere(f, all, done, m, r, m', v);
    }
    GrownBeside(f, done, pts, m, r, rpts, m');
  }

  lemma GrownBeside(f: Frame, done: set<VoxelKey>, pts: multiset<RawPoint>, m: Nodes, r: VoxelKey, rpts: multiset<RawPoint>, m': Nodes)
    requires Grown(f, pts, done, m) && Grown(f, rpts, {r}, m') && Apart(done, r)
    requires forall k :: !Under(k, r) ==> Get(m', k) == Get(m, k)
    ensures Grown(f, pts + rpts, done + {r}, m')
  {
    forall k | InRegions(done, k) ensures Get(m, k) == Get(m', k) {
      if Under(k, r) {
        ApartKeys(done, r, k);
      }
    }
    GrownAlike(f, pts, done, m, m');
    GrownJoin(f, pts, rpts, done, r, m');
  }

  lemma DenseElsewhere(f: Frame, all: multiset<RawPoint>, done: set<VoxelKey>, m: Nodes, r: VoxelKey, m': Nodes, v: VoxelKey)
    requires Apart(done, r) && InRegions(done, v) && Dense(f, all, m, v)
    requires forall k :: !Under(k, r) ==> Get(m', k) == Get(m, k)
    ensures Dense(f, all, m', v) && Get(m', v) == Get(m, v)
  {
    forall k | Under(k, v) ensures Get(m', k) == Get(m, k) {
      var d :| d in done && Under(v, d);
      UnderTransitive(k, v, d);
      if Under(k, r) {
        ApartKeys(done, r, k);
      }
    }
  }

  lemma AccumulateStart(f: Frame, all: multiset<RawPoint>, m: Nodes)
    requires Placed(f, m)
    ensures Accumulated(f, all, {}, multiset{}, m, m, {})
  {
    NothingGrown(f, {}, m);
  }

  /** A region still to be built is vacant. */
  lemma StillVacant(f: Frame, all: multiset<RawPoint>, done: set<VoxelKey>, pts: multiset<RawPoint>,
                    m0: Nodes, m: Nodes, keys: set<VoxelKey>, r: VoxelKey)
    requires Accumulated(f, all, done, pts, m0, m, keys) && Apart(done, r) && Vacant(m0, r)
    ensures Vacant(m, r)
  {
    forall k | Under(k, r) ensures !Populated(m, k) {
      ApartKeys(done, r, k);
      assert Get(m, k) == Get(m0, k);
    }
  }

  /** Regions built below `top` can be merged: nothing else is stored there. */
  lemma AccumulatedMergeable(f: Frame, all: multiset<RawPoint>, top: VoxelKey, regions: set<VoxelKey>,
                             pts: multiset<RawPoint>, m0: Nodes, m: Nodes, keys: set<VoxelKey>, roots: set<VoxelKey>)
    requires Accumulated(f, all, regions, pts, m0, m, keys) && Vacant(m0, top) && Total(m) <= all
    requires Antichain(regions) && (forall r :: r in regions ==> Under(r, top)) && roots == keys * regions
    ensures Mergeable(f, all, m, top, regions, roots)
  {
    forall r | r in regions - roots ensures !Populated(m, r) {
      assert Under(r, r);
      assert InRegions(regions, r);
    }
    forall k | Under(k, top) && !InRegions(regions, k) ensures !Populated(m, k) {
      assert Get(m, k) == Get(m0, k);
    }
  }

  /** Building the regions and merging their roots builds `top` itself. */
  lemma MergedIsRegion(f: Frame, all: multiset<RawPoint>, top: VoxelKey, regions: set<VoxelKey>,
                       pts: multiset<RawPoint>, m0: Nodes, m: Nodes, keys: set<VoxelKey>, roots: set<VoxelKey>,
                       m': Nodes, parents: set<VoxelKey>)
    requires Accumulated(f, all, regions, pts, m0, m, keys) && Vacant(m0, top)
    requires (forall r :: r in regions ==> Under(r, top)) && roots == keys * regions
    requires MergedTo(f, all, m, m', top, roots, parents) && Grown(f, pts, {top}, m')
    ensures RegionBuilt(f, all, top, pts, m0, m', keys + parents)
  {
    ParentsUnder(top, roots, parents);
    RegionsUnder(top, regions);
    forall k | !Under(k, top) ensures Get(m', k) == Get(m0, k) {
      assert k !in roots + parents;
    }
    forall k | Under(k, top) && Populated(m', k) ensures k in keys + parents {
      PopulatedIsKnown(f, all, top, regions, pts, m0, m, keys, roots, m', parents, k);
    }
  }

  lemma PopulatedIsKnown(f: Frame, all: multiset<RawPoint>, top: VoxelKey, regions: set<VoxelKey>,
                         pts: multiset<RawPoint>, m0: Nodes, m: Nodes, keys: set<VoxelKey>, roots: set<VoxelKey>,
                         m': Nodes, parents: set<VoxelKey>, k: VoxelKey)
    requires Accumulated(f, all, regions, pts, m0, m, keys) && Vacant(m0, top)
    requires roots <= keys && SameElsewhere(m, m', roots + parents) && Under(k, top) && Populated(m', k)
    ensures k in keys + parents
  {
    if k !in roots + parents {
      assert Get(m', k) == Get(m, k);
      assert !InRegions(regions, k) ==> Get(m, k) == Get(m0, k);
    }
  }

  lemma ParentsUnder(top: VoxelKey, roots: set<VoxelKey>, parents: set<VoxelKey>)
    requires forall r :: r in roots ==> Under(r, top)
    requires forall k :: k in parents <==> top.level <= k.level && AboveRoot(roots, k)
    ensures forall k :: k in parents ==> Under(k, top)
  {
    forall k | k in parents ensures Under(k, top) {
      var r :| r in roots && StrictlyUnder(r, k);
      AncestorsComparable(r, k, top);
    }
  }

  lemma RegionsUnder(top: VoxelKey, regions: set<VoxelKey>)
    requires forall r :: r in regions ==> Under(r, top)
    ensures forall k :: InRegions(regions, k) ==> Under(k, top)
  {
    forall k | InRegions(regions, k) ensures Under(k, top) {
      var r :| r in regions && Under(k, r);
      UnderTransitive(k, r, top);
    }
  }

  /** With no roots to merge there is nothing to do. */
  lemma MergeNothing(f: Frame, all: multiset<RawPoint>, m: Nodes, top: VoxelKey, regions: set<VoxelKey>, pts: multiset<RawPoint>)
    requires Mergeable(f, all, m, top, regions, {}) && Grown(f, pts, regions, m)
    ensures MergedTo(f, all, m, m, top, {}, {}) && Grown(f, pts, {top}, m)
  {
    var leaves, up := MergeBegins(f, all, m, top, regions, {}, pts, top.level);
    var none: set<VoxelKey> := {};
    assert none + none == none;
    MergeEnds(f, all, m, m, top, regions, {}, {}, pts, leaves, up);
  }
}
