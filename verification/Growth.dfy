/** What building un-nested subtrees amounts to, whatever the path: the points are sorted into
    un-nested leaves, and from the leaves up every family is sampled exactly once. */
module Growth {
  import opened Voxel
  import opened Points
  import opened NodeMap
  import opened Families

  /** `s` sorted into un-nested leaves, each of one leaf's worth or at the depth cap. */
  ghost predicate LeavesOf(f: Frame, s: multiset<RawPoint>, leaves: Nodes) {
    Sound(f, leaves) && Total(leaves) == s && Antichain(leaves.Keys) &&
    forall k :: k in leaves ==> |leaves[k]| <= MAX_LEAF_POINTS || k.level >= CHUNK_DEPTH_CAP
  }

  /** Every family of the regions was sampled: its children held what `up` has, its parent took what
      `up` has there, and `m` is what the children kept. */
  ghost predicate AllSampled(f: Frame, regions: set<VoxelKey>, up: Nodes, m: Nodes) {
    forall p :: InRegions(regions, p) && HasChild(up, p) ==> Redistributed(f, p, up, Get(up, p), m)
  }

  /** A node starts as a leaf or as what its children gave it. */
  ghost predicate FromLeaves(regions: set<VoxelKey>, leaves: Nodes, up: Nodes) {
    (forall k :: k in leaves ==> Get(up, k) == leaves[k]) &&
    (forall k :: Populated(up, k) ==> InRegions(regions, k) && (k in leaves || HasChild(up, k)))
  }

  /** `m` holds, below the regions, what sampling from the leaves up leaves there. `up` is what each
      voxel held before it was sampled into its own parent: a leaf's points, or what it took from its
      children. The roots of the regions are still as they were filled. */
  ghost predicate GrownFrom(f: Frame, regions: set<VoxelKey>, leaves: Nodes, up: Nodes, m: Nodes) {
    FromLeaves(regions, leaves, up) && AllSampled(f, regions, up, m) &&
    forall r :: r in regions ==> Get(m, r) == Get(up, r)
  }

  /** The subtrees of `m` below the regions are grown from the points `s`. */
  ghost predicate Grown(f: Frame, s: multiset<RawPoint>, regions: set<VoxelKey>, m: Nodes) {
    exists leaves, up :: LeavesOf(f, s, leaves) && GrownFrom(f, regions, leaves, up, m)
  }

  /** Two maps read alike below the regions. */
  ghost predicate AlikeIn(regions: set<VoxelKey>, a: Nodes, b: Nodes) {
    forall k :: InRegions(regions, k) ==> Get(a, k) == Get(b, k)
  }

  lemma ChildInRegions(regions: set<VoxelKey>, p: VoxelKey, c: VoxelKey)
    requires InRegions(regions, p) && Parent(c) == Some(p)
    ensures InRegions(regions, c)
  {
    var r :| r in regions && Under(p, r);
    assert Under(c, r);
  }

  lemma AlikeChildren(regions: set<VoxelKey>, a: Nodes, b: Nodes, p: VoxelKey)
    requires AlikeIn(regions, a, b) && InRegions(regions, p)
    ensures ChildrenAlike(a, b, p)
  {
    forall c | Parent(c) == Some(p) ensures Get(a, c) == Get(b, c) {
      ChildInRegions(regions, p, c);
    }
  }

  /** Only what is read below the regions matters. */
  lemma SampledAlike(f: Frame, regions: set<VoxelKey>, up: Nodes, m: Nodes, up': Nodes, m': Nodes)
    requires AllSampled(f, regions, up, m) && AlikeIn(regions, up, up') && AlikeIn(regions, m, m')
    ensures AllSampled(f, regions, up', m')
  {
    forall p | InRegions(regions, p) && HasChild(up', p) ensures Redistributed(f, p, up', Get(up', p), m') {
      AlikeChildren(regions, up, up', p);
      AlikeChildren(regions, m, m', p);
      HasChildAlike(up, up', p);
      RedistributedAlike(f, p, up, up', Get(up, p), m, m');
    }
  }

  lemma RootInRegions(regions: set<VoxelKey>, r: VoxelKey)
    requires r in regions
    ensures InRegions(regions, r)
  {
    assert Under(r, r);
  }

  lemma GrownAlike(f: Frame, s: multiset<RawPoint>, regions: set<VoxelKey>, m: Nodes, m': Nodes)
    requires Grown(f, s, regions, m) && AlikeIn(regions, m, m')
    ensures Grown(f, s, regions, m')
  {
    var leaves, up := GrownWitness(f, s, regions, m);
    GrownFromAlike(f, regions, leaves, up, m, m');
  }

  lemma GrownFromAlike(f: Frame, regions: set<VoxelKey>, leaves: Nodes, up: Nodes, m: Nodes, m': Nodes)
    requires GrownFrom(f, regions, leaves, up, m) && AlikeIn(regions, m, m')
    ensures GrownFrom(f, regions, leaves, up, m')
  {
    SampledAlike(f, regions, up, m, up, m');
    forall r | r in regions ensures Get(m', r) == Get(up, r) {
      RootInRegions(regions, r);
    }
  }

  lemma NothingGrown(f: Frame, regions: set<VoxelKey>, m: Nodes)
    requires forall r :: r in regions ==> !Populated(m, r)
    ensures Grown(f, multiset{}, regions, m)
  {
    var none: Nodes := map[];
    assert LeavesOf(f, multiset{}, none) && GrownFrom(f, regions, none, none, m);
  }

  /** What is read below `r` from `b` and elsewhere from `a`. */
  function Beside(a: Nodes, b: Nodes, r: VoxelKey): Nodes {
    map k | k in a.Keys + b.Keys :: if Under(k, r) then Get(b, k) else Get(a, k)
  }

  lemma BesideReads(a: Nodes, b: Nodes, r: VoxelKey, k: VoxelKey)
    ensures Get(Beside(a, b, r), k) == if Under(k, r) then Get(b, k) else Get(a, k)
  {
  }

  lemma BesideAlike(a: Nodes, b: Nodes, regions: set<VoxelKey>, r: VoxelKey)
    requires Apart(regions, r)
    ensures AlikeIn(regions, a, Beside(a, b, r)) && AlikeIn({r}, b, Beside(a, b, r))
  {
    forall k | InRegions(regions, k) ensures Get(a, k) == Get(Beside(a, b, r), k) {
      if Under(k, r) {
        ApartKeys(regions, r, k);
      }
    }
  }

  lemma SampledJoin(f: Frame, regions: set<VoxelKey>, r: VoxelKey, up: Nodes, m: Nodes)
    requires AllSampled(f, regions, up, m) && AllSampled(f, {r}, up, m)
    ensures AllSampled(f, regions + {r}, up, m)
  {
    forall p | InRegions(regions + {r}, p) && HasChild(up, p) ensures Redistributed(f, p, up, Get(up, p), m) {
      RegionsPlusOne(regions, r, p);
      if Under(p, r) {
        assert r in {r};
      }
    }
  }

  lemma LeafInRegions(f: Frame, s: multiset<RawPoint>, regions: set<VoxelKey>, leaves: Nodes, up: Nodes, k: VoxelKey)
    requires LeavesOf(f, s, leaves) && FromLeaves(regions, leaves, up) && k in leaves
    ensures InRegions(regions, k)
  {
    assert Populated(up, k);
  }

  lemma HasChildCarry(a: Nodes, b: Nodes, regions: set<VoxelKey>, p: VoxelKey)
    requires HasChild(a, p) && InRegions(regions, p) && AlikeIn(regions, a, b)
    ensures HasChild(b, p)
  {
    AlikeChildren(regions, a, b, p);
    HasChildAlike(a, b, p);
  }

  lemma LeavesApart(f: Frame, s: multiset<RawPoint>, t: multiset<RawPoint>, regions: set<VoxelKey>, r: VoxelKey, a: Nodes, b: Nodes)
    requires LeavesOf(f, s, a) && LeavesOf(f, t, b) && Apart(regions, r)
    requires (forall k :: k in a ==> InRegions(regions, k)) && forall k :: k in b ==> Under(k, r)
    ensures LeavesOf(f, s + t, a + b)
  {
    forall i, j | i in a.Keys && j in b.Keys ensures !Under(i, j) && !Under(j, i) {
      RegionsUnrelated(regions, r, i, j);
    }
    AntichainJoin(a.Keys, b.Keys);
    assert (a + b).Keys == a.Keys + b.Keys;
    LeavesTogether(f, s, t, a, b);
  }

  lemma AntichainJoin(a: set<VoxelKey>, b: set<VoxelKey>)
    requires Antichain(a) && Antichain(b) && forall i, j :: i in a && j in b ==> !Under(i, j) && !Under(j, i)
    ensures Antichain(a + b) && a !! b
  {
    forall k | k in a && k in b ensures false {
      assert Under(k, k);
    }
  }

  lemma LeavesTogether(f: Frame, s: multiset<RawPoint>, t: multiset<RawPoint>, a: Nodes, b: Nodes)
    requires LeavesOf(f, s, a) && LeavesOf(f, t, b) && a.Keys !! b.Keys && Antichain((a + b).Keys)
    ensures LeavesOf(f, s + t, a + b)
  {
    forall k | k in b ensures k !in a {
      assert k in b.Keys;
    }
    TotalUnion(a, b);
  }

  lemma RegionsUnrelated(regions: set<VoxelKey>, r: VoxelKey, i: VoxelKey, j: VoxelKey)
    requires Apart(regions, r) && InRegions(regions, i) && Under(j, r)
    ensures !Under(i, j) && !Under(j, i)
  {
    ApartKeys(regions, r, j);
    if Under(i, j) {
      UnderTransitive(i, j, r);
      ApartKeys(regions, r, i);
    }
    if Under(j, i) {
      var d :| d in regions && Under(i, d);
      UnderTransitive(j, i, d);
    }
  }

  lemma FromLeavesJoin(f: Frame, s: multiset<RawPoint>, t: multiset<RawPoint>, regions: set<VoxelKey>, r: VoxelKey,
                       la: Nodes, lb: Nodes, a: Nodes, b: Nodes)
    requires LeavesOf(f, s, la) && FromLeaves(regions, la, a) && LeavesOf(f, t, lb) && FromLeaves({r}, lb, b) && Apart(regions, r)
    ensures FromLeaves(regions + {r}, la + lb, Beside(a, b, r))
  {
    var up, leaves := Beside(a, b, r), la + lb;
    BesideAlike(a, b, regions, r);
    forall k | k in leaves ensures Get(up, k) == leaves[k] {
      if k in lb {
        LeafInRegions(f, t, {r}, lb, b, k);
      } else {
        LeafInRegions(f, s, regions, la, a, k);
      }
    }
    forall k | Populated(up, k) ensures InRegions(regions + {r}, k) && (k in leaves || HasChild(up, k)) {
      RegionsPlusOne(regions, r, k);
      BesideReads(a, b, r, k);
      if Under(k, r) {
        assert Populated(b, k);
        if k !in lb { HasChildCarry(b, up, {r}, k); }
      } else {
        assert Populated(a, k);
        if k !in la { HasChildCarry(a, up, regions, k); }
      }
    }
  }

  /** Subtrees grown side by side are grown together. */
  lemma GrownJoin(f: Frame, s: multiset<RawPoint>, t: multiset<RawPoint>, regions: set<VoxelKey>, r: VoxelKey, m: Nodes)
    requires Grown(f, s, regions, m) && Grown(f, t, {r}, m) && Apart(regions, r)
    ensures Grown(f, s + t, regions + {r}, m)
  {
    var la, a := GrownWitness(f, s, regions, m);
    var lb, b := GrownWitness(f, t, {r}, m);
    JoinBoth(f, s, t, regions, r, la, lb, a, b, m);
  }

  lemma GrownWitness(f: Frame, s: multiset<RawPoint>, regions: set<VoxelKey>, m: Nodes) returns (leaves: Nodes, up: Nodes)
    requires Grown(f, s, regions, m)
    ensures LeavesOf(f, s, leaves) && GrownFrom(f, regions, leaves, up, m)
  {
    leaves, up :| LeavesOf(f, s, leaves) && GrownFrom(f, regions, leaves, up, m);
  }

  lemma JoinBoth(f: Frame, s: multiset<RawPoint>, t: multiset<RawPoint>, regions: set<VoxelKey>, r: VoxelKey,
                 la: Nodes, lb: Nodes, a: Nodes, b: Nodes, m: Nodes)
    requires LeavesOf(f, s, la) && LeavesOf(f, t, lb) && Apart(regions, r)
    requires GrownFrom(f, regions, la, a, m) && GrownFrom(f, {r}, lb, b, m)
    ensures Grown(f, s + t, regions + {r}, m)
  {
    GrownFromJoin(f, s, t, regions, r, la, lb, a, b, m);
    LeavesJoin(f, s, t, regions, r, la, lb, a, b);
    GrownBy(f, s + t, regions + {r}, la + lb, Beside(a, b, r), m);
  }

  lemma GrownBy(f: Frame, s: multiset<RawPoint>, regions: set<VoxelKey>, leaves: Nodes, up: Nodes, m: Nodes)
    requires LeavesOf(f, s, leaves) && GrownFrom(f, regions, leaves, up, m)
    ensures Grown(f, s, regions, m)
  {
  }

  lemma LeavesJoin(f: Frame, s: multiset<RawPoint>, t: multiset<RawPoint>, regions: set<VoxelKey>, r: VoxelKey,
                   la: Nodes, lb: Nodes, a: Nodes, b: Nodes)
    requires LeavesOf(f, s, la) && FromLeaves(regions, la, a) && LeavesOf(f, t, lb) && FromLeaves({r}, lb, b) && Apart(regions, r)
    ensures LeavesOf(f, s + t, la + lb)
  {
    AllLeavesIn(f, s, regions, la, a);
    AllLeavesIn(f, t, {r}, lb, b);
    LeavesApart(f, s, t, regions, r, la, lb);
  }

  lemma AllLeavesIn(f: Frame, s: multiset<RawPoint>, regions: set<VoxelKey>, leaves: Nodes, up: Nodes)
    requires LeavesOf(f, s, leaves) && FromLeaves(regions, leaves, up)
    ensures forall k :: k in leaves ==> InRegions(regions, k)
  {
    forall k | k in leaves ensures InRegions(regions, k) {
      LeafInRegions(f, s, regions, leaves, up, k);
    }
  }

  lemma GrownFromJoin(f: Frame, s: multiset<RawPoint>, t: multiset<RawPoint>, regions: set<VoxelKey>, r: VoxelKey,
                      la: Nodes, lb: Nodes, a: Nodes, b: Nodes, m: Nodes)
    requires LeavesOf(f, s, la) && LeavesOf(f, t, lb) && Apart(regions, r)
    requires GrownFrom(f, regions, la, a, m) && GrownFrom(f, {r}, lb, b, m)
    ensures GrownFrom(f, regions + {r}, la + lb, Beside(a, b, r), m)
  {
    var up := Beside(a, b, r);
    FromLeavesJoin(f, s, t, regions, r, la, lb, a, b);
    BesideAlike(a, b, regions, r);
    SampledAlike(f, regions, a, m, up, m);
    SampledAlike(f, {r}, b, m, up, m);
    SampledJoin(f, regions, r, up, m);
    forall q | q in regions ensures Get(m, q) == Get(up, q) {
      RootInRegions(regions, q);
    }
    assert Under(r, r);
  }
}
