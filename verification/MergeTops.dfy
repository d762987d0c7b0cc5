/** The level loop of `merge_chunk_tops` and its guarantees: no populated node is ever
    clobbered, points are conserved, and density extends to the top of the merge. */
module MergeTops {
  import opened Voxel
  import opened Points
  import opened NodeMap
  import opened NodeStorage
  import opened Sampling
  import opened Levels
  import opened Families
  import opened Growth
  import opened Merge

  /** `k` is a strict ancestor of one of the roots. */
  ghost predicate AboveRoot(roots: set<VoxelKey>, k: VoxelKey) {
    exists r :: r in roots && StrictlyUnder(r, k)
  }

  /** What the merge relies on. `regions` are the voxels whose subtrees have been built below
      `top`, pairwise un-nested; `roots` are those that are merge inputs, and the others hold no
      points at their own key. */
  ghost predicate Mergeable(f: Frame, all: multiset<RawPoint>, m: Nodes, top: VoxelKey,
                            regions: set<VoxelKey>, roots: set<VoxelKey>) {
    Placed(f, m) && Total(m) <= all &&
    Antichain(regions) && roots <= regions &&
    (forall r :: r in regions ==> Under(r, top)) &&
    (forall k :: Under(k, top) && Populated(m, k) ==> InRegions(regions, k)) &&
    (forall r :: r in regions - roots ==> !Populated(m, r)) &&
    (forall v :: InRegions(regions, v) ==> Dense(f, all, m, v))
  }

  /** Nodes known to the merge once levels above `d` have been processed. */
  ghost predicate KnownAt(roots: set<VoxelKey>, known: set<VoxelKey>, d: nat) {
    forall k :: k in known <==> k in roots || (k.level >= d && AboveRoot(roots, k))
  }

  /** Nothing is stored strictly above a node that is still to be merged. */
  ghost predicate NoClobber(m: Nodes, top: VoxelKey, known: set<VoxelKey>, d: nat) {
    forall r, k :: r in known && r.level <= d && StrictlyUnder(r, k) && top.level <= k.level ==> !Populated(m, k)
  }

  /** A processed node keeps points only when its parent holds more than one leaf. */
  ghost predicate ChildrenCrowded(f: Frame, all: multiset<RawPoint>, m: Nodes, known: set<VoxelKey>, d: nat) {
    forall c :: c in known && c.level > d && Populated(m, c) ==> !FitsLeaf(f, all, Parent(c).value)
  }

  ghost predicate Merging(f: Frame, all: multiset<RawPoint>, m0: Nodes, m: Nodes, top: VoxelKey,
                          roots: set<VoxelKey>, known: set<VoxelKey>, d: nat) {
    Total(m) == Total(m0) && Placed(f, m) && KnownAt(roots, known, d) &&
    SameElsewhere(m0, m, known) && NoClobber(m, top, known, d) && ChildrenCrowded(f, all, m, known, d)
  }

  lemma MergingStart(f: Frame, all: multiset<RawPoint>, m: Nodes, top: VoxelKey,
                     regions: set<VoxelKey>, roots: set<VoxelKey>, d: nat)
    requires Mergeable(f, all, m, top, regions, roots)
    requires forall r :: r in roots ==> r.level <= d
    ensures Merging(f, all, m, m, top, roots, roots, d)
  {
    forall k: VoxelKey | k.level >= d ensures !AboveRoot(roots, k) {
    }
    forall r, k | r in roots && StrictlyUnder(r, k) && top.level <= k.level ensures !Populated(m, k) {
      AncestorsComparable(r, k, top);
      if Populated(m, k) {
        var g :| g in regions && Under(k, g);
        UnderTransitive(r, k, g);
      }
    }
  }

  /** The parents of the known keys at level `d + 1` are exactly the ancestors at level `d`. */
  lemma KnownStep(roots: set<VoxelKey>, known: set<VoxelKey>, d: nat, groups: Groups, keys: set<VoxelKey>)
    requires KnownAt(roots, known, d + 1) && Grouping(groups, keys)
    requires forall k :: k in keys <==> k in known && k.level == d + 1
    ensures KnownAt(roots, known + groups.Keys, d)
    ensures forall k :: k in groups ==> k.level == d && AboveRoot(roots, k)
  {
    forall k | k in groups ensures k.level == d && AboveRoot(roots, k) {
      ParentIsAbove(roots, known, d, groups, keys, k);
    }
    forall k: VoxelKey | k.level == d && AboveRoot(roots, k) ensures k in groups {
      AboveIsParent(roots, known, d, groups, keys, k);
    }
  }

  lemma ParentIsAbove(roots: set<VoxelKey>, known: set<VoxelKey>, d: nat, groups: Groups, keys: set<VoxelKey>, k: VoxelKey)
    requires KnownAt(roots, known, d + 1) && Grouping(groups, keys) && k in groups
    requires forall k :: k in keys <==> k in known && k.level == d + 1
    ensures k.level == d && AboveRoot(roots, k)
  {
    var c := groups[k][0];
    assert c in groups[k] && c in keys && Under(c, k);
    if c in roots {
      assert StrictlyUnder(c, k);
    } else {
      var r :| r in roots && StrictlyUnder(r, c);
      UnderTransitive(r, c, k);
      assert StrictlyUnder(r, k);
    }
  }

  lemma AboveIsParent(roots: set<VoxelKey>, known: set<VoxelKey>, d: nat, groups: Groups, keys: set<VoxelKey>, k: VoxelKey)
    requires KnownAt(roots, known, d + 1) && Grouping(groups, keys)
    requires forall k :: k in keys <==> k in known && k.level == d + 1
    requires k.level == d && AboveRoot(roots, k)
    ensures k in groups
  {
    var r :| r in roots && StrictlyUnder(r, k);
    var c := ChildTowards(r, k);
    if r.level > d + 1 {
      assert StrictlyUnder(r, c);
    }
    assert c in known;
  }

  lemma GroupsAreFamilies(known: set<VoxelKey>, d: nat, groups: Groups, keys: set<VoxelKey>)
    requires Grouping(groups, keys)
    requires forall k :: k in keys <==> k in known && k.level == d + 1
    ensures FamiliesAt(groups, d)
    ensures forall k :: k in Touched(groups, groups.Keys) ==> k in keys || k in groups
  {
    forall p | p in groups ensures p.level == d {
      var c := groups[p][0];
      assert c in groups[p] && c in keys;
    }
  }

  /** The parent about to be written holds nothing. */
  lemma ParentsUnpopulated(m: Nodes, top: VoxelKey, known: set<VoxelKey>, d: nat, groups: Groups, keys: set<VoxelKey>)
    requires Grouping(groups, keys) && NoClobber(m, top, known, d + 1) && top.level <= d
    requires forall k :: k in keys <==> k in known && k.level == d + 1
    ensures forall p :: p in groups ==> !Populated(m, p)
  {
    forall p | p in groups ensures !Populated(m, p) {
      var c := groups[p][0];
      assert c in groups[p] && c in keys && StrictlyUnder(c, p);
    }
  }

  /** One level, with the keys it works on. */
  ghost predicate LevelOf(known: set<VoxelKey>, d: nat, groups: Groups, keys: set<VoxelKey>) {
    Grouping(groups, keys) && FamiliesAt(groups, d) &&
    (forall k :: k in keys <==> k in known && k.level == d + 1) &&
    (forall k :: k in Touched(groups, groups.Keys) ==> k in keys || k in groups)
  }

  lemma NoClobberStep(m: Nodes, m': Nodes, top: VoxelKey, known: set<VoxelKey>, d: nat, groups: Groups, keys: set<VoxelKey>)
    requires LevelOf(known, d, groups, keys) && NoClobber(m, top, known, d + 1)
    requires SameElsewhere(m, m', Touched(groups, groups.Keys))
    ensures NoClobber(m', top, known + groups.Keys, d)
  {
    forall r, k | r in known + groups.Keys && r.level <= d && StrictlyUnder(r, k) && top.level <= k.level
      ensures !Populated(m', k)
    {
      assert k !in Touched(groups, groups.Keys);
      if r !in known {
        var c := groups[r][0];
        assert c in groups[r] && c in keys && Under(c, r);
        UnderTransitive(c, r, k);
        assert StrictlyUnder(c, k);
      }
    }
  }

  lemma CrowdedStep(f: Frame, all: multiset<RawPoint>, m: Nodes, m': Nodes, known: set<VoxelKey>, d: nat,
                    groups: Groups, keys: set<VoxelKey>)
    requires LevelOf(known, d, groups, keys) && ChildrenCrowded(f, all, m, known, d + 1)
    requires LevelMerged(f, all, groups, groups.Keys, m, m')
    ensures ChildrenCrowded(f, all, m', known + groups.Keys, d)
  {
    forall c | c in known + groups.Keys && c.level > d && Populated(m', c)
      ensures !FitsLeaf(f, all, Parent(c).value)
    {
      if c.level == d + 1 {
        assert c in keys;
      } else {
        assert c !in Touched(groups, groups.Keys);
      }
    }
  }

  lemma MergingStep(f: Frame, all: multiset<RawPoint>, m0: Nodes, m: Nodes, top: VoxelKey, roots: set<VoxelKey>,
                    known: set<VoxelKey>, d: nat, groups: Groups, keys: set<VoxelKey>, m': Nodes)
    requires Merging(f, all, m0, m, top, roots, known, d + 1) && LevelOf(known, d, groups, keys)
    requires LevelMerged(f, all, groups, groups.Keys, m, m')
    ensures Merging(f, all, m0, m', top, roots, known + groups.Keys, d)
    ensures forall k :: k in groups ==> k.level == d && AboveRoot(roots, k)
  {
    KnownStep(roots, known, d, groups, keys);
    NoClobberStep(m, m', top, known, d, groups, keys);
    CrowdedStep(f, all, m, m', known, d, groups, keys);
    forall k | k !in known + groups.Keys ensures Get(m', k) == Get(m0, k) {
      assert k !in Touched(groups, groups.Keys);
    }
  }

  /** Below a built region, or known to the merge. */
  ghost predicate Reached(regions: set<VoxelKey>, known: set<VoxelKey>, k: VoxelKey) {
    InRegions(regions, k) || k in known
  }

  /** Between two levels of the merge: the regions and the families merged so far are sampled from
      the leaves up, and the known nodes still to be merged are as they were filled. */
  ghost predicate Raising(f: Frame, regions: set<VoxelKey>, known: set<VoxelKey>, leaves: Nodes, up: Nodes, m: Nodes, d: nat) {
    (forall k :: k in leaves ==> Get(up, k) == leaves[k]) &&
    (forall k :: Populated(up, k) ==> Reached(regions, known, k) && (k in leaves || HasChild(up, k))) &&
    (forall p :: Reached(regions, known, p) && HasChild(up, p) ==> Redistributed(f, p, up, Get(up, p), m)) &&
    (forall r :: r in regions && Populated(up, r) ==> r in known) &&
    (forall k :: k in known && k.level <= d ==> Get(m, k) == Get(up, k))
  }

  lemma RaisingStart(f: Frame, all: multiset<RawPoint>, m: Nodes, top: VoxelKey, regions: set<VoxelKey>, roots: set<VoxelKey>,
                     leaves: Nodes, up: Nodes, d: nat)
    requires Mergeable(f, all, m, top, regions, roots) && GrownFrom(f, regions, leaves, up, m)
    ensures Raising(f, regions, roots, leaves, up, m, d)
  {
    forall k | k in roots ensures InRegions(regions, k) {
      RootInRegions(regions, k);
    }
    forall r | r in regions && Populated(up, r) ensures r in roots {
      assert Get(m, r) == Get(up, r);
      assert r !in roots ==> r in regions - roots;
    }
  }

  /** Nothing below a region lies above a root. */
  lemma AboveIsOutside(regions: set<VoxelKey>, roots: set<VoxelKey>, k: VoxelKey)
    requires Antichain(regions) && roots <= regions && AboveRoot(roots, k)
    ensures !InRegions(regions, k)
  {
    var r :| r in roots && StrictlyUnder(r, k);
    forall g | g in regions ensures !Under(k, g) {
      if Under(k, g) {
        UnderTransitive(r, k, g);
      }
    }
  }

  /** A child of a node above a root that lies below a region is that region's root. */
  lemma RegionBelowIsRoot(regions: set<VoxelKey>, p: VoxelKey, c: VoxelKey)
    requires Parent(c) == Some(p) && !InRegions(regions, p) && InRegions(regions, c)
    ensures c in regions
  {
    var r :| r in regions && Under(c, r);
    if r != c {
      assert Under(p, r);
    }
  }

  /** What a level finds. */
  ghost predicate LevelFound(f: Frame, all: multiset<RawPoint>, m0: Nodes, m: Nodes, top: VoxelKey, regions: set<VoxelKey>,
                             roots: set<VoxelKey>, known: set<VoxelKey>, d: nat, groups: Groups, keys: set<VoxelKey>) {
    Mergeable(f, all, m0, top, regions, roots) && Merging(f, all, m0, m, top, roots, known, d + 1) &&
    LevelOf(known, d, groups, keys) && top.level <= d
  }

  lemma GroupAbove(f: Frame, all: multiset<RawPoint>, m0: Nodes, m: Nodes, top: VoxelKey, regions: set<VoxelKey>,
                   roots: set<VoxelKey>, known: set<VoxelKey>, d: nat, groups: Groups, keys: set<VoxelKey>, p: VoxelKey)
    requires LevelFound(f, all, m0, m, top, regions, roots, known, d, groups, keys) && p in groups
    ensures p.level == d && !Reached(regions, known, p) && Under(p, top)
  {
    KnownStep(roots, known, d, groups, keys);
    AboveIsOutside(regions, roots, p);
    if p in known {
      RootInRegions(regions, p);
    }
    var r :| r in roots && StrictlyUnder(r, p);
    AncestorsComparable(r, p, top);
  }

  /** The populated children of a group's parent are the group. */
  lemma GroupCovers(f: Frame, all: multiset<RawPoint>, m0: Nodes, m: Nodes, top: VoxelKey, regions: set<VoxelKey>,
                    roots: set<VoxelKey>, known: set<VoxelKey>, d: nat, groups: Groups, keys: set<VoxelKey>, p: VoxelKey)
    requires LevelFound(f, all, m0, m, top, regions, roots, known, d, groups, keys) && p in groups
    ensures CoversBrood(m, p, groups[p])
  {
    GroupAbove(f, all, m0, m, top, regions, roots, known, d, groups, keys, p);
    forall c | Parent(c) == Some(p) && Populated(m, c) ensures c in groups[p] {
      if c !in known {
        assert Get(m, c) == Get(m0, c);
        UnknownIsEmpty(f, all, m0, top, regions, roots, p, c);
      }
      assert c in keys;
    }
  }

  lemma UnknownIsEmpty(f: Frame, all: multiset<RawPoint>, m0: Nodes, top: VoxelKey, regions: set<VoxelKey>,
                       roots: set<VoxelKey>, p: VoxelKey, c: VoxelKey)
    requires Mergeable(f, all, m0, top, regions, roots) && Parent(c) == Some(p) && Under(p, top) && !InRegions(regions, p)
    requires c !in roots
    ensures !Populated(m0, c)
  {
    assert Under(c, top);
    if InRegions(regions, c) {
      RegionBelowIsRoot(regions, p, c);
      assert c in regions - roots;
    }
  }

  lemma AllGroupsCovered(f: Frame, all: multiset<RawPoint>, m0: Nodes, m: Nodes, top: VoxelKey, regions: set<VoxelKey>,
                         roots: set<VoxelKey>, known: set<VoxelKey>, d: nat, groups: Groups, keys: set<VoxelKey>)
    requires LevelFound(f, all, m0, m, top, regions, roots, known, d, groups, keys)
    ensures forall p :: p in groups ==> !Populated(m, p) && CoversBrood(m, p, groups[p])
  {
    ParentsUnpopulated(m, top, known, d, groups, keys);
    forall p | p in groups ensures CoversBrood(m, p, groups[p]) {
      GroupCovers(f, all, m0, m, top, regions, roots, known, d, groups, keys, p);
    }
  }

  /** What the level's parents were filled with is recorded. */
  function Raised(up: Nodes, m: Nodes, parents: set<VoxelKey>): Nodes {
    up + map k | k in m && k in parents :: m[k]
  }

  lemma RaisedReads(up: Nodes, m: Nodes, parents: set<VoxelKey>, k: VoxelKey)
    ensures k !in parents ==> Get(Raised(up, m, parents), k) == Get(up, k)
    ensures k in parents && !Populated(up, k) ==> Get(Raised(up, m, parents), k) == Get(m, k)
  {
  }

  /** What one level does to the record of the merge. */
  ghost predicate LevelDone(f: Frame, all: multiset<RawPoint>, m0: Nodes, m: Nodes, top: VoxelKey, regions: set<VoxelKey>,
                            roots: set<VoxelKey>, known: set<VoxelKey>, d: nat, groups: Groups, keys: set<VoxelKey>,
                            leaves: Nodes, up: Nodes, m': Nodes) {
    LevelFound(f, all, m0, m, top, regions, roots, known, d, groups, keys) &&
    Raising(f, regions, known, leaves, up, m, d + 1) && LevelMerged(f, all, groups, groups.Keys, m, m')
  }

  lemma RaisedGroup(f: Frame, all: multiset<RawPoint>, m0: Nodes, m: Nodes, top: VoxelKey, regions: set<VoxelKey>,
                    roots: set<VoxelKey>, known: set<VoxelKey>, d: nat, groups: Groups, keys: set<VoxelKey>,
                    leaves: Nodes, up: Nodes, m': Nodes, p: VoxelKey)
    requires LevelDone(f, all, m0, m, top, regions, roots, known, d, groups, keys, leaves, up, m') && p in groups
    ensures Get(Raised(up, m', groups.Keys), p) == Get(m', p)
    ensures ChildrenAlike(m, Raised(up, m', groups.Keys), p)
    ensures FamilySampled(f, m, m', p)
  {
    var up' := Raised(up, m', groups.Keys);
    GroupAbove(f, all, m0, m, top, regions, roots, known, d, groups, keys, p);
    RaisedReads(up, m', groups.Keys, p);
    forall c | Parent(c) == Some(p) ensures Get(m, c) == Get(up', c) {
      assert c !in groups.Keys;
      RaisedReads(up, m', groups.Keys, c);
      GroupChild(f, all, m0, m, top, regions, roots, known, d, groups, keys, leaves, up, p, c);
    }
    assert p in groups.Keys;
  }

  lemma GroupChild(f: Frame, all: multiset<RawPoint>, m0: Nodes, m: Nodes, top: VoxelKey, regions: set<VoxelKey>,
                   roots: set<VoxelKey>, known: set<VoxelKey>, d: nat, groups: Groups, keys: set<VoxelKey>,
                   leaves: Nodes, up: Nodes, p: VoxelKey, c: VoxelKey)
    requires LevelFound(f, all, m0, m, top, regions, roots, known, d, groups, keys) && p in groups
    requires Raising(f, regions, known, leaves, up, m, d + 1) && Parent(c) == Some(p)
    ensures Get(m, c) == Get(up, c)
  {
    if c !in known {
      GroupAbove(f, all, m0, m, top, regions, roots, known, d, groups, keys, p);
      UnknownIsEmpty(f, all, m0, top, regions, roots, p, c);
      assert Get(m, c) == Get(m0, c);
      if InRegions(regions, c) {
        RegionBelowIsRoot(regions, p, c);
      }
    }
  }

  /** A family reached before this level is as it was. */
  lemma RaisedOther(f: Frame, all: multiset<RawPoint>, m0: Nodes, m: Nodes, top: VoxelKey, regions: set<VoxelKey>,
                    roots: set<VoxelKey>, known: set<VoxelKey>, d: nat, groups: Groups, keys: set<VoxelKey>,
                    leaves: Nodes, up: Nodes, m': Nodes, p: VoxelKey)
    requires LevelDone(f, all, m0, m, top, regions, roots, known, d, groups, keys, leaves, up, m') && Reached(regions, known, p)
    ensures Get(Raised(up, m', groups.Keys), p) == Get(up, p)
    ensures ChildrenAlike(up, Raised(up, m', groups.Keys), p) && ChildrenAlike(m, m', p)
  {
    var up' := Raised(up, m', groups.Keys);
    OutsideGroups(f, all, m0, m, top, regions, roots, known, d, groups, keys, p);
    RaisedReads(up, m', groups.Keys, p);
    forall c | Parent(c) == Some(p) ensures Get(up, c) == Get(up', c) && Get(m, c) == Get(m', c) {
      ChildOutside(f, all, m0, m, top, regions, roots, known, d, groups, keys, p, c);
      RaisedReads(up, m', groups.Keys, c);
    }
  }

  lemma OutsideGroups(f: Frame, all: multiset<RawPoint>, m0: Nodes, m: Nodes, top: VoxelKey, regions: set<VoxelKey>,
                      roots: set<VoxelKey>, known: set<VoxelKey>, d: nat, groups: Groups, keys: set<VoxelKey>, p: VoxelKey)
    requires LevelFound(f, all, m0, m, top, regions, roots, known, d, groups, keys) && Reached(regions, known, p)
    ensures p !in groups
  {
    if p in groups {
      GroupAbove(f, all, m0, m, top, regions, roots, known, d, groups, keys, p);
    }
  }

  lemma ChildOutside(f: Frame, all: multiset<RawPoint>, m0: Nodes, m: Nodes, top: VoxelKey, regions: set<VoxelKey>,
                     roots: set<VoxelKey>, known: set<VoxelKey>, d: nat, groups: Groups, keys: set<VoxelKey>, p: VoxelKey, c: VoxelKey)
    requires LevelFound(f, all, m0, m, top, regions, roots, known, d, groups, keys) && Reached(regions, known, p) && Parent(c) == Some(p)
    ensures c !in groups && c !in keys && c !in Touched(groups, groups.Keys)
  {
    OutsideGroups(f, all, m0, m, top, regions, roots, known, d, groups, keys, p);
    if InRegions(regions, p) {
      ChildInRegions(regions, p, c);
      OutsideGroups(f, all, m0, m, top, regions, roots, known, d, groups, keys, c);
    }
  }

  lemma RaisingFamilies(f: Frame, all: multiset<RawPoint>, m0: Nodes, m: Nodes, top: VoxelKey, regions: set<VoxelKey>,
                        roots: set<VoxelKey>, known: set<VoxelKey>, d: nat, groups: Groups, keys: set<VoxelKey>,
                        leaves: Nodes, up: Nodes, m': Nodes, p: VoxelKey)
    requires LevelDone(f, all, m0, m, top, regions, roots, known, d, groups, keys, leaves, up, m')
    requires Reached(regions, known + groups.Keys, p) && HasChild(Raised(up, m', groups.Keys), p)
    ensures Redistributed(f, p, Raised(up, m', groups.Keys), Get(Raised(up, m', groups.Keys), p), m')
  {
    var up' := Raised(up, m', groups.Keys);
    if p in groups {
      RaisedGroup(f, all, m0, m, top, regions, roots, known, d, groups, keys, leaves, up, m', p);
      RedistributedAlike(f, p, m, up', Get(m', p), m', m');
    } else {
      RaisedOther(f, all, m0, m, top, regions, roots, known, d, groups, keys, leaves, up, m', p);
      HasChildAlike(up, up', p);
      RedistributedAlike(f, p, up, up', Get(up, p), m, m');
    }
  }

  lemma RaisingNodes(f: Frame, all: multiset<RawPoint>, m0: Nodes, m: Nodes, top: VoxelKey, regions: set<VoxelKey>,
                     roots: set<VoxelKey>, known: set<VoxelKey>, d: nat, groups: Groups, keys: set<VoxelKey>,
                     leaves: Nodes, up: Nodes, m': Nodes, k: VoxelKey)
    requires LevelDone(f, all, m0, m, top, regions, roots, known, d, groups, keys, leaves, up, m')
    requires Populated(Raised(up, m', groups.Keys), k)
    ensures Reached(regions, known + groups.Keys, k) && (k in leaves || HasChild(Raised(up, m', groups.Keys), k))
  {
    var up' := Raised(up, m', groups.Keys);
    if k in groups {
      RaisedGroup(f, all, m0, m, top, regions, roots, known, d, groups, keys, leaves, up, m', k);
      TakenFromChild(f, k, m, Get(m', k), m');
      HasChildAlike(m, up', k);
    } else {
      RaisedReads(up, m', groups.Keys, k);
      assert Populated(up, k);
      RaisedOther(f, all, m0, m, top, regions, roots, known, d, groups, keys, leaves, up, m', k);
      HasChildAlike(up, up', k);
    }
  }

  lemma RaisingStep(f: Frame, all: multiset<RawPoint>, m0: Nodes, m: Nodes, top: VoxelKey, regions: set<VoxelKey>,
                    roots: set<VoxelKey>, known: set<VoxelKey>, d: nat, groups: Groups, keys: set<VoxelKey>,
                    leaves: Nodes, up: Nodes, m': Nodes)
    requires LevelDone(f, all, m0, m, top, regions, roots, known, d, groups, keys, leaves, up, m') && Sound(f, leaves)
    ensures Raising(f, regions, known + groups.Keys, leaves, Raised(up, m', groups.Keys), m', d)
  {
    var up', known' := Raised(up, m', groups.Keys), known + groups.Keys;
    forall k | Reached(regions, known, k) ensures Get(up', k) == Get(up, k) {
      RaisedOther(f, all, m0, m, top, regions, roots, known, d, groups, keys, leaves, up, m', k);
    }
    forall k | k in leaves ensures Get(up', k) == leaves[k] {
      assert Populated(up, k);
    }
    forall k | Populated(up', k) ensures Reached(regions, known', k) && (k in leaves || HasChild(up', k)) {
      RaisingNodes(f, all, m0, m, top, regions, roots, known, d, groups, keys, leaves, up, m', k);
    }
    forall p | Reached(regions, known', p) && HasChild(up', p) ensures Redistributed(f, p, up', Get(up', p), m') {
      RaisingFamilies(f, all, m0, m, top, regions, roots, known, d, groups, keys, leaves, up, m', p);
    }
    forall r | r in regions && Populated(up', r) ensures r in known' {
      RootInRegions(regions, r);
    }
    forall k | k in known' && k.level <= d ensures Get(m', k) == Get(up', k) {
      RaisedAsFilled(f, all, m0, m, top, regions, roots, known, d, groups, keys, leaves, up, m', k);
    }
  }

  lemma RaisedAsFilled(f: Frame, all: multiset<RawPoint>, m0: Nodes, m: Nodes, top: VoxelKey, regions: set<VoxelKey>,
                       roots: set<VoxelKey>, known: set<VoxelKey>, d: nat, groups: Groups, keys: set<VoxelKey>,
                       leaves: Nodes, up: Nodes, m': Nodes, k: VoxelKey)
    requires LevelDone(f, all, m0, m, top, regions, roots, known, d, groups, keys, leaves, up, m')
    requires k in known + groups.Keys && k.level <= d
    ensures Get(m', k) == Get(Raised(up, m', groups.Keys), k)
  {
    if k in groups {
      RaisedGroup(f, all, m0, m, top, regions, roots, known, d, groups, keys, leaves, up, m', k);
    } else {
      RaisedReads(up, m', groups.Keys, k);
      assert k !in keys && k !in Touched(groups, groups.Keys);
    }
  }

  /** At the top of the merge one grown tree is left. */
  lemma RaisingDone(f: Frame, all: multiset<RawPoint>, m0: Nodes, m: Nodes, top: VoxelKey, regions: set<VoxelKey>,
                    roots: set<VoxelKey>, known: set<VoxelKey>, leaves: Nodes, up: Nodes)
    requires Mergeable(f, all, m0, top, regions, roots) && Merging(f, all, m0, m, top, roots, known, top.level)
    requires Raising(f, regions, known, leaves, up, m, top.level) && roots <= known
    ensures GrownFrom(f, {top}, leaves, up, m)
  {
    forall k | Populated(up, k) ensures InRegions({top}, k) {
      ReachedUnder(f, all, m0, top, regions, roots, known, k);
    }
    forall p | InRegions({top}, p) && HasChild(up, p) ensures Redistributed(f, p, up, Get(up, p), m) {
      ReachedParent(f, regions, roots, known, leaves, up, m, top, p);
    }
    TopAsFilled(f, all, m0, m, top, regions, roots, known, leaves, up);
  }

  lemma ReachedUnder(f: Frame, all: multiset<RawPoint>, m0: Nodes, top: VoxelKey, regions: set<VoxelKey>,
                     roots: set<VoxelKey>, known: set<VoxelKey>, k: VoxelKey)
    requires Mergeable(f, all, m0, top, regions, roots) && KnownAt(roots, known, top.level) && Reached(regions, known, k)
    ensures InRegions({top}, k)
  {
    assert top in {top};
    if InRegions(regions, k) {
      var r :| r in regions && Under(k, r);
      UnderTransitive(k, r, top);
    } else if k in roots {
      assert k in regions;
    } else {
      var r :| r in roots && StrictlyUnder(r, k);
      AncestorsComparable(r, k, top);
    }
  }

  lemma ReachedParent(f: Frame, regions: set<VoxelKey>, roots: set<VoxelKey>, known: set<VoxelKey>,
                      leaves: Nodes, up: Nodes, m: Nodes, top: VoxelKey, p: VoxelKey)
    requires KnownAt(roots, known, top.level) && Raising(f, regions, known, leaves, up, m, top.level)
    requires top.level <= p.level && HasChild(up, p)
    ensures Reached(regions, known, p)
  {
    var c :| Populated(up, c) && Parent(c) == Some(p);
    if !InRegions(regions, p) {
      if InRegions(regions, c) {
        RegionBelowIsRoot(regions, p, c);
      }
      AboveKnown(roots, known, top.level, p, c);
    }
  }

  lemma AboveKnown(roots: set<VoxelKey>, known: set<VoxelKey>, d: nat, p: VoxelKey, c: VoxelKey)
    requires KnownAt(roots, known, d) && c in known && Parent(c) == Some(p) && d <= p.level
    ensures p in known
  {
    assert Under(c, p);
    if c in roots {
      assert StrictlyUnder(c, p);
    } else {
      var r :| r in roots && StrictlyUnder(r, c);
      UnderTransitive(r, c, p);
      assert StrictlyUnder(r, p);
    }
  }

  lemma TopAsFilled(f: Frame, all: multiset<RawPoint>, m0: Nodes, m: Nodes, top: VoxelKey, regions: set<VoxelKey>,
                    roots: set<VoxelKey>, known: set<VoxelKey>, leaves: Nodes, up: Nodes)
    requires Mergeable(f, all, m0, top, regions, roots) && SameElsewhere(m0, m, known)
    requires Raising(f, regions, known, leaves, up, m, top.level) && roots <= known
    ensures Get(m, top) == Get(up, top)
  {
    if top !in known {
      assert Get(m, top) == Get(m0, top);
      if InRegions(regions, top) {
        var r :| r in regions && Under(top, r);
        assert r == top;
        assert top in regions - roots;
      }
      assert Under(top, top);
    }
  }

  /** One iteration of the level loop; `ok` is false when a gathering exceeds the memory limit,
      and then nothing was written. */
  method MergeOneLevel(f: Frame, store: NodeStore, known: set<VoxelKey>, d: nat, memPerPoint: nat, oomThreshold: nat,
                       ghost m0: Nodes, ghost top: VoxelKey, ghost regions: set<VoxelKey>, ghost roots: set<VoxelKey>,
                       ghost leaves: Nodes, ghost up: Nodes, ghost all: multiset<RawPoint>, ghost cap: nat)
    returns (ok: bool, parents: set<VoxelKey>, ghost up': Nodes)
    requires Merging(f, all, m0, store.contents, top, roots, known, d + 1) && top.level <= d
    requires Mergeable(f, all, m0, top, regions, roots) && Bounded(store.contents, cap) && GRID_CELLS <= cap
    requires Sound(f, leaves) && Raising(f, regions, known, leaves, up, store.contents, d + 1)
    modifies store
    ensures Bounded(store.contents, cap)
    ensures ok ==> Merging(f, all, m0, store.contents, top, roots, known + parents, d)
    ensures ok ==> Raising(f, regions, known + parents, leaves, up', store.contents, d)
    ensures ok ==> forall p :: p in parents ==> p.level == d && AboveRoot(roots, p)
    ensures !ok ==> store.contents == old(store.contents)
    ensures Roomy(all, memPerPoint, oomThreshold) ==> ok
  {
    ghost var m := store.contents;
    var keys := set k | k in known && k.level == d + 1;
    var groups := GroupByParent(keys);
    GroupsAreFamilies(known, d, groups, keys);
    if Roomy(all, memPerPoint, oomThreshold) {
      RoomyGroups(m, groups, all, memPerPoint, oomThreshold);
    }
    ok := CheckSizes(store, groups, memPerPoint, oomThreshold);
    if !ok {
      return false, {}, up;
    }
    AllGroupsCovered(f, all, m0, m, top, regions, roots, known, d, groups, keys);
    MergeLevel(f, store, groups, d, all, cap);
    MergingStep(f, all, m0, m, top, roots, known, d, groups, keys, store.contents);
    RaisingStep(f, all, m0, m, top, regions, roots, known, d, groups, keys, leaves, up, store.contents);
    parents, up' := groups.Keys, Raised(up, store.contents, groups.Keys);
  }

  method HighestLevel(keys: set<VoxelKey>) returns (level: nat)
    ensures forall k :: k in keys ==> k.level <= level
    ensures level == 0 || exists k :: k in keys && k.level == level
  {
    level := 0;
    var todo := keys;
    while todo != {}
      invariant todo <= keys
      invariant forall k :: k in keys && k !in todo ==> k.level <= level
      invariant level == 0 || exists k :: k in keys && k.level == level
      decreases todo
    {
      var k :| k in todo;
      if k.level > level {
        level := k.level;
      }
      todo := todo - {k};
    }
  }

  /** After the merge, a voxel below `top` whose points fit one leaf has nothing stored below it. */
  lemma DenseAfterMerge(f: Frame, all: multiset<RawPoint>, m0: Nodes, m: Nodes, top: VoxelKey,
                        regions: set<VoxelKey>, roots: set<VoxelKey>, known: set<VoxelKey>, v: VoxelKey)
    requires Mergeable(f, all, m0, top, regions, roots)
    requires Merging(f, all, m0, m, top, roots, known, top.level) && Under(v, top)
    ensures Dense(f, all, m, v)
  {
    if FitsLeaf(f, all, v) {
      forall k | StrictlyUnder(k, v) ensures !Populated(m, k) {
        if k in known {
          KnownBelowFitting(f, all, m, known, top.level, v, k);
        } else {
          assert Get(m, k) == Get(m0, k);
          UnknownBelowFitting(f, all, m0, top, regions, roots, v, k);
        }
      }
    }
  }

  lemma KnownBelowFitting(f: Frame, all: multiset<RawPoint>, m: Nodes, known: set<VoxelKey>, d: nat, v: VoxelKey, k: VoxelKey)
    requires ChildrenCrowded(f, all, m, known, d) && k in known && StrictlyUnder(k, v) && d <= v.level
    requires FitsLeaf(f, all, v)
    ensures !Populated(m, k)
  {
    var p := Parent(k).value;
    assert AncestorAt(k, v.level) == AncestorAt(p, v.level);
    FitsLeafBelow(f, all, v, p);
  }

  lemma UnknownBelowFitting(f: Frame, all: multiset<RawPoint>, m0: Nodes, top: VoxelKey,
                            regions: set<VoxelKey>, roots: set<VoxelKey>, v: VoxelKey, k: VoxelKey)
    requires Mergeable(f, all, m0, top, regions, roots) && Under(v, top)
    requires StrictlyUnder(k, v) && k !in roots && FitsLeaf(f, all, v)
    ensures !Populated(m0, k)
  {
    UnderTransitive(k, v, top);
    if Populated(m0, k) {
      var r :| r in regions && Under(k, r);
      RegionBelowFitting(f, all, m0, regions, roots, v, k, r);
    }
  }

  lemma RegionBelowFitting(f: Frame, all: multiset<RawPoint>, m0: Nodes, regions: set<VoxelKey>,
                           roots: set<VoxelKey>, v: VoxelKey, k: VoxelKey, r: VoxelKey)
    requires forall r :: r in regions - roots ==> !Populated(m0, r)
    requires forall v :: InRegions(regions, v) ==> Dense(f, all, m0, v)
    requires r in regions && Under(k, r) && StrictlyUnder(k, v) && k !in roots && FitsLeaf(f, all, v)
    ensures !Populated(m0, k)
  {
    if r.level <= v.level {
      AncestorsComparable(k, v, r);
      assert InRegions(regions, v);
    } else if r != k {
      AncestorsComparable(k, r, v);
      FitsLeafBelow(f, all, v, r);
      assert InRegions(regions, r);
      assert StrictlyUnder(k, r);
    }
  }

  lemma RootsNotAbove(regions: set<VoxelKey>, roots: set<VoxelKey>)
    requires Antichain(regions) && roots <= regions
    ensures forall k :: k in roots ==> !AboveRoot(roots, k)
  {
  }

  /** What a completed merge guarantees. */
  ghost predicate MergedTo(f: Frame, all: multiset<RawPoint>, m0: Nodes, m: Nodes, top: VoxelKey,
                           roots: set<VoxelKey>, parents: set<VoxelKey>) {
    Total(m) == Total(m0) && Placed(f, m) && SameElsewhere(m0, m, roots + parents) &&
    (forall k :: k in parents <==> top.level <= k.level && AboveRoot(roots, k)) &&
    (forall v :: Under(v, top) ==> Dense(f, all, m, v))
  }

  lemma MergeComplete(f: Frame, all: multiset<RawPoint>, m0: Nodes, m: Nodes, top: VoxelKey,
                      regions: set<VoxelKey>, roots: set<VoxelKey>, parents: set<VoxelKey>)
    requires Mergeable(f, all, m0, top, regions, roots)
    requires Merging(f, all, m0, m, top, roots, roots + parents, top.level)
    requires forall p :: p in parents ==> top.level <= p.level && AboveRoot(roots, p)
    ensures MergedTo(f, all, m0, m, top, roots, parents)
  {
    RootsNotAbove(regions, roots);
    forall v | Under(v, top) ensures Dense(f, all, m, v) {
      DenseAfterMerge(f, all, m0, m, top, regions, roots, roots + parents, v);
    }
  }

  lemma MergeBegins(f: Frame, all: multiset<RawPoint>, m: Nodes, top: VoxelKey, regions: set<VoxelKey>, roots: set<VoxelKey>,
                    pts: multiset<RawPoint>, d: nat)
    returns (leaves: Nodes, up: Nodes)
    requires Mergeable(f, all, m, top, regions, roots) && Grown(f, pts, regions, m) && forall r :: r in roots ==> r.level <= d
    ensures Merging(f, all, m, m, top, roots, roots, d)
    ensures LeavesOf(f, pts, leaves) && Raising(f, regions, roots, leaves, up, m, d)
  {
    MergingStart(f, all, m, top, regions, roots, d);
    leaves, up := GrownWitness(f, pts, regions, m);
    RaisingStart(f, all, m, top, regions, roots, leaves, up, d);
  }

  lemma MergeEnds(f: Frame, all: multiset<RawPoint>, m0: Nodes, m: Nodes, top: VoxelKey, regions: set<VoxelKey>,
                  roots: set<VoxelKey>, parents: set<VoxelKey>, pts: multiset<RawPoint>, leaves: Nodes, up: Nodes)
    requires Mergeable(f, all, m0, top, regions, roots) && Merging(f, all, m0, m, top, roots, roots + parents, top.level)
    requires forall p :: p in parents ==> top.level <= p.level && AboveRoot(roots, p)
    requires LeavesOf(f, pts, leaves) && Raising(f, regions, roots + parents, leaves, up, m, top.level)
    ensures MergedTo(f, all, m0, m, top, roots, parents) && Grown(f, pts, {top}, m)
  {
    MergeComplete(f, all, m0, m, top, regions, roots, parents);
    RaisingDone(f, all, m0, m, top, regions, roots, roots + parents, leaves, up);
    GrownBy(f, pts, {top}, leaves, up, m);
  }

  /** `merge_chunk_tops` down to the level of `top`. On failure the points are all still stored;
      it cannot fail when all points together fit the limit of one parent. */
  method MergeChunkTops(f: Frame, store: NodeStore, rootKeys: set<VoxelKey>, stopLevel: nat,
                        memPerPoint: nat, oomThreshold: nat,
                        ghost top: VoxelKey, ghost regions: set<VoxelKey>, ghost pts: multiset<RawPoint>,
                        ghost all: multiset<RawPoint>, ghost cap: nat)
    returns (ok: bool, parents: set<VoxelKey>)
    requires Mergeable(f, all, store.contents, top, regions, rootKeys) && stopLevel == top.level
    requires Bounded(store.contents, cap) && GRID_CELLS <= cap && Grown(f, pts, regions, store.contents)
    modifies store
    ensures Bounded(store.contents, cap)
    ensures ok ==> MergedTo(f, all, old(store.contents), store.contents, top, rootKeys, parents)
    ensures ok ==> Grown(f, pts, {top}, store.contents)
    ensures !ok ==> Total(store.contents) == Total(old(store.contents)) && Placed(f, store.contents)
    ensures Roomy(all, memPerPoint, oomThreshold) ==> ok
  {
    ghost var m0 := store.contents;
    parents := {};
    var d := HighestLevel(rootKeys);
    if d < stopLevel { d := stopLevel; }
    ghost var leaves, up := MergeBegins(f, all, m0, top, regions, rootKeys, pts, d);
    assert rootKeys + parents == rootKeys;
    while d > stopLevel
      invariant stopLevel <= d && Bounded(store.contents, cap)
      invariant Merging(f, all, m0, store.contents, top, rootKeys, rootKeys + parents, d)
      invariant Raising(f, regions, rootKeys + parents, leaves, up, store.contents, d)
      invariant forall p :: p in parents ==> d <= p.level && AboveRoot(rootKeys, p)
    {
      d := d - 1;
      var done: bool, more: set<VoxelKey>;
      done, more, up := MergeOneLevel(f, store, rootKeys + parents, d, memPerPoint, oomThreshold, m0, top, regions, rootKeys,
                                      leaves, up, all, cap);
      if !done {
        return false, parents;
      }
      assert (rootKeys + parents) + more == rootKeys + (parents + more);
      parents := parents + more;
    }
    MergeEnds(f, all, m0, store.contents, top, regions, rootKeys, parents, pts, leaves, up);
    ok := true;
  }
}
