/** What sampling one family does (`grid_sample` and its two callers in src/octree.rs), in memory or on
    the store, and what it means for a whole tree to have been sampled level by level. */
module Families {
  import opened Voxel
  import opened Points
  import opened NodeMap
  import opened Sampling
  import opened Levels

  /** An in-memory node map: no empty node, every point under its own key. */
  ghost predicate Sound(f: Frame, m: Nodes) {
    Placed(f, m) && forall k :: k in m ==> m[k] != []
  }

  ghost predicate HasChildIn(m: Nodes, k: VoxelKey) {
    exists c :: c in m && Parent(c) == Some(k)
  }

  /** The children of a voxel. */
  function Brood(m: Nodes, p: VoxelKey): Nodes {
    map c | c in m && Parent(c) == Some(p) :: m[c]
  }

  /** The children left with exactly one point. */
  function Lone(m: Nodes, p: VoxelKey): set<VoxelKey> {
    set c | c in m && Parent(c) == Some(p) && |m[c]| == 1
  }

  ghost predicate NoneLeft(m: Nodes, p: VoxelKey) {
    forall c :: Parent(c) == Some(p) ==> !Populated(m, c)
  }

  ghost predicate NoneEmptied(before: Nodes, after: Nodes, p: VoxelKey) {
    forall c :: Parent(c) == Some(p) && Populated(before, c) ==> Populated(after, c)
  }

  /** The effect of sampling one family: the children held what `before` has, the parent takes `up`
      and the children keep what `after` has. If what they held fits one leaf it all moves to the
      parent. Otherwise the parent takes at most one point per cell, a representative of every
      occupied one but for one each given back to children left with that single point, and no
      child is emptied. */
  ghost predicate Redistributed(f: Frame, p: VoxelKey, before: Nodes, up: seq<RawPoint>, after: Nodes) {
    var g := Total(Brood(before, p));
    multiset(up) + Total(Brood(after, p)) == g &&
    if |g| <= MAX_LEAF_POINTS then multiset(up) == g && NoneLeft(after, p)
    else CellsApart(f, p, up) && NoneEmptied(before, after, p) && |Occupied(f, p, g)| <= |up| + |Lone(after, p)|
  }

  /** One family of a map or of the store, before and after. */
  ghost predicate FamilySampled(f: Frame, m: Nodes, m': Nodes, p: VoxelKey) {
    Redistributed(f, p, m, Get(m', p), m')
  }

  ghost predicate FamiliesSampled(f: Frame, d: nat, m: Nodes, m': Nodes) {
    forall p: VoxelKey :: p.level == d && HasChildIn(m, p) ==> FamilySampled(f, m, m', p)
  }

  /** The children of `p` read alike. */
  ghost predicate ChildrenAlike(a: Nodes, b: Nodes, p: VoxelKey) {
    forall c :: Parent(c) == Some(p) ==> Get(a, c) == Get(b, c)
  }

  lemma BroodAlike(a: Nodes, b: Nodes, p: VoxelKey)
    requires ChildrenAlike(a, b, p)
    ensures Total(Brood(a, p)) == Total(Brood(b, p)) && Lone(a, p) == Lone(b, p)
  {
    forall k ensures Get(Brood(a, p), k) == Get(Brood(b, p), k) {
      if Parent(k) == Some(p) {
        assert Get(a, k) == Get(b, k);
      }
    }
    TotalByGet(Brood(a, p), Brood(b, p));
    forall c ensures c in Lone(a, p) <==> c in Lone(b, p) {
      if Parent(c) == Some(p) {
        assert Get(a, c) == Get(b, c);
      }
    }
  }

  /** Only what the children read as matters. */
  lemma RedistributedAlike(f: Frame, p: VoxelKey, before: Nodes, before': Nodes, up: seq<RawPoint>, after: Nodes, after': Nodes)
    requires Redistributed(f, p, before, up, after) && ChildrenAlike(before, before', p) && ChildrenAlike(after, after', p)
    ensures Redistributed(f, p, before', up, after')
  {
    BroodAlike(before, before', p);
    BroodAlike(after, after', p);
    if |Total(Brood(before, p))| <= MAX_LEAF_POINTS {
      forall c | Parent(c) == Some(p) ensures !Populated(after', c) {
        assert Get(after, c) == Get(after', c);
      }
    } else {
      forall c | Parent(c) == Some(p) && Populated(before', c) ensures Populated(after', c) {
        assert Get(before, c) == Get(before', c) && Get(after, c) == Get(after', c);
      }
    }
  }

  /** A parent that took something had a child that held something. */
  lemma TakenFromChild(f: Frame, p: VoxelKey, before: Nodes, up: seq<RawPoint>, after: Nodes)
    requires Redistributed(f, p, before, up, after) && up != []
    ensures HasChild(before, p)
  {
    assert up[0] in multiset(up);
    assert up[0] in Total(Brood(before, p));
    var c := TotalWitness(Brood(before, p), up[0]);
    assert Populated(before, c);
  }

  ghost predicate HasChild(m: Nodes, p: VoxelKey) {
    exists c :: Populated(m, c) && Parent(c) == Some(p)
  }

  lemma HasChildAlike(a: Nodes, b: Nodes, p: VoxelKey)
    requires ChildrenAlike(a, b, p)
    ensures HasChild(a, p) <==> HasChild(b, p)
  {
    if c :| Populated(a, c) && Parent(c) == Some(p) {
      assert Get(a, c) == Get(b, c);
    }
    if c :| Populated(b, c) && Parent(c) == Some(p) {
      assert Get(a, c) == Get(b, c);
    }
  }

  /** The listed children are all that hold points. */
  ghost predicate CoversBrood(m: Nodes, p: VoxelKey, children: seq<VoxelKey>) {
    forall c :: Parent(c) == Some(p) && Populated(m, c) ==> c in children
  }

  lemma BroodIs(m: Nodes, p: VoxelKey, children: seq<VoxelKey>)
    requires Family(p, children) && CoversBrood(m, p, children)
    ensures Total(Brood(m, p)) == SumAll(ChildLists(m, children))
  {
    ListsTotal(m, children);
    forall k ensures Get(Brood(m, p), k) == Get(Restricted(m, Elems(children)), k) {
      if k in children {
        assert Parent(k) == Some(p);
      } else if Parent(k) == Some(p) {
        assert !Populated(m, k);
      }
    }
    TotalByGet(Brood(m, p), Restricted(m, Elems(children)));
  }

  lemma {:induction false} LoneCount(m: Nodes, p: VoxelKey, children: seq<VoxelKey>)
    requires Family(p, children)
    ensures |Lone(m, p) * Elems(children)| == Singles(ChildLists(m, children))
  {
    if children == [] {
      assert Lone(m, p) * Elems(children) == {};
    } else {
      var n := |children| - 1;
      FamilyTake(p, children, n);
      LoneCount(m, p, children[..n]);
      SinglesLast(m, children);
      LoneMore(m, p, Elems(children[..n]), children[n]);
    }
  }

  lemma FamilyTake(p: VoxelKey, children: seq<VoxelKey>, n: nat)
    requires Family(p, children) && n + 1 == |children|
    ensures Family(p, children[..n]) && children[n] !in Elems(children[..n]) && Parent(children[n]) == Some(p)
    ensures Elems(children) == Elems(children[..n]) + {children[n]}
  {
    DistinctNotBefore(children, n);
    ElemsTake(children, n);
    assert children[..n + 1] == children;
    assert children[n] in children;
  }

  lemma SinglesLast(m: Nodes, children: seq<VoxelKey>)
    requires children != []
    ensures var n := |children| - 1;
            Singles(ChildLists(m, children)) == Singles(ChildLists(m, children[..n])) + if |Get(m, children[n])| == 1 then 1 else 0
  {
    assert ChildLists(m, children)[..|children| - 1] == ChildLists(m, children[..|children| - 1]);
  }

  lemma LoneMore(m: Nodes, p: VoxelKey, some: set<VoxelKey>, c: VoxelKey)
    requires c !in some && Parent(c) == Some(p)
    ensures |Lone(m, p) * (some + {c})| == |Lone(m, p) * some| + if |Get(m, c)| == 1 then 1 else 0
  {
    if |Get(m, c)| == 1 {
      assert Lone(m, p) * (some + {c}) == Lone(m, p) * some + {c};
    } else {
      assert Lone(m, p) * (some + {c}) == Lone(m, p) * some;
    }
  }

  lemma LoneIs(m: Nodes, p: VoxelKey, children: seq<VoxelKey>)
    requires Family(p, children) && CoversBrood(m, p, children)
    ensures |Lone(m, p)| == Singles(ChildLists(m, children))
  {
    LoneCount(m, p, children);
    assert Lone(m, p) * Elems(children) == Lone(m, p);
  }

  lemma ChildContributes(m: Nodes, t: SampleTask, ci: nat)
    requires GatheredFrom(m, t.children, t.pts) && ci < |t.children| && Populated(m, t.children[ci])
    ensures Contributes(t.pts, ci)
  {
    var x := Tagged(ci, Get(m, t.children[ci])[0]);
    TagAllMember(ChildLists(m, t.children), x);
    assert x in multiset(t.pts);
  }

  /** A result read back is the family's sampling. */
  lemma FamilyBySampling(f: Frame, m: Nodes, m': Nodes, t: SampleTask, r: SampleResult)
    requires TaskOk(f, t) && SampledFrom(f, t, r) && GatheredFrom(m, t.children, t.pts)
    requires CoversBrood(m, t.parent, t.children) && CoversBrood(m', t.parent, t.children)
    requires Get(m', t.parent) == r.parentPts && ChildLists(m', t.children) == r.remaining
    ensures FamilySampled(f, m, m', t.parent)
  {
    BroodIs(m, t.parent, t.children);
    BroodIs(m', t.parent, t.children);
    var g := Total(Brood(m, t.parent));
    assert g == multiset(Untag(t.pts)) && |g| == |t.pts|;
    if |t.pts| <= MAX_LEAF_POINTS {
      AllGone(m', t, r);
    } else {
      NoneGone(f, m, m', t, r);
      LoneIs(m', t.parent, t.children);
    }
  }

  lemma AllGone(m': Nodes, t: SampleTask, r: SampleResult)
    requires AllEmpty(r.remaining) && ChildLists(m', t.children) == r.remaining && CoversBrood(m', t.parent, t.children)
    ensures SumAll(r.remaining) == multiset{} && NoneLeft(m', t.parent)
  {
    TagAllEmpty(r.remaining);
    forall c | Parent(c) == Some(t.parent) ensures !Populated(m', c) {
      if c in t.children {
        var ci :| 0 <= ci < |t.children| && t.children[ci] == c;
        assert ChildLists(m', t.children)[ci] == Get(m', c);
      }
    }
  }

  lemma NoneGone(f: Frame, m: Nodes, m': Nodes, t: SampleTask, r: SampleResult)
    requires Thinned(f, t, r) && |r.remaining| == |t.children| && ChildLists(m', t.children) == r.remaining
    requires GatheredFrom(m, t.children, t.pts) && CoversBrood(m, t.parent, t.children)
    ensures NoneEmptied(m, m', t.parent)
  {
    forall c | Parent(c) == Some(t.parent) && Populated(m, c) ensures Populated(m', c) {
      var ci: nat :| ci < |t.children| && t.children[ci] == c;
      ChildContributes(m, t, ci);
      assert ChildLists(m', t.children)[ci] == Get(m', c);
    }
  }

  lemma CellEach(f: Frame, v: VoxelKey, s: seq<RawPoint>)
    requires CellsApart(f, v, s)
    ensures |s| <= |Occupied(f, v, multiset(s))|
  {
    var cells := seq(|s|, i requires 0 <= i < |s| => GridIdx(f, v, s[i]));
    forall i | 0 <= i < |s| ensures cells[i] in Occupied(f, v, multiset(s)) {
      assert s[i] in multiset(s);
    }
    DistinctFit(cells, Occupied(f, v, multiset(s)));
  }

  /** The parent of a crowded family stands for all of it: unless a child was left with a single
      point, every point the children held has one at the parent within a cell edge on every axis. */
  lemma CrowdedIsCovered(f: Frame, p: VoxelKey, before: Nodes, up: seq<RawPoint>, after: Nodes)
    requires Redistributed(f, p, before, up, after) && |Total(Brood(before, p))| > MAX_LEAF_POINTS && Lone(after, p) == {}
    requires forall x :: x in Total(Brood(before, p)) ==> InVoxelBox(f, x, p)
    ensures forall x :: x in Total(Brood(before, p)) ==> HasNear(f, p, x, up)
  {
    var g := Total(Brood(before, p));
    CellEach(f, p, up);
    forall x | x in multiset(up) ensures x in g {
    }
    SameSizeSubset(Occupied(f, p, multiset(up)), Occupied(f, p, g));
    forall x | x in g ensures HasNear(f, p, x, up) {
      NearInCell(f, p, g, up, x);
    }
  }

  lemma NearInCell(f: Frame, p: VoxelKey, g: multiset<RawPoint>, up: seq<RawPoint>, x: RawPoint)
    requires x in g && Occupied(f, p, multiset(up)) == Occupied(f, p, g) && multiset(up) <= g
    requires forall q :: q in g ==> InVoxelBox(f, q, p)
    ensures HasNear(f, p, x, up)
  {
    assert GridIdx(f, p, x) in Occupied(f, p, g);
    var q :| q in multiset(up) && GridIdx(f, p, q) == GridIdx(f, p, x);
    var i :| 0 <= i < |up| && up[i] == q;
    SameCellIsNear(f, p, x, q);
  }
}
