/** `merge_chunk_tops` of src/octree.rs: merging subtree roots upwards on the node store. */
module Merge {
  import opened Arith
  import opened Voxel
  import opened Points
  import opened NodeMap
  import opened NodeStorage
  import opened Sampling
  import opened Levels
  import opened Families

  /** Two stores read alike except at the listed keys. */
  ghost predicate SameElsewhere(m: Nodes, m': Nodes, keys: set<VoxelKey>) {
    forall k :: k !in keys ==> Get(m', k) == Get(m, k)
  }

  /** Read every child and tag its points. */
  method GatherChildren(f: Frame, store: NodeStore, children: seq<VoxelKey>) returns (pts: seq<Tagged>)
    requires Placed(f, store.contents) && Distinct(children)
    ensures Gathered(f, children, pts) && GatheredFrom(store.contents, children, pts)
    ensures Total(store.contents) == Total(store.contents - Elems(children)) + multiset(Untag(pts))
  {
    pts := [];
    ghost var m := store.contents;
    ghost var rest := m;
    for ci := 0 to |children|
      invariant Taking(f, m, children, ci, pts, rest) && GatheredFrom(m, children[..ci], pts)
    {
      var points := store.Read(children[ci]);
      GatheredFromStep(m, children, ci, pts);
      DistinctNotBefore(children, ci);
      assert points == Get(rest, children[ci]);
      TakeStep(f, m, children, ci, pts, rest);
      pts := pts + TagSeq(ci, points);
      rest := rest - {children[ci]};
    }
    assert children[..|children|] == children;
  }

  /** The store after the first `ci` children were rewritten. */
  function Rewritten(m: Nodes, r: SampleResult, ci: nat): Nodes
    requires ci <= |r.children| == |r.remaining|
  {
    if ci == 0 then m else Rewritten(m, r, ci - 1)[r.children[ci - 1] := r.remaining[ci - 1]]
  }

  /** The store after all writes of a result. */
  function AfterWrites(m: Nodes, r: SampleResult): Nodes
    requires |r.children| == |r.remaining|
  {
    var w := Rewritten(m, r, |r.children|);
    if r.parentPts == [] then w else w[r.parent := r.parentPts]
  }

  lemma {:induction false} RewrittenReads(m: Nodes, r: SampleResult, ci: nat, k: VoxelKey)
    requires ci <= |r.children| == |r.remaining| && Distinct(r.children)
    ensures Get(Rewritten(m, r, ci), k) ==
            if k in Elems(r.children[..ci]) then Get(ChildOutputs(r, ci), k) else Get(m, k)
    ensures k !in Elems(r.children[..ci]) ==> k !in ChildOutputs(r, ci)
    decreases ci
  {
    if ci > 0 {
      RewrittenReads(m, r, ci - 1, k);
      ElemsTake(r.children, ci - 1);
      DistinctNotBefore(r.children, ci - 1);
    }
  }

  /** A result written back over its own children and an unpopulated parent keeps every point
      and changes nothing else. */
  lemma WriteBack(f: Frame, m: Nodes, r: SampleResult, m': Nodes)
    requires WellShaped(r) && ResultPlaced(f, r) && Placed(f, m) && !Populated(m, r.parent)
    requires Total(m) == Total(m - Elems(r.children)) + multiset(r.parentPts) + SumAll(r.remaining)
    requires m' == AfterWrites(m, r)
    ensures Total(m') == Total(m) && Placed(f, m')
    ensures SameElsewhere(m, m', Elems(r.children) + {r.parent})
  {
    var rest := m - Elems(r.children);
    OutputsEntries(f, r);
    OutputsTotal(f, r);
    forall k ensures Get(m', k) == Get(rest + Outputs(r), k) {
      WriteBackReads(f, m, r, m', k);
    }
    assert ReadsAlike(m', rest + Outputs(r));
    TotalByGet(m', rest + Outputs(r));
    assert forall k :: k in Outputs(r) ==> !Populated(rest, k);
    TotalUnion(rest, Outputs(r));
    WriteBackFrame(f, m, r, m');
  }

  lemma WriteBackReads(f: Frame, m: Nodes, r: SampleResult, m': Nodes, k: VoxelKey)
    requires WellShaped(r) && ResultPlaced(f, r) && !Populated(m, r.parent)
    requires |r.children| == |r.remaining| && m' == AfterWrites(m, r)
    ensures Get(m', k) == Get(m - Elems(r.children) + Outputs(r), k)
  {
    var n := |r.children|;
    assert r.children[..n] == r.children;
    assert r.parent !in Elems(r.children);
    RewrittenReads(m, r, n, k);
  }

  lemma WriteBackFrame(f: Frame, m: Nodes, r: SampleResult, m': Nodes)
    requires WellShaped(r) && ResultPlaced(f, r) && Placed(f, m)
    requires Entries(f, Outputs(r), Elems(r.children) + {r.parent})
    requires forall k :: Get(m', k) == Get(m - Elems(r.children) + Outputs(r), k)
    ensures Placed(f, m') && SameElsewhere(m, m', Elems(r.children) + {r.parent})
  {
    forall k, p | k in m' && p in m'[k] ensures KeyAt(f, p, k.level) == k {
      assert Get(m', k) == m'[k];
      if k in Outputs(r) {
        assert p in Outputs(r)[k];
      } else {
        assert p in Get(m, k);
      }
    }
  }

  /** Every part of a result may be written. */
  ghost predicate Storable(r: SampleResult, all: multiset<RawPoint>, cap: nat)
    requires |r.children| == |r.remaining|
  {
    multiset(r.parentPts) <= all && |r.parentPts| <= cap && r.parent.level <= MAX_LEVEL &&
    forall ci :: 0 <= ci < |r.children| ==>
      multiset(r.remaining[ci]) <= all && |r.remaining[ci]| <= cap && r.children[ci].level <= MAX_LEVEL
  }

  lemma {:induction false} PartOfAll(lists: seq<seq<RawPoint>>, i: nat)
    requires i < |lists|
    ensures multiset(lists[i]) <= SumAll(lists)
  {
    if i < |lists| - 1 {
      PartOfAll(lists[..|lists| - 1], i);
    }
  }

  /** Nodes that do not hold `p` can go without changing its count. */
  lemma {:induction false} CountSkips(m: Nodes, keys: set<VoxelKey>, p: RawPoint)
    requires forall k :: k in keys ==> p !in Get(m, k)
    ensures Total(m - keys)[p] == Total(m)[p]
    decreases |keys|
  {
    if keys == {} {
      assert m - keys == m;
    } else {
      var k :| k in keys;
      CountSkips(m, keys - {k}, p);
      TotalTake(m - (keys - {k}), k);
      assert m - (keys - {k}) - {k} == m - keys;
      assert p !in multiset(Get(m, k));
    }
  }

  /** Of the gathered points those of one child's voxel are what that child held. */
  lemma GatheredFromChild(f: Frame, m: Nodes, children: seq<VoxelKey>, child: VoxelKey, pts: multiset<RawPoint>, p: RawPoint)
    requires Placed(f, m) && child in children && (forall c :: c in children ==> c.level == child.level)
    requires Total(m) == Total(m - Elems(children)) + pts && KeyAt(f, p, child.level) == child
    ensures pts[p] == multiset(Get(m, child))[p]
  {
    TotalTake(m, child);
    var others := Elems(children) - {child};
    forall k | k in others ensures p !in Get(m - {child}, k) {
      assert KeyAt(f, p, k.level) != k;
    }
    CountSkips(m - {child}, others, p);
    assert (m - {child}) - others == m - Elems(children);
    assert Total(m)[p] == Total(m - Elems(children))[p] + pts[p];
    assert Total(m)[p] == multiset(Get(m, child))[p] + Total(m - {child})[p];
  }

  /** A child is left with no more than it held. */
  lemma ChildShrinks(f: Frame, m: Nodes, t: SampleTask, r: SampleResult, ci: nat)
    requires Placed(f, m) && TaskOk(f, t) && SampledFrom(f, t, r) && ci < |r.children|
    requires Total(m) == Total(m - Elems(t.children)) + multiset(Untag(t.pts))
    ensures multiset(r.remaining[ci]) <= multiset(Get(m, r.children[ci])) && |r.remaining[ci]| <= |Get(m, r.children[ci])|
  {
    var child, pts := r.children[ci], multiset(Untag(t.pts));
    PartOfAll(r.remaining, ci);
    forall p ensures multiset(r.remaining[ci])[p] <= multiset(Get(m, child))[p] {
      if p in r.remaining[ci] {
        GatheredFromChild(f, m, t.children, child, pts, p);
      }
    }
    SubsetSize(multiset(r.remaining[ci]), multiset(Get(m, child)));
  }

  /** A sampled parent holds one leaf's worth or one point per cell. */
  lemma ParentIsSmall(f: Frame, t: SampleTask, r: SampleResult)
    requires SampledFrom(f, t, r)
    ensures |r.parentPts| <= GRID_CELLS
  {
    if |t.pts| <= MAX_LEAF_POINTS {
      SubsetSize(multiset(r.parentPts), multiset(Untag(t.pts)));
    } else {
      ApartIsFew(f, t.parent, r.parentPts);
    }
  }

  /** A task that gathered anything has its children at a level that fits. */
  lemma TaskLevel(f: Frame, cap: nat, m: Nodes, t: SampleTask)
    requires TaskOk(f, t) && Bounded(m, cap) && t.pts != []
    requires Total(m) == Total(m - Elems(t.children)) + multiset(Untag(t.pts))
    ensures t.parent.level < MAX_LEVEL && forall c :: c in t.children ==> c.level <= MAX_LEVEL
  {
    var p := Untag(t.pts)[0];
    assert p in multiset(Untag(t.pts));
    if forall c :: c in t.children ==> !Populated(m, c) {
      CountSkips(m, Elems(t.children), p);
    } else {
      var c :| c in t.children && Populated(m, c);
      assert c in m;
    }
  }

  lemma ResultStorable(f: Frame, all: multiset<RawPoint>, cap: nat, m: Nodes, t: SampleTask, r: SampleResult)
    requires Placed(f, m) && TaskOk(f, t) && SampledFrom(f, t, r) && Total(m) <= all && Bounded(m, cap) && GRID_CELLS <= cap
    requires Total(m) == Total(m - Elems(t.children)) + multiset(Untag(t.pts)) && t.pts != []
    ensures Storable(r, all, cap)
  {
    ParentIsSmall(f, t, r);
    TaskLevel(f, cap, m, t);
    forall ci | 0 <= ci < |r.children|
      ensures multiset(r.remaining[ci]) <= all && |r.remaining[ci]| <= cap && r.children[ci].level <= MAX_LEVEL
    {
      ChildShrinks(f, m, t, r, ci);
      TotalContains(m, r.children[ci]);
      assert r.children[ci] in t.children;
    }
  }

  lemma WritesBounded(m: Nodes, r: SampleResult, ci: nat, all: multiset<RawPoint>, cap: nat)
    requires |r.children| == |r.remaining| && ci <= |r.children| && Storable(r, all, cap) && Bounded(m, cap)
    ensures Bounded(Rewritten(m, r, ci), cap)
    decreases ci
  {
    if ci > 0 {
      WritesBounded(m, r, ci - 1, all, cap);
    }
  }

  lemma WrittenBounded(m: Nodes, r: SampleResult, all: multiset<RawPoint>, cap: nat)
    requires |r.children| == |r.remaining| && Storable(r, all, cap) && Bounded(m, cap)
    ensures Bounded(AfterWrites(m, r), cap)
  {
    WritesBounded(m, r, |r.children|, all, cap);
  }

  /** The writes of one merge task. */
  method WriteResult(store: NodeStore, r: SampleResult, ghost all: multiset<RawPoint>, ghost cap: nat)
    requires |r.children| == |r.remaining| && Storable(r, all, cap)
    modifies store
    ensures store.contents == AfterWrites(old(store.contents), r)
  {
    for ci := 0 to |r.children|
      invariant store.contents == Rewritten(old(store.contents), r, ci)
    {
      store.Write(r.children[ci], r.remaining[ci], all, cap);
    }
    if r.parentPts != [] {
      store.Write(r.parent, r.parentPts, all, cap);
    }
  }

  /** What merging one family does to the store. */
  ghost predicate Merged(f: Frame, all: multiset<RawPoint>, parent: VoxelKey, children: seq<VoxelKey>, m: Nodes, m': Nodes) {
    Total(m') == Total(m) && Placed(f, m') && FamilySampled(f, m, m', parent) &&
    SameElsewhere(m, m', Elems(children) + {parent}) &&
    (FitsLeaf(f, all, parent) ==> forall c :: c in children ==> !Populated(m', c))
  }

  /** Merge one parent: read the children, sample, rewrite the children, write the parent. */
  method MergeParent(f: Frame, store: NodeStore, parent: VoxelKey, children: seq<VoxelKey>,
                     ghost all: multiset<RawPoint>, ghost cap: nat)
    requires Family(parent, children) && Placed(f, store.contents) && Bounded(store.contents, cap) && GRID_CELLS <= cap
    requires !Populated(store.contents, parent) && Total(store.contents) <= all
    requires CoversBrood(store.contents, parent, children)
    modifies store
    ensures Bounded(store.contents, cap)
    ensures Merged(f, all, parent, children, old(store.contents), store.contents)
  {
    ghost var m := store.contents;
    var pts := GatherChildren(f, store, children);
    var task := SampleTask(parent, children, pts);
    if pts == [] {
      NothingGathered(m, children, pts);
      EmptyFamily(f, m, parent, children);
      return;
    }
    var r := SampleOne(f, task);
    ResultStorable(f, all, cap, m, task, r);
    WriteResult(store, r, all, cap);
    WrittenBounded(m, r, all, cap);
    ParentMerged(f, all, m, task, r, store.contents);
  }

  lemma NothingGathered(m: Nodes, children: seq<VoxelKey>, pts: seq<Tagged>)
    requires Total(m) == Total(m - Elems(children)) + multiset(Untag(pts)) && pts == []
    ensures forall c :: c in children ==> !Populated(m, c)
  {
    assert Untag(pts) == [];
    forall c | c in children ensures !Populated(m, c) {
      TotalOfTwo(m, Elems(children), c);
    }
  }

  /** A family without points is sampled as it is. */
  lemma EmptyFamily(f: Frame, m: Nodes, p: VoxelKey, children: seq<VoxelKey>)
    requires Family(p, children) && CoversBrood(m, p, children) && !Populated(m, p)
    requires forall c :: c in children ==> !Populated(m, c)
    ensures FamilySampled(f, m, m, p)
  {
    BroodIs(m, p, children);
    forall i | 0 <= i < |children| ensures ChildLists(m, children)[i] == [] {
      assert children[i] in children;
    }
    TagAllEmpty(ChildLists(m, children));
  }

  /** Removing keys loses at least the points of each removed key. */
  lemma {:induction false} TotalOfTwo(m: Nodes, keys: set<VoxelKey>, c: VoxelKey)
    requires c in keys && Total(m - keys) == Total(m)
    ensures !Populated(m, c)
  {
    TotalTake(m, c);
    TotalWithin(m - {c}, keys);
    assert (m - {c}) - keys == m - keys;
    SubsetSize(Total(m), Total(m - {c}));
    assert |Total(m)| == |Total(m - {c})| + |multiset(Get(m, c))|;
  }

  lemma SubsetSize<T>(a: multiset<T>, b: multiset<T>)
    requires a <= b
    ensures |a| <= |b|
  {
    assert b == a + (b - a);
  }

  lemma {:induction false} TotalWithin(m: Nodes, keys: set<VoxelKey>)
    ensures Total(m - keys) <= Total(m)
    decreases |keys|
  {
    if keys == {} {
      assert m - keys == m;
    } else {
      var k :| k in keys;
      TotalWithin(m, keys - {k});
      TotalTake(m - (keys - {k}), k);
      assert m - (keys - {k}) - {k} == m - keys;
    }
  }

  lemma MergedBySampling(f: Frame, all: multiset<RawPoint>, m: Nodes, task: SampleTask, r: SampleResult, m': Nodes)
    requires TaskOk(f, task) && SampledFrom(f, task, r) && Total(m) <= all
    requires Total(m) == Total(m - Elems(task.children)) + multiset(Untag(task.pts))
    requires |r.children| == |r.remaining| && m' == AfterWrites(m, r)
    requires Total(m') == Total(m) && Placed(f, m') && SameElsewhere(m, m', Elems(r.children) + {r.parent})
    requires FamilySampled(f, m, m', task.parent)
    ensures Merged(f, all, task.parent, task.children, m, m')
  {
    if FitsLeaf(f, all, task.parent) {
      FittingTaskIsSmall(f, all, m, task);
      EmptiedChildren(m, r, m');
    }
  }

  lemma ParentMerged(f: Frame, all: multiset<RawPoint>, m: Nodes, task: SampleTask, r: SampleResult, m': Nodes)
    requires TaskOk(f, task) && SampledFrom(f, task, r) && Placed(f, m) && Total(m) <= all && !Populated(m, task.parent)
    requires Total(m) == Total(m - Elems(task.children)) + multiset(Untag(task.pts))
    requires GatheredFrom(m, task.children, task.pts) && CoversBrood(m, task.parent, task.children)
    requires m' == AfterWrites(m, r)
    ensures Merged(f, all, task.parent, task.children, m, m')
  {
    WriteBack(f, m, r, m');
    WrittenReads(f, m, r, m');
    StillCovers(m, m', task.parent, task.children);
    FamilyBySampling(f, m, m', task, r);
    MergedBySampling(f, all, m, task, r, m');
  }

  /** A result read back. */
  lemma WrittenReads(f: Frame, m: Nodes, r: SampleResult, m': Nodes)
    requires WellShaped(r) && !Populated(m, r.parent) && m' == AfterWrites(m, r)
    ensures Get(m', r.parent) == r.parentPts && ChildLists(m', r.children) == r.remaining
  {
    var n := |r.children|;
    assert r.children[..n] == r.children && r.parent !in r.children;
    RewrittenReads(m, r, n, r.parent);
    forall ci | 0 <= ci < n ensures Get(m', r.children[ci]) == r.remaining[ci] {
      RewrittenReads(m, r, n, r.children[ci]);
      OutputsReads(r);
      assert r.children[ci] in r.children;
    }
  }

  lemma StillCovers(m: Nodes, m': Nodes, p: VoxelKey, children: seq<VoxelKey>)
    requires CoversBrood(m, p, children) && SameElsewhere(m, m', Elems(children) + {p})
    ensures CoversBrood(m', p, children)
  {
    forall c | Parent(c) == Some(p) && Populated(m', c) ensures c in children {
      assert c in children || c !in Elems(children) + {p};
    }
  }

  lemma FittingTaskIsSmall(f: Frame, all: multiset<RawPoint>, m: Nodes, task: SampleTask)
    requires TaskOk(f, task) && Total(m) <= all && FitsLeaf(f, all, task.parent)
    requires Total(m) == Total(m - Elems(task.children)) + multiset(Untag(task.pts))
    ensures |task.pts| <= MAX_LEAF_POINTS
  {
    var s := multiset(Untag(task.pts));
    GatheredInParent(f, task);
    assert InVoxel(f, s, task.parent);
    assert s <= Total(m);
    assert |s| == |task.pts|;
  }

  lemma EmptiedChildren(m: Nodes, r: SampleResult, m': Nodes)
    requires WellShaped(r) && AllEmpty(r.remaining)
    requires |r.children| == |r.remaining| && m' == AfterWrites(m, r)
    ensures forall c :: c in r.children ==> !Populated(m', c)
  {
    var n := |r.children|;
    assert r.children[..n] == r.children;
    EmptyRemaindersNoChildren(r, n);
    forall c | c in r.children ensures !Populated(m', c) {
      RewrittenReads(m, r, n, c);
      assert c != r.parent;
    }
  }

  function SumCounts(m: Nodes, keys: seq<VoxelKey>): nat {
    if keys == [] then 0
    else SumCounts(m, keys[..|keys| - 1]) + |Get(m, keys[|keys| - 1])|
  }

  /** The in-memory limit of one merge parent: too large a gathering aborts the merge. */
  method CheckSizes(store: NodeStore, groups: Groups, memPerPoint: nat, oomThreshold: nat) returns (ok: bool)
    ensures ok <==> forall p :: p in groups ==> SumCounts(store.contents, groups[p]) * memPerPoint <= oomThreshold
  {
    var todo := groups.Keys;
    while todo != {}
      invariant todo <= groups.Keys
      invariant forall p :: p in groups && p !in todo ==>
                  SumCounts(store.contents, groups[p]) * memPerPoint <= oomThreshold
      decreases todo
    {
      var p :| p in todo;
      var estPoints := EstimatePoints(store, groups[p]);
      if estPoints * memPerPoint > oomThreshold {
        return false;
      }
      todo := todo - {p};
    }
    ok := true;
  }

  method EstimatePoints(store: NodeStore, keys: seq<VoxelKey>) returns (n: nat)
    ensures n == SumCounts(store.contents, keys)
  {
    n := 0;
    for i := 0 to |keys|
      invariant n == SumCounts(store.contents, keys[..i])
    {
      var c := store.Count(keys[i]);
      assert keys[..i + 1][..i] == keys[..i];
      n := n + c;
    }
    assert keys[..|keys|] == keys;
  }

  /** All points together fit the limit of one merge parent. */
  ghost predicate Roomy(all: multiset<RawPoint>, memPerPoint: nat, oomThreshold: nat) {
    |all| * memPerPoint <= oomThreshold
  }

  lemma {:induction false} SumCountsWithout(m: Nodes, keys: seq<VoxelKey>, k: VoxelKey)
    requires k !in keys
    ensures SumCounts(m - {k}, keys) == SumCounts(m, keys)
  {
    if keys != [] {
      SumCountsWithout(m, keys[..|keys| - 1], k);
    }
  }

  /** Distinct nodes hold no more points than are stored. */
  lemma {:induction false} SumCountsBound(m: Nodes, keys: seq<VoxelKey>)
    requires Distinct(keys)
    ensures SumCounts(m, keys) <= |Total(m)|
  {
    if keys != [] {
      var n := |keys| - 1;
      SumCountsWithout(m, keys[..n], keys[n]);
      SumCountsBound(m - {keys[n]}, keys[..n]);
      TotalTake(m, keys[n]);
    }
  }

  /** With room for all points no gathering exceeds the limit. */
  lemma RoomyGroups(m: Nodes, groups: Groups, all: multiset<RawPoint>, memPerPoint: nat, oomThreshold: nat)
    requires Total(m) <= all && Roomy(all, memPerPoint, oomThreshold) && forall p :: p in groups ==> Distinct(groups[p])
    ensures forall p :: p in groups ==> SumCounts(m, groups[p]) * memPerPoint <= oomThreshold
  {
    SubsetSize(Total(m), all);
    forall p | p in groups ensures SumCounts(m, groups[p]) * memPerPoint <= oomThreshold {
      SumCountsBound(m, groups[p]);
      MulLe(SumCounts(m, groups[p]), |all|, memPerPoint);
    }
  }

  /** Keys a level's merge may write. */
  ghost function Touched(groups: Groups, parents: set<VoxelKey>): set<VoxelKey> {
    ChildrenOf(groups, parents) + parents
  }

  /** Progress of one level's merge: the families of `done` have been merged. */
  ghost predicate LevelMerged(f: Frame, all: multiset<RawPoint>, groups: Groups, done: set<VoxelKey>, m: Nodes, m': Nodes) {
    Total(m') == Total(m) && Placed(f, m') && SameElsewhere(m, m', Touched(groups, done)) &&
    LevelSampled(f, groups, done, m, m') && FittingEmptied(f, all, groups, done, m')
  }

  /** Every family of `done` has been sampled. */
  ghost predicate LevelSampled(f: Frame, groups: Groups, done: set<VoxelKey>, m: Nodes, m': Nodes) {
    forall p :: p in done && p in groups ==> FamilySampled(f, m, m', p)
  }

  /** No child is left below a voxel that fits one leaf. */
  ghost predicate FittingEmptied(f: Frame, all: multiset<RawPoint>, groups: Groups, done: set<VoxelKey>, m': Nodes) {
    forall p, c :: p in done && p in groups && c in groups[p] && FitsLeaf(f, all, p) ==> !Populated(m', c)
  }

  /** Families of one level: parents at `d`, children at `d + 1`. */
  ghost predicate FamiliesAt(groups: Groups, d: nat) {
    forall p :: p in groups ==> p.level == d && Family(p, groups[p])
  }

  lemma LevelMergedStep(f: Frame, all: multiset<RawPoint>, groups: Groups, d: nat, done: set<VoxelKey>,
                        m: Nodes, m1: Nodes, p: VoxelKey, m2: Nodes)
    requires FamiliesAt(groups, d) && done <= groups.Keys && p in groups && p !in done
    requires LevelMerged(f, all, groups, done, m, m1) && Merged(f, all, p, groups[p], m1, m2)
    ensures LevelMerged(f, all, groups, done + {p}, m, m2)
  {
    LevelMergedFrame(groups, done, m, m1, p, m2);
    LevelSampledStep(f, groups, d, done, m, m1, p, m2);
    FittingEmptiedStep(f, all, groups, d, done, m, m1, p, m2);
  }

  lemma LevelSampledStep(f: Frame, groups: Groups, d: nat, done: set<VoxelKey>, m: Nodes, m1: Nodes, p: VoxelKey, m2: Nodes)
    requires FamiliesAt(groups, d) && done <= groups.Keys && p in groups && p !in done
    requires SameElsewhere(m, m1, Touched(groups, done)) && SameElsewhere(m1, m2, Elems(groups[p]) + {p})
    requires LevelSampled(f, groups, done, m, m1) && FamilySampled(f, m1, m2, p)
    ensures LevelSampled(f, groups, done + {p}, m, m2)
  {
    forall q | q in done + {p} && q in groups ensures FamilySampled(f, m, m2, q) {
      if q == p {
        LevelMergedOwn(f, groups, d, done, m, m1, p, m2);
      } else {
        LevelMergedSampled(f, groups, d, done, m, m1, p, m2, q);
      }
    }
  }

  lemma FittingEmptiedStep(f: Frame, all: multiset<RawPoint>, groups: Groups, d: nat, done: set<VoxelKey>,
                           m: Nodes, m1: Nodes, p: VoxelKey, m2: Nodes)
    requires FamiliesAt(groups, d) && p in groups
    requires LevelMerged(f, all, groups, done, m, m1) && Merged(f, all, p, groups[p], m1, m2)
    ensures FittingEmptied(f, all, groups, done + {p}, m2)
  {
    forall q, c | q in done + {p} && q in groups && c in groups[q] && FitsLeaf(f, all, q)
      ensures !Populated(m2, c)
    {
      if q == p {
        assert !Populated(m2, c);
      } else {
        LevelMergedOther(f, all, groups, d, done, m, m1, p, m2, q, c);
      }
    }
  }

  /** A family not yet merged still reads as before the level. */
  lemma ChildrenUntouched(groups: Groups, d: nat, done: set<VoxelKey>, m: Nodes, m1: Nodes, p: VoxelKey)
    requires FamiliesAt(groups, d) && done <= groups.Keys && p in groups && p !in done
    requires SameElsewhere(m, m1, Touched(groups, done))
    ensures ChildrenAlike(m, m1, p)
  {
    forall c | Parent(c) == Some(p) ensures Get(m, c) == Get(m1, c) {
      forall q | q in done && q in groups ensures c !in groups[q] {
        assert q != p;
      }
      assert c !in Touched(groups, done);
    }
  }

  lemma LevelMergedOwn(f: Frame, groups: Groups, d: nat, done: set<VoxelKey>, m: Nodes, m1: Nodes, p: VoxelKey, m2: Nodes)
    requires FamiliesAt(groups, d) && done <= groups.Keys && p in groups && p !in done
    requires SameElsewhere(m, m1, Touched(groups, done)) && FamilySampled(f, m1, m2, p)
    ensures FamilySampled(f, m, m2, p)
  {
    ChildrenUntouched(groups, d, done, m, m1, p);
    RedistributedAlike(f, p, m1, m, Get(m2, p), m2, m2);
  }

  lemma LevelMergedSampled(f: Frame, groups: Groups, d: nat, done: set<VoxelKey>, m: Nodes, m1: Nodes, p: VoxelKey, m2: Nodes, q: VoxelKey)
    requires FamiliesAt(groups, d) && p in groups && q in groups && q != p
    requires SameElsewhere(m1, m2, Elems(groups[p]) + {p}) && FamilySampled(f, m, m1, q)
    ensures FamilySampled(f, m, m2, q)
  {
    forall c | Parent(c) == Some(q) ensures Get(m1, c) == Get(m2, c) {
      OtherFamily(groups, d, p, q, c);
    }
    assert q !in Elems(groups[p]) + {p};
    RedistributedAlike(f, q, m, m, Get(m1, q), m1, m2);
  }

  lemma LevelMergedFrame(groups: Groups, done: set<VoxelKey>, m: Nodes, m1: Nodes, p: VoxelKey, m2: Nodes)
    requires p in groups && SameElsewhere(m, m1, Touched(groups, done))
    requires SameElsewhere(m1, m2, Elems(groups[p]) + {p})
    ensures SameElsewhere(m, m2, Touched(groups, done + {p}))
  {
    ChildrenOfAdd(groups, done, p);
    forall k | k !in Touched(groups, done + {p}) ensures Get(m2, k) == Get(m, k) {
      assert k !in Elems(groups[p]) + {p};
      assert k !in Touched(groups, done);
    }
  }

  lemma LevelMergedOther(f: Frame, all: multiset<RawPoint>, groups: Groups, d: nat, done: set<VoxelKey>,
                         m: Nodes, m1: Nodes, p: VoxelKey, m2: Nodes, q: VoxelKey, c: VoxelKey)
    requires FamiliesAt(groups, d) && p in groups && q in groups && q != p && q in done && c in groups[q]
    requires LevelMerged(f, all, groups, done, m, m1) && Merged(f, all, p, groups[p], m1, m2)
    requires FitsLeaf(f, all, q)
    ensures !Populated(m2, c)
  {
    assert Parent(c) == Some(q);
    OtherFamily(groups, d, p, q, c);
    assert !Populated(m1, c);
    assert Get(m2, c) == Get(m1, c);
  }

  /** A child of one family is neither the parent nor a child of another family at its level. */
  lemma OtherFamily(groups: Groups, d: nat, p: VoxelKey, q: VoxelKey, c: VoxelKey)
    requires FamiliesAt(groups, d) && p in groups && q in groups && p != q && Parent(c) == Some(q)
    ensures c !in Elems(groups[p]) + {p}
  {
  }

  lemma ParentUntouched(groups: Groups, d: nat, done: set<VoxelKey>, p: VoxelKey)
    requires FamiliesAt(groups, d) && p in groups && p !in done
    ensures p !in Touched(groups, done)
  {
  }

  lemma StillCoveredBy(groups: Groups, d: nat, done: set<VoxelKey>, m: Nodes, m1: Nodes, p: VoxelKey)
    requires FamiliesAt(groups, d) && done <= groups.Keys && p in groups && p !in done
    requires SameElsewhere(m, m1, Touched(groups, done)) && CoversBrood(m, p, groups[p])
    ensures CoversBrood(m1, p, groups[p])
  {
    ChildrenUntouched(groups, d, done, m, m1, p);
    forall c | Parent(c) == Some(p) && Populated(m1, c) ensures c in groups[p] {
      assert Get(m, c) == Get(m1, c);
    }
  }

  /** Merge every family of one level, in any order. */
  method MergeLevel(f: Frame, store: NodeStore, groups: Groups, ghost d: nat, ghost all: multiset<RawPoint>, ghost cap: nat)
    requires FamiliesAt(groups, d) && Placed(f, store.contents) && Total(store.contents) <= all
    requires Bounded(store.contents, cap) && GRID_CELLS <= cap
    requires forall p :: p in groups ==> !Populated(store.contents, p) && CoversBrood(store.contents, p, groups[p])
    modifies store
    ensures LevelMerged(f, all, groups, groups.Keys, old(store.contents), store.contents) && Bounded(store.contents, cap)
  {
    var todo := groups.Keys;
    ghost var m := store.contents;
    LevelMergedStart(f, all, groups, m);
    while todo != {}
      invariant todo <= groups.Keys
      invariant LevelMerged(f, all, groups, groups.Keys - todo, m, store.contents) && Bounded(store.contents, cap)
      decreases todo
    {
      var parent :| parent in todo;
      OneMoreDone(groups.Keys, todo, parent);
      MergeNext(f, store, groups, groups.Keys - todo, parent, d, m, all, cap);
      todo := todo - {parent};
    }
    assert groups.Keys - todo == groups.Keys;
  }

  lemma LevelMergedStart(f: Frame, all: multiset<RawPoint>, groups: Groups, m: Nodes)
    requires Placed(f, m)
    ensures LevelMerged(f, all, groups, groups.Keys - groups.Keys, m, m)
  {
    assert groups.Keys - groups.Keys == {};
  }

  lemma OneMoreDone(keys: set<VoxelKey>, todo: set<VoxelKey>, k: VoxelKey)
    requires todo <= keys && k in todo
    ensures keys - (todo - {k}) == (keys - todo) + {k} && k in keys && k !in keys - todo
  {
  }

  /** One more family of the level. */
  method MergeNext(f: Frame, store: NodeStore, groups: Groups, ghost done: set<VoxelKey>, parent: VoxelKey, ghost d: nat,
                   ghost m: Nodes, ghost all: multiset<RawPoint>, ghost cap: nat)
    requires FamiliesAt(groups, d) && done <= groups.Keys && parent in groups && parent !in done
    requires Total(m) <= all && !Populated(m, parent) && CoversBrood(m, parent, groups[parent])
    requires LevelMerged(f, all, groups, done, m, store.contents) && Bounded(store.contents, cap) && GRID_CELLS <= cap
    modifies store
    ensures LevelMerged(f, all, groups, done + {parent}, m, store.contents) && Bounded(store.contents, cap)
  {
    ghost var m1 := store.contents;
    ParentUntouched(groups, d, done, parent);
    StillCoveredBy(groups, d, done, m, m1, parent);
    MergeParent(f, store, parent, groups[parent], all, cap);
    LevelMergedStep(f, all, groups, d, done, m, m1, parent, store.contents);
  }
}
