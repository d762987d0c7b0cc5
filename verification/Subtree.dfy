/** Building one subtree in memory (`bottom_up_levels`, `finish_subtree` and its callers in
    src/octree.rs): adaptive leaf subdivision, then level-by-level sampling up to the root. */
module Subtree {
  import opened Voxel
  import opened Points
  import opened NodeMap
  import opened NodeStorage
  import opened Sampling
  import opened Levels
  import opened Families
  import opened Growth

  /** No node is a strict ancestor of a node at level `d` or above: the nodes still to be
      sampled are an antichain, and no insertion at a coarser level can hit a populated key. */
  ghost predicate LiveAbove(m: Nodes, d: nat) {
    forall a, b :: a in m && b in m && b.level <= d ==> !StrictlyUnder(b, a)
  }

  /** The effect of sampling the nodes at level `d + 1` into their parents at level `d`. */
  ghost predicate Stepped(f: Frame, all: multiset<RawPoint>, d: nat, m: Nodes, m': Nodes) {
    Sound(f, m') && Total(m') == Total(m) &&
    (forall k :: k in m && k.level != d + 1 ==> k in m' && m'[k] == m[k]) &&
    (forall k :: k in m' && k !in m ==> k.level == d && HasChildIn(m, k)) &&
    (forall k :: k in m' && k.level == d + 1 ==> !FitsLeaf(f, all, Parent(k).value))
  }

  lemma {:induction false} SameTotals(f: Frame, tasks: seq<SampleTask>, results: seq<SampleResult>)
    requires |results| == |tasks|
    requires forall i :: 0 <= i < |tasks| ==> SampledFrom(f, tasks[i], results[i])
    ensures ResultsTotal(results) == TasksTotal(tasks)
  {
    if tasks != [] {
      var n := |tasks| - 1;
      SameTotals(f, tasks[..n], results[..n]);
    }
  }

  /** What sampling one level produced, before it is put back. */
  ghost predicate Sampled(f: Frame, nodes: Nodes, d: nat, groups: Groups, tasks: seq<SampleTask>,
                          rest: Nodes, results: seq<SampleResult>) {
    Grouping(groups, KeysAt(nodes, d + 1)) &&
    Taken(f, nodes, groups, groups.Keys, tasks, rest) && rest == nodes - KeysAt(nodes, d + 1) &&
    |results| == |tasks| &&
    forall i :: 0 <= i < |tasks| ==> SampledFrom(f, tasks[i], results[i])
  }

  function KeysAt(nodes: Nodes, level: nat): set<VoxelKey> {
    set k | k in nodes && k.level == level
  }

  lemma GroupFacts(nodes: Nodes, d: nat, groups: Groups, p: VoxelKey)
    requires Grouping(groups, KeysAt(nodes, d + 1)) && p in groups
    ensures p.level == d && HasChildIn(nodes, p)
    ensures forall c :: c in groups[p] ==> c in nodes && c.level == d + 1
  {
    forall c | c in groups[p] ensures c in nodes && c.level == d + 1 {
      assert c in KeysAt(nodes, d + 1);
    }
    var c := groups[p][0];
    assert Parent(c) == Some(p);
  }

  lemma ResultFamily(f: Frame, nodes: Nodes, d: nat, groups: Groups, tasks: seq<SampleTask>,
                     rest: Nodes, results: seq<SampleResult>, i: nat)
    requires Sampled(f, nodes, d, groups, tasks, rest, results) && i < |results|
    ensures WellShaped(results[i]) && ResultPlaced(f, results[i]) && results[i].parent.level == d
    ensures forall c :: c in results[i].children ==> c in nodes && c.level == d + 1
    ensures HasChildIn(nodes, results[i].parent)
  {
    assert SampledFrom(f, tasks[i], results[i]);
    assert TaskOk(f, tasks[i]);
    GroupFacts(nodes, d, groups, tasks[i].parent);
  }

  lemma SampledOneLevel(f: Frame, nodes: Nodes, d: nat, groups: Groups, tasks: seq<SampleTask>,
                        rest: Nodes, results: seq<SampleResult>)
    requires Sampled(f, nodes, d, groups, tasks, rest, results)
    ensures OneLevel(f, results, d)
  {
    forall i | 0 <= i < |results|
      ensures WellShaped(results[i]) && ResultPlaced(f, results[i]) && results[i].parent.level == d
    {
      ResultFamily(f, nodes, d, groups, tasks, rest, results, i);
    }
    forall i, j | 0 <= i < j < |results| ensures results[i].parent != results[j].parent {
      assert SampledFrom(f, tasks[i], results[i]) && SampledFrom(f, tasks[j], results[j]);
    }
  }

  /** A key put back is a child that was taken out, or a parent that was not stored. */
  lemma OutputKeyIsFree(f: Frame, nodes: Nodes, d: nat, groups: Groups, tasks: seq<SampleTask>,
                        rest: Nodes, results: seq<SampleResult>, k: VoxelKey)
    requires Sampled(f, nodes, d, groups, tasks, rest, results)
    requires LiveAbove(nodes, d + 1) && k in OutputKeys(results)
    ensures k !in rest
    ensures (k in nodes && k.level == d + 1) || (k !in nodes && k.level == d && HasChildIn(nodes, k))
  {
    var i := OutputKeysSource(results, k);
    ResultFamily(f, nodes, d, groups, tasks, rest, results, i);
    if k == results[i].parent {
      var c :| c in nodes && Parent(c) == Some(k);
      assert StrictlyUnder(c, k);
    }
  }

  lemma PutBackTotal(f: Frame, nodes: Nodes, d: nat, groups: Groups, tasks: seq<SampleTask>,
                     rest: Nodes, results: seq<SampleResult>)
    requires Sampled(f, nodes, d, groups, tasks, rest, results) && LiveAbove(nodes, d + 1)
    requires OneLevel(f, results, d)
    ensures Total(rest + AllOutputs(results)) == Total(nodes)
  {
    AllOutputsTotal(f, results, d);
    AllOutputsEntries(f, results, d);
    SameTotals(f, tasks, results);
    forall k | k in AllOutputs(results) ensures !Populated(rest, k) {
      OutputKeyIsFree(f, nodes, d, groups, tasks, rest, results, k);
    }
    TotalUnion(rest, AllOutputs(results));
  }

  /** A child that gets points back belonged to a gathering larger than one leaf. */
  lemma SurvivorIsCrowded(f: Frame, all: multiset<RawPoint>, nodes: Nodes, d: nat, groups: Groups,
                          tasks: seq<SampleTask>, rest: Nodes, results: seq<SampleResult>, i: nat)
    requires Sampled(f, nodes, d, groups, tasks, rest, results) && i < |results|
    requires Total(nodes) <= all && !AllEmpty(results[i].remaining)
    ensures !FitsLeaf(f, all, results[i].parent)
  {
    assert SampledFrom(f, tasks[i], results[i]);
    var s := multiset(Untag(tasks[i].pts));
    TasksTotalContains(tasks, i);
    assert s <= TasksTotal(tasks) <= Total(nodes);
    GatheredInParent(f, tasks[i]);
    assert InVoxel(f, s, tasks[i].parent);
    assert |s| == |tasks[i].pts|;
  }

  lemma PutBackFrame(f: Frame, all: multiset<RawPoint>, nodes: Nodes, d: nat, groups: Groups,
                     tasks: seq<SampleTask>, rest: Nodes, results: seq<SampleResult>)
    requires Sampled(f, nodes, d, groups, tasks, rest, results) && LiveAbove(nodes, d + 1)
    requires OneLevel(f, results, d) && Sound(f, nodes)
    ensures var nodes' := rest + AllOutputs(results);
            Sound(f, nodes') &&
            (forall k :: k in nodes && k.level != d + 1 ==> k in nodes' && nodes'[k] == nodes[k]) &&
            (forall k :: k in nodes' && k !in nodes ==> k.level == d && HasChildIn(nodes, k))
  {
    var out := AllOutputs(results);
    AllOutputsEntries(f, results, d);
    forall k | k in out
      ensures k !in rest && (k in nodes || (k.level == d && HasChildIn(nodes, k)))
    {
      OutputKeyIsFree(f, nodes, d, groups, tasks, rest, results, k);
    }
    forall k | k in nodes && k.level != d + 1 ensures k in rest && rest[k] == nodes[k] {
      assert k !in KeysAt(nodes, d + 1);
    }
  }

  /** Children at level `d + 1` after the step come from results with a non-empty remainder. */
  lemma SurvivorSource(f: Frame, nodes: Nodes, d: nat, groups: Groups, tasks: seq<SampleTask>,
                       rest: Nodes, results: seq<SampleResult>, k: VoxelKey) returns (i: nat)
    requires Sampled(f, nodes, d, groups, tasks, rest, results) && OneLevel(f, results, d)
    requires k in rest + AllOutputs(results) && k.level == d + 1
    ensures i < |results| && results[i].parent == Parent(k).value && !AllEmpty(results[i].remaining)
  {
    assert k in nodes <==> k in KeysAt(nodes, d + 1);
    i := ChildSource(f, results, d, k);
  }

  lemma {:induction false} ChildSource(f: Frame, results: seq<SampleResult>, d: nat, k: VoxelKey) returns (i: nat)
    requires OneLevel(f, results, d) && k in AllOutputs(results) && k.level == d + 1
    ensures i < |results| && Parent(k) == Some(results[i].parent) && !AllEmpty(results[i].remaining)
  {
    i := |results| - 1;
    if k in Outputs(results[i]) {
      OutputsEntries(f, results[i]);
      assert k in results[i].children;
      if AllEmpty(results[i].remaining) {
        EmptyRemaindersNoChildren(results[i], |results[i].children|);
      }
    } else {
      i := ChildSource(f, results[..i], d, k);
    }
  }

  /** The task and result of a family. */
  lemma FamilyTask(f: Frame, nodes: Nodes, d: nat, groups: Groups, tasks: seq<SampleTask>,
                   rest: Nodes, results: seq<SampleResult>, p: VoxelKey) returns (i: nat)
    requires Sampled(f, nodes, d, groups, tasks, rest, results) && TasksHold(nodes, groups, groups.Keys, tasks)
    requires p.level == d && HasChildIn(nodes, p)
    ensures i < |results| && results[i].parent == p == tasks[i].parent && results[i].children == tasks[i].children
    ensures TaskOk(f, tasks[i]) && SampledFrom(f, tasks[i], results[i])
    ensures GatheredFrom(nodes, tasks[i].children, tasks[i].pts)
    ensures forall c :: c in nodes && Parent(c) == Some(p) ==> c in tasks[i].children
  {
    FamilyGroup(nodes, d, groups, p);
    assert HasTask(tasks, p);
    i :| 0 <= i < |tasks| && tasks[i].parent == p;
    assert SampledFrom(f, tasks[i], results[i]);
  }

  lemma FamilyGroup(nodes: Nodes, d: nat, groups: Groups, p: VoxelKey)
    requires Grouping(groups, KeysAt(nodes, d + 1)) && p.level == d && HasChildIn(nodes, p)
    ensures p in groups && forall c :: c in nodes && Parent(c) == Some(p) ==> c in groups[p]
  {
    var c0 :| c0 in nodes && Parent(c0) == Some(p);
    assert c0 in KeysAt(nodes, d + 1);
    forall c | c in nodes && Parent(c) == Some(p) ensures c in groups[p] {
      assert c in KeysAt(nodes, d + 1);
    }
  }

  /** After the step the family's keys read as its result. */
  lemma ParentReads(f: Frame, nodes: Nodes, d: nat, groups: Groups, tasks: seq<SampleTask>,
                    rest: Nodes, results: seq<SampleResult>, i: nat)
    requires Sampled(f, nodes, d, groups, tasks, rest, results) && LiveAbove(nodes, d + 1) && OneLevel(f, results, d)
    requires i < |results|
    ensures Get(rest + AllOutputs(results), results[i].parent) == results[i].parentPts
  {
    var p := results[i].parent;
    ResultFamily(f, nodes, d, groups, tasks, rest, results, i);
    OutputsReads(results[i]);
    AllOutputsReads(f, results, d, i, p);
    var c :| c in nodes && Parent(c) == Some(p);
    assert StrictlyUnder(c, p);
    UnionFree(rest, AllOutputs(results), p);
  }

  lemma UnionFree(a: Nodes, b: Nodes, k: VoxelKey)
    requires k !in a
    ensures Get(a + b, k) == Get(b, k)
  {
  }

  lemma ChildReads(f: Frame, nodes: Nodes, d: nat, groups: Groups, tasks: seq<SampleTask>,
                   rest: Nodes, results: seq<SampleResult>, i: nat, ci: nat)
    requires Sampled(f, nodes, d, groups, tasks, rest, results) && OneLevel(f, results, d)
    requires i < |results| && ci < |results[i].children|
    ensures Get(rest + AllOutputs(results), results[i].children[ci]) == results[i].remaining[ci]
  {
    var c := results[i].children[ci];
    assert c in results[i].children;
    ResultFamily(f, nodes, d, groups, tasks, rest, results, i);
    OutputsReads(results[i]);
    AllOutputsReads(f, results, d, i, c);
    assert c in KeysAt(nodes, d + 1);
    UnionFree(rest, AllOutputs(results), c);
  }

  lemma FamilyReads(f: Frame, nodes: Nodes, d: nat, groups: Groups, tasks: seq<SampleTask>,
                    rest: Nodes, results: seq<SampleResult>, i: nat, m': Nodes)
    requires Sampled(f, nodes, d, groups, tasks, rest, results) && LiveAbove(nodes, d + 1) && OneLevel(f, results, d)
    requires i < |results| && m' == rest + AllOutputs(results)
    ensures Get(m', results[i].parent) == results[i].parentPts && ChildLists(m', results[i].children) == results[i].remaining
  {
    ParentReads(f, nodes, d, groups, tasks, rest, results, i);
    forall ci: nat | ci < |results[i].children| ensures Get(m', results[i].children[ci]) == results[i].remaining[ci] {
      ChildReads(f, nodes, d, groups, tasks, rest, results, i, ci);
    }
  }

  /** A family's keys beyond its task's children are never stored. */
  lemma NoOtherChild(f: Frame, nodes: Nodes, d: nat, groups: Groups, tasks: seq<SampleTask>,
                     rest: Nodes, results: seq<SampleResult>, p: VoxelKey, m': Nodes, c: VoxelKey)
    requires Sampled(f, nodes, d, groups, tasks, rest, results) && LiveAbove(nodes, d + 1) && OneLevel(f, results, d)
    requires p.level == d && Parent(c) == Some(p) && c !in nodes && m' == rest + AllOutputs(results)
    ensures c !in m'
  {
    AllOutputsEntries(f, results, d);
    if c in AllOutputs(results) {
      OutputKeyIsFree(f, nodes, d, groups, tasks, rest, results, c);
    }
  }

  lemma FamiliesBySampling(f: Frame, nodes: Nodes, d: nat, groups: Groups, tasks: seq<SampleTask>,
                           rest: Nodes, results: seq<SampleResult>, m': Nodes)
    requires Sampled(f, nodes, d, groups, tasks, rest, results) && LiveAbove(nodes, d + 1) && OneLevel(f, results, d)
    requires TasksHold(nodes, groups, groups.Keys, tasks) && Sound(f, nodes) && m' == rest + AllOutputs(results)
    ensures FamiliesSampled(f, d, nodes, m')
  {
    forall p: VoxelKey | p.level == d && HasChildIn(nodes, p) ensures FamilySampled(f, nodes, m', p) {
      var i := FamilyTask(f, nodes, d, groups, tasks, rest, results, p);
      FamilyReads(f, nodes, d, groups, tasks, rest, results, i, m');
      forall c | Parent(c) == Some(p) && (Populated(nodes, c) || Populated(m', c)) ensures c in tasks[i].children {
        if c !in nodes {
          NoOtherChild(f, nodes, d, groups, tasks, rest, results, p, m', c);
        }
      }
      assert ChildLists(m', tasks[i].children) == results[i].remaining;
      FamilyBySampling(f, nodes, m', tasks[i], results[i]);
    }
  }

  /** `LevelStep`: one iteration of `bottom_up_levels`. */
  method LevelStep(f: Frame, nodes: Nodes, d: nat, ghost all: multiset<RawPoint>) returns (nodes': Nodes)
    requires Sound(f, nodes) && LiveAbove(nodes, d + 1) && Total(nodes) <= all
    ensures Stepped(f, all, d, nodes, nodes') && FamiliesSampled(f, d, nodes, nodes')
  {
    var groups := GroupByParent(KeysAt(nodes, d + 1));
    if groups == map[] {
      nodes' := nodes;
      NothingToSample(f, all, nodes, d, groups);
      return;
    }
    var tasks, rest := TakeAll(f, nodes, groups, KeysAt(nodes, d + 1));
    var results := SampleAll(f, tasks);
    SampledOneLevel(f, nodes, d, groups, tasks, rest, results);
    nodes' := ApplyAll(rest, results);
    SteppedBySampling(f, all, nodes, d, groups, tasks, rest, results);
    FamiliesBySampling(f, nodes, d, groups, tasks, rest, results, nodes');
  }

  lemma NothingToSample(f: Frame, all: multiset<RawPoint>, nodes: Nodes, d: nat, groups: Groups)
    requires Sound(f, nodes) && Grouping(groups, KeysAt(nodes, d + 1)) && groups == map[]
    ensures Stepped(f, all, d, nodes, nodes) && FamiliesSampled(f, d, nodes, nodes)
  {
    forall k | k in nodes ensures k.level != d + 1 {
      assert k.level == d + 1 <==> k in KeysAt(nodes, d + 1);
    }
  }

  lemma SteppedBySampling(f: Frame, all: multiset<RawPoint>, nodes: Nodes, d: nat, groups: Groups,
                          tasks: seq<SampleTask>, rest: Nodes, results: seq<SampleResult>)
    requires Sampled(f, nodes, d, groups, tasks, rest, results) && LiveAbove(nodes, d + 1)
    requires OneLevel(f, results, d) && Sound(f, nodes) && Total(nodes) <= all
    ensures Stepped(f, all, d, nodes, rest + AllOutputs(results))
  {
    PutBackTotal(f, nodes, d, groups, tasks, rest, results);
    PutBackFrame(f, all, nodes, d, groups, tasks, rest, results);
    forall k | k in rest + AllOutputs(results) && k.level == d + 1
      ensures !FitsLeaf(f, all, Parent(k).value)
    {
      var i := SurvivorSource(f, nodes, d, groups, tasks, rest, results, k);
      SurvivorIsCrowded(f, all, nodes, d, groups, tasks, rest, results, i);
    }
  }

  ghost predicate KeysUnder(m: Nodes, root: VoxelKey) {
    forall k :: k in m ==> Under(k, root)
  }

  /** Density from a level downwards: below a voxel whose points fit one leaf, nothing is stored. */
  ghost predicate DenseFrom(f: Frame, all: multiset<RawPoint>, m: Nodes, level: nat) {
    forall v: VoxelKey :: v.level >= level ==> Dense(f, all, m, v)
  }

  lemma StepKeepsLive(f: Frame, all: multiset<RawPoint>, d: nat, m: Nodes, m': Nodes)
    requires Stepped(f, all, d, m, m') && LiveAbove(m, d + 1)
    ensures LiveAbove(m', d)
  {
    forall a, b | a in m' && b in m' && b.level <= d && StrictlyUnder(b, a) ensures false {
      if b !in m {
        var c :| c in m && Parent(c) == Some(b);
        assert Under(c, b);
        UnderTransitive(c, b, a);
        assert StrictlyUnder(c, a);
      }
    }
  }

  lemma StepKeepsUnder(f: Frame, all: multiset<RawPoint>, d: nat, m: Nodes, m': Nodes, root: VoxelKey)
    requires Stepped(f, all, d, m, m') && KeysUnder(m, root) && root.level <= d
    ensures KeysUnder(m', root)
  {
    forall k | k in m' ensures Under(k, root) {
      if k !in m {
        var c :| c in m && Parent(c) == Some(k);
        assert Under(c, k);
        AncestorsComparable(c, k, root);
      }
    }
  }

  lemma StepKeepsDense(f: Frame, all: multiset<RawPoint>, d: nat, m: Nodes, m': Nodes)
    requires Stepped(f, all, d, m, m') && DenseFrom(f, all, m, d + 1)
    ensures DenseFrom(f, all, m', d)
  {
    forall v: VoxelKey, k | v.level >= d && FitsLeaf(f, all, v) && StrictlyUnder(k, v)
      ensures !Populated(m', k)
    {
      if k.level == d + 1 {
        StepEmptiesFitting(f, all, d, m, m', v, k);
      } else {
        DensityBelow(f, all, m, d + 1, v, k);
      }
    }
  }

  lemma StepEmptiesFitting(f: Frame, all: multiset<RawPoint>, d: nat, m: Nodes, m': Nodes, v: VoxelKey, k: VoxelKey)
    requires Stepped(f, all, d, m, m') && v.level == d && k.level == d + 1
    requires FitsLeaf(f, all, v) && StrictlyUnder(k, v)
    ensures !Populated(m', k)
  {
    assert Parent(k) == Some(AncestorAt(k, d));
  }

  /** Density from level `l` reaches every key deeper than `l`. */
  lemma DensityBelow(f: Frame, all: multiset<RawPoint>, m: Nodes, l: nat, v: VoxelKey, k: VoxelKey)
    requires DenseFrom(f, all, m, l) && FitsLeaf(f, all, v)
    requires StrictlyUnder(k, v) && k.level > l
    ensures !Populated(m, k)
  {
    if v.level >= l {
      assert Dense(f, all, m, v);
    } else {
      var w := AncestorAt(k, l);
      AncestorsComparable(k, w, v);
      FitsLeafBelow(f, all, v, w);
      assert Dense(f, all, m, w);
    }
  }

  /** Write every node of the map to the store, in any order. */
  method WriteAll(nodes: Nodes, store: NodeStore, ghost all: multiset<RawPoint>, ghost cap: nat)
    requires Total(nodes) <= all && Bounded(nodes, cap)
    modifies store
    ensures store.contents == old(store.contents) + nodes
  {
    var todo := nodes.Keys;
    assert nodes - nodes.Keys == map[];
    while todo != {}
      invariant todo <= nodes.Keys
      invariant store.contents == old(store.contents) + (nodes - todo)
      decreases todo
    {
      var k :| k in todo;
      TotalContains(nodes, k);
      store.Write(k, nodes[k], all, cap);
      WriteOneMore(old(store.contents), nodes, todo, k);
      todo := todo - {k};
    }
    assert nodes - todo == nodes;
  }

  lemma WriteOneMore(before: Nodes, nodes: Nodes, todo: set<VoxelKey>, k: VoxelKey)
    requires k in todo && todo <= nodes.Keys
    ensures (before + (nodes - todo))[k := nodes[k]] == before + (nodes - (todo - {k}))
  {
  }

  /** A finished subtree: sound, below its root, holding exactly the given points, with density
      from the root level down, and grown by sampling every level. */
  ghost predicate Finished(f: Frame, all: multiset<RawPoint>, root: VoxelKey, pts: multiset<RawPoint>, built: Nodes) {
    Sound(f, built) && KeysUnder(built, root) && Total(built) == pts && DenseFrom(f, all, built, root.level) &&
    Grown(f, pts, {root}, built)
  }

  /** The map between two level steps: points under their keys and below the root, nothing lost,
      live nodes un-nested, density from level `d` down. */
  ghost predicate Bubbling(f: Frame, all: multiset<RawPoint>, root: VoxelKey, pts: multiset<RawPoint>, nodes: Nodes, d: nat) {
    Sound(f, nodes) && KeysUnder(nodes, root) && Total(nodes) == pts && LiveAbove(nodes, d) && DenseFrom(f, all, nodes, d)
  }

  lemma BubblingStep(f: Frame, all: multiset<RawPoint>, root: VoxelKey, pts: multiset<RawPoint>, m: Nodes, d: nat, m': Nodes)
    requires Bubbling(f, all, root, pts, m, d + 1) && Stepped(f, all, d, m, m') && root.level <= d
    ensures Bubbling(f, all, root, pts, m', d)
  {
    StepKeepsLive(f, all, d, m, m');
    StepKeepsUnder(f, all, d, m, m', root);
    StepKeepsDense(f, all, d, m, m');
  }

  ghost predicate NoneDeeper(m: Nodes, depth: nat) {
    forall k :: k in m ==> k.level <= depth
  }

  lemma StepNotDeeper(f: Frame, all: multiset<RawPoint>, d: nat, m: Nodes, m': Nodes, depth: nat)
    requires Stepped(f, all, d, m, m') && NoneDeeper(m, depth) && d <= depth
    ensures NoneDeeper(m', depth)
  {
  }

  /** No node holds more than is stored. */
  lemma SmallNodes(m: Nodes, depth: nat, cap: nat)
    requires NoneDeeper(m, depth) && depth <= MAX_LEVEL && |Total(m)| <= cap
    ensures Bounded(m, cap)
  {
    forall k | k in m ensures |m[k]| <= cap {
      TotalRemove(m, k);
    }
  }

  /** Levels from `d` down have been sampled, level `d` and above are as filled. */
  ghost predicate Climbing(f: Frame, root: VoxelKey, leaves: Nodes, up: Nodes, nodes: Nodes, d: nat) {
    FromLeaves({root}, leaves, up) &&
    (forall p :: Under(p, root) && p.level >= d && HasChild(up, p) ==> Redistributed(f, p, up, Get(up, p), nodes)) &&
    forall k: VoxelKey :: k.level <= d ==> Get(nodes, k) == Get(up, k)
  }

  lemma ClimbingStart(f: Frame, root: VoxelKey, leaves: Nodes, depth: nat)
    requires Sound(f, leaves) && KeysUnder(leaves, root) && NoneDeeper(leaves, depth)
    ensures Climbing(f, root, leaves, leaves, leaves, depth)
  {
    assert root in {root};
    forall p: VoxelKey | p.level >= depth ensures !HasChild(leaves, p) {
    }
  }

  /** What level `d` was filled with is recorded. */
  function Recorded(up: Nodes, nodes: Nodes, d: nat): Nodes {
    up + map k | k in nodes && k.level == d :: nodes[k]
  }

  lemma RecordedReads(f: Frame, all: multiset<RawPoint>, d: nat, up: Nodes, m: Nodes, m': Nodes, k: VoxelKey)
    requires Stepped(f, all, d, m, m') && (k.level <= d ==> Get(m, k) == Get(up, k))
    ensures k.level != d ==> Get(Recorded(up, m', d), k) == Get(up, k)
    ensures k.level <= d ==> Get(m', k) == Get(Recorded(up, m', d), k)
    ensures k.level > d + 1 ==> Get(m', k) == Get(m, k)
    ensures k in m && k.level <= d ==> Get(m', k) == Get(m, k)
  {
  }

  lemma RecordedChildren(f: Frame, all: multiset<RawPoint>, d: nat, up: Nodes, m: Nodes, m': Nodes, p: VoxelKey)
    requires Stepped(f, all, d, m, m') && (forall k: VoxelKey :: k.level <= d + 1 ==> Get(m, k) == Get(up, k))
    requires p.level >= d
    ensures ChildrenAlike(up, Recorded(up, m', d), p)
    ensures p.level > d ==> ChildrenAlike(m, m', p)
    ensures p.level == d ==> ChildrenAlike(m, up, p)
  {
    forall c | Parent(c) == Some(p)
      ensures Get(up, c) == Get(Recorded(up, m', d), c) && (p.level > d ==> Get(m, c) == Get(m', c))
    {
      RecordedReads(f, all, d, up, m, m', c);
    }
  }

  lemma ClimbFamilies(f: Frame, all: multiset<RawPoint>, root: VoxelKey, leaves: Nodes, up: Nodes, m: Nodes, d: nat, m': Nodes, p: VoxelKey)
    requires Climbing(f, root, leaves, up, m, d + 1) && Stepped(f, all, d, m, m') && FamiliesSampled(f, d, m, m')
    requires Under(p, root) && p.level >= d && HasChild(Recorded(up, m', d), p)
    ensures Redistributed(f, p, Recorded(up, m', d), Get(Recorded(up, m', d), p), m')
  {
    var up' := Recorded(up, m', d);
    RecordedChildren(f, all, d, up, m, m', p);
    HasChildAlike(up, up', p);
    RecordedReads(f, all, d, up, m, m', p);
    if p.level > d {
      RedistributedAlike(f, p, up, up', Get(up, p), m, m');
    } else {
      HasChildAlike(m, up, p);
      assert HasChildIn(m, p);
      assert ChildrenAlike(m, up', p);
      RedistributedAlike(f, p, m, up', Get(m', p), m', m');
    }
  }

  lemma ClimbLeaves(f: Frame, all: multiset<RawPoint>, root: VoxelKey, leaves: Nodes, up: Nodes, m: Nodes, d: nat, m': Nodes)
    requires Climbing(f, root, leaves, up, m, d + 1) && Stepped(f, all, d, m, m')
    requires Sound(f, leaves) && Sound(f, m) && KeysUnder(m', root)
    ensures FromLeaves({root}, leaves, Recorded(up, m', d))
  {
    var up' := Recorded(up, m', d);
    forall k | k in leaves ensures Get(up', k) == leaves[k] {
      RecordedReads(f, all, d, up, m, m', k);
    }
    forall k | Populated(up', k) ensures InRegions({root}, k) && (k in leaves || HasChild(up', k)) {
      ClimbNode(f, all, root, leaves, up, m, d, m', k);
    }
  }

  lemma ClimbNode(f: Frame, all: multiset<RawPoint>, root: VoxelKey, leaves: Nodes, up: Nodes, m: Nodes, d: nat, m': Nodes, k: VoxelKey)
    requires Climbing(f, root, leaves, up, m, d + 1) && Stepped(f, all, d, m, m')
    requires Sound(f, m) && KeysUnder(m', root) && Populated(Recorded(up, m', d), k)
    ensures InRegions({root}, k) && (k in leaves || HasChild(Recorded(up, m', d), k))
  {
    RecordedReads(f, all, d, up, m, m', k);
    assert root in {root};
    if k.level == d && k !in m {
      assert k in m';
      FilledChild(f, all, up, m, d, m', k);
    } else {
      assert Populated(up, k);
      if k !in leaves {
        var c :| Populated(up, c) && Parent(c) == Some(k);
        ClimbChild(f, all, d, up, m, m', k, c);
      }
    }
  }

  /** A parent that was filled had a child. */
  lemma FilledChild(f: Frame, all: multiset<RawPoint>, up: Nodes, m: Nodes, d: nat, m': Nodes, k: VoxelKey)
    requires Stepped(f, all, d, m, m') && (forall j: VoxelKey :: j.level <= d + 1 ==> Get(m, j) == Get(up, j))
    requires Sound(f, m) && k in m' && k !in m
    ensures HasChild(Recorded(up, m', d), k)
  {
    var c :| c in m && Parent(c) == Some(k);
    assert Get(up, c) == m[c] != [];
    ClimbChild(f, all, d, up, m, m', k, c);
  }

  lemma ClimbChild(f: Frame, all: multiset<RawPoint>, d: nat, up: Nodes, m: Nodes, m': Nodes, k: VoxelKey, c: VoxelKey)
    requires Stepped(f, all, d, m, m') && (forall j: VoxelKey :: j.level <= d + 1 ==> Get(m, j) == Get(up, j))
    requires Populated(up, c) && Parent(c) == Some(k)
    ensures HasChild(Recorded(up, m', d), k)
  {
    RecordedReads(f, all, d, up, m, m', c);
    assert Populated(Recorded(up, m', d), c) by {
      if c.level == d {
        assert Get(m, c) == Get(up, c);
      }
    }
  }

  lemma ClimbingStep(f: Frame, all: multiset<RawPoint>, root: VoxelKey, leaves: Nodes, up: Nodes, m: Nodes, d: nat, m': Nodes)
    requires Climbing(f, root, leaves, up, m, d + 1) && Stepped(f, all, d, m, m') && FamiliesSampled(f, d, m, m')
    requires Sound(f, leaves) && Sound(f, m) && KeysUnder(m', root)
    ensures Climbing(f, root, leaves, Recorded(up, m', d), m', d)
  {
    ClimbLeaves(f, all, root, leaves, up, m, d, m');
    forall p | Under(p, root) && p.level >= d && HasChild(Recorded(up, m', d), p)
      ensures Redistributed(f, p, Recorded(up, m', d), Get(Recorded(up, m', d), p), m')
    {
      ClimbFamilies(f, all, root, leaves, up, m, d, m', p);
    }
    forall k: VoxelKey | k.level <= d ensures Get(m', k) == Get(Recorded(up, m', d), k) {
      RecordedReads(f, all, d, up, m, m', k);
    }
  }

  lemma ClimbingDone(f: Frame, root: VoxelKey, leaves: Nodes, up: Nodes, m: Nodes)
    requires Climbing(f, root, leaves, up, m, root.level) && LeavesOf(f, Total(leaves), leaves)
    ensures Grown(f, Total(leaves), {root}, m)
  {
    assert GrownFrom(f, {root}, leaves, up, m);
  }

  /** Between two levels of the build. */
  ghost predicate Ascent(f: Frame, all: multiset<RawPoint>, root: VoxelKey, leaves: Nodes, depth: nat, up: Nodes, nodes: Nodes, d: nat) {
    Bubbling(f, all, root, Total(leaves), nodes, d) && NoneDeeper(nodes, depth) && Climbing(f, root, leaves, up, nodes, d)
  }

  lemma AscentStart(f: Frame, all: multiset<RawPoint>, root: VoxelKey, leaves: Nodes, depth: nat)
    requires Sound(f, leaves) && KeysUnder(leaves, root) && LiveAbove(leaves, depth) && NoneDeeper(leaves, depth)
    ensures Ascent(f, all, root, leaves, depth, leaves, leaves, depth)
  {
    ClimbingStart(f, root, leaves, depth);
  }

  lemma AscentReady(f: Frame, all: multiset<RawPoint>, root: VoxelKey, leaves: Nodes, depth: nat, up: Nodes, m: Nodes, d: nat)
    requires Ascent(f, all, root, leaves, depth, up, m, d + 1)
    ensures Sound(f, m) && LiveAbove(m, d + 1) && Total(m) == Total(leaves)
  {
  }

  lemma AscentStep(f: Frame, all: multiset<RawPoint>, root: VoxelKey, leaves: Nodes, depth: nat, up: Nodes, m: Nodes, d: nat, m': Nodes)
    requires Ascent(f, all, root, leaves, depth, up, m, d + 1) && root.level <= d <= depth && Sound(f, leaves)
    requires Stepped(f, all, d, m, m') && FamiliesSampled(f, d, m, m')
    ensures Ascent(f, all, root, leaves, depth, Recorded(up, m', d), m', d)
  {
    BubblingStep(f, all, root, Total(leaves), m, d, m');
    StepNotDeeper(f, all, d, m, m', depth);
    ClimbingStep(f, all, root, leaves, up, m, d, m');
  }

  lemma AscentDone(f: Frame, all: multiset<RawPoint>, root: VoxelKey, leaves: Nodes, depth: nat, up: Nodes, m: Nodes, cap: nat)
    requires Ascent(f, all, root, leaves, depth, up, m, root.level) && LeavesOf(f, Total(leaves), leaves)
    requires depth <= MAX_LEVEL && |Total(leaves)| <= cap
    ensures Finished(f, all, root, Total(leaves), m) && Bounded(m, cap)
  {
    ClimbingDone(f, root, leaves, up, m);
    SmallNodes(m, depth, cap);
  }

  /** The level loop of `bottom_up_levels`. */
  method SampleUpwards(f: Frame, nodes0: Nodes, maxDepth: nat, root: VoxelKey, ghost all: multiset<RawPoint>)
    returns (nodes: Nodes, ghost up: Nodes)
    requires Sound(f, nodes0) && KeysUnder(nodes0, root) && Total(nodes0) <= all
    requires LiveAbove(nodes0, maxDepth) && root.level <= maxDepth && NoneDeeper(nodes0, maxDepth)
    ensures Ascent(f, all, root, nodes0, maxDepth, up, nodes, root.level)
  {
    nodes, up := nodes0, nodes0;
    var d := maxDepth;
    AscentStart(f, all, root, nodes0, maxDepth);
    while d > root.level
      invariant root.level <= d <= maxDepth
      invariant Ascent(f, all, root, nodes0, maxDepth, up, nodes, d)
    {
      d := d - 1;
      AscentReady(f, all, root, nodes0, maxDepth, up, nodes, d);
      var next := LevelStep(f, nodes, d, all);
      AscentStep(f, all, root, nodes0, maxDepth, up, nodes, d, next);
      up, nodes := Recorded(up, next, d), next;
    }
  }

  /** `bottom_up_levels` for an in-memory map whose keys lie under `root`. */
  method BottomUpLevels(f: Frame, nodes0: Nodes, maxDepth: nat, store: NodeStore, root: VoxelKey,
                        ghost all: multiset<RawPoint>, ghost cap: nat)
    returns (counts: map<VoxelKey, nat>, ghost built: Nodes)
    requires Sound(f, nodes0) && KeysUnder(nodes0, root) && Total(nodes0) <= all && |Total(nodes0)| <= cap
    requires LiveAbove(nodes0, maxDepth) && root.level <= maxDepth <= MAX_LEVEL
    requires NoneDeeper(nodes0, maxDepth) && LeavesOf(f, Total(nodes0), nodes0)
    modifies store
    ensures Finished(f, all, root, Total(nodes0), built) && Bounded(built, cap)
    ensures store.contents == old(store.contents) + built
    ensures counts == map k | k in built :: |built[k]|
  {
    var nodes: Nodes;
    ghost var up;
    nodes, up := SampleUpwards(f, nodes0, maxDepth, root, all);
    AscentDone(f, all, root, nodes0, maxDepth, up, nodes, cap);
    counts := StoreNodes(f, nodes, store, all, cap);
    built := nodes;
  }

  /** Write the finished nodes and list their counts. */
  method StoreNodes(f: Frame, nodes: Nodes, store: NodeStore, ghost all: multiset<RawPoint>, ghost cap: nat)
    returns (counts: map<VoxelKey, nat>)
    requires Sound(f, nodes) && Total(nodes) <= all && Bounded(nodes, cap)
    modifies store
    ensures store.contents == old(store.contents) + nodes
    ensures counts == map k | k in nodes :: |nodes[k]|
  {
    WriteAll(nodes, store, all, cap);
    counts := map k | k in nodes && nodes[k] != [] :: |nodes[k]|;
  }
}
