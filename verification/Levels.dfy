/** One level of the bottom-up build (`bottom_up_levels` in src/octree.rs): children at one
    level are grouped by parent, taken out of the node map, sampled, and put back. */
module Levels {
  import opened Voxel
  import opened Points
  import opened NodeMap
  import opened Sampling

  datatype SampleTask = SampleTask(parent: VoxelKey, children: seq<VoxelKey>, pts: seq<Tagged>)

  datatype SampleResult = SampleResult(parent: VoxelKey, children: seq<VoxelKey>,
                                       parentPts: seq<RawPoint>, remaining: seq<seq<RawPoint>>)

  type Groups = map<VoxelKey, seq<VoxelKey>>

  predicate Distinct<T(==)>(s: seq<T>) {
    forall i, j :: 0 <= i < j < |s| ==> s[i] != s[j]
  }

  function Elems<T(==)>(s: seq<T>): set<T> {
    set x | x in s
  }

  /** The indices of a list. */
  function Upto(n: nat): (s: set<nat>)
    ensures forall i: nat :: i in s <==> i < n
  {
    if n == 0 then {} else Upto(n - 1) + {n - 1}
  }

  /** A parent with distinct children of its own. */
  predicate Family(parent: VoxelKey, children: seq<VoxelKey>) {
    Distinct(children) && forall c :: c in children ==> Parent(c) == Some(parent)
  }

  /** `groups` sorts exactly the given keys by their parents. */
  ghost predicate Grouping(groups: Groups, keys: set<VoxelKey>) {
    (forall p :: p in groups ==> groups[p] != [] && Family(p, groups[p])) &&
    (forall p, c :: p in groups && c in groups[p] ==> c in keys) &&
    (forall c :: c in keys ==> c.level > 0 && Parent(c).value in groups && c in groups[Parent(c).value])
  }

  function GroupOf(groups: Groups, p: VoxelKey): seq<VoxelKey> {
    if p in groups then groups[p] else []
  }

  lemma GroupingAdd(groups: Groups, keys: set<VoxelKey>, k: VoxelKey)
    requires Grouping(groups, keys) && k !in keys && k.level > 0
    ensures var p := Parent(k).value;
            Grouping(groups[p := GroupOf(groups, p) + [k]], keys + {k})
  {
    var p := Parent(k).value;
    var g := GroupOf(groups, p) + [k];
    assert forall c :: c in g <==> c in GroupOf(groups, p) || c == k;
    assert k !in GroupOf(groups, p);
    assert Family(p, g);
  }

  /** Group keys by parent, visiting them in any order. */
  method GroupByParent(keys: set<VoxelKey>) returns (groups: Groups)
    requires forall k :: k in keys ==> k.level > 0
    ensures Grouping(groups, keys)
  {
    groups := map[];
    var todo := keys;
    while todo != {}
      invariant todo <= keys && Grouping(groups, keys - todo)
      decreases todo
    {
      var k :| k in todo;
      GroupingAdd(groups, keys - todo, k);
      assert keys - (todo - {k}) == (keys - todo) + {k};
      groups := groups[Parent(k).value := GroupOf(groups, Parent(k).value) + [k]];
      todo := todo - {k};
    }
    assert keys - todo == keys;
  }

  /** Tagged points all lie in the child they are tagged with. */
  ghost predicate Gathered(f: Frame, children: seq<VoxelKey>, pts: seq<Tagged>) {
    forall t :: t in pts ==> t.child < |children| &&
                             KeyAt(f, t.p, children[t.child].level) == children[t.child]
  }

  ghost predicate TaskOk(f: Frame, t: SampleTask) {
    Family(t.parent, t.children) && Gathered(f, t.children, t.pts)
  }

  lemma UntagConcat(a: seq<Tagged>, b: seq<Tagged>)
    ensures Untag(a + b) == Untag(a) + Untag(b)
  {
  }

  lemma UntagTagSeq(child: nat, s: seq<RawPoint>)
    ensures Untag(TagSeq(child, s)) == s
  {
  }

  lemma GatheredAppend(f: Frame, m: Nodes, children: seq<VoxelKey>, pts: seq<Tagged>, ci: nat)
    requires ci < |children| && Gathered(f, children, pts) && Placed(f, m)
    ensures Gathered(f, children, pts + TagSeq(ci, Get(m, children[ci])))
  {
    var more := TagSeq(ci, Get(m, children[ci]));
    forall t | t in pts + more
      ensures t.child < |children| && KeyAt(f, t.p, children[t.child].level) == children[t.child]
    {
      if t in more {
        TagSeqMember(ci, Get(m, children[ci]), t);
      }
    }
  }

  /** Progress of one gather: `ci` children taken out of the map into `pts`. */
  ghost predicate Taking(f: Frame, nodes: Nodes, children: seq<VoxelKey>, ci: nat, pts: seq<Tagged>, rest: Nodes)
    requires ci <= |children|
  {
    rest == nodes - Elems(children[..ci]) && Gathered(f, children, pts) &&
    Total(nodes) == Total(rest) + multiset(Untag(pts))
  }

  lemma TakeStep(f: Frame, nodes: Nodes, children: seq<VoxelKey>, ci: nat, pts: seq<Tagged>, rest: Nodes)
    requires ci < |children| && Placed(f, nodes) && Taking(f, nodes, children, ci, pts, rest)
    ensures var k := children[ci];
            Taking(f, nodes, children, ci + 1, pts + TagSeq(ci, Get(rest, k)), rest - {k})
  {
    var k := children[ci];
    TotalTake(rest, k);
    UntagConcat(pts, TagSeq(ci, Get(rest, k)));
    UntagTagSeq(ci, Get(rest, k));
    GatheredAppend(f, rest, children, pts, ci);
    RemoveOneMore(nodes, children, ci);
  }

  lemma RemoveOneMore(nodes: Nodes, children: seq<VoxelKey>, ci: nat)
    requires ci < |children|
    ensures nodes - Elems(children[..ci]) - {children[ci]} == nodes - Elems(children[..ci + 1])
  {
    assert children[..ci + 1] == children[..ci] + [children[ci]];
  }

  /** What the children hold, child by child. */
  function ChildLists(m: Nodes, children: seq<VoxelKey>): (l: seq<seq<RawPoint>>)
    ensures |l| == |children| && forall i :: 0 <= i < |l| ==> l[i] == Get(m, children[i])
  {
    seq(|children|, i requires 0 <= i < |children| => Get(m, children[i]))
  }

  /** The gathered points are exactly the children's points, each tagged with its child. */
  ghost predicate GatheredFrom(m: Nodes, children: seq<VoxelKey>, pts: seq<Tagged>) {
    multiset(pts) == TagAll(ChildLists(m, children)) && multiset(Untag(pts)) == SumAll(ChildLists(m, children))
  }

  lemma GatheredFromStep(m: Nodes, children: seq<VoxelKey>, ci: nat, pts: seq<Tagged>)
    requires ci < |children| && GatheredFrom(m, children[..ci], pts)
    ensures GatheredFrom(m, children[..ci + 1], pts + TagSeq(ci, Get(m, children[ci])))
  {
    var more := TagSeq(ci, Get(m, children[ci]));
    var lists := ChildLists(m, children[..ci + 1]);
    assert lists[..ci] == ChildLists(m, children[..ci]);
    UntagConcat(pts, more);
    UntagTagSeq(ci, Get(m, children[ci]));
    assert multiset(pts + more) == multiset(pts) + multiset(more);
    assert multiset(Untag(pts) + Untag(more)) == multiset(Untag(pts)) + multiset(Untag(more));
  }

  lemma NotYetTaken(nodes: Nodes, children: seq<VoxelKey>, ci: nat)
    requires ci < |children| && Distinct(children)
    ensures Get(nodes - Elems(children[..ci]), children[ci]) == Get(nodes, children[ci])
  {
    DistinctNotBefore(children, ci);
  }

  /** Move the children's points out of the node map into one sampling task. */
  method TakeTask(f: Frame, nodes: Nodes, parent: VoxelKey, children: seq<VoxelKey>)
    returns (task: SampleTask, rest: Nodes)
    requires Family(parent, children) && Placed(f, nodes)
    ensures task.parent == parent && task.children == children && TaskOk(f, task)
    ensures rest == nodes - Elems(children)
    ensures Total(nodes) == Total(rest) + multiset(Untag(task.pts)) && GatheredFrom(nodes, children, task.pts)
  {
    var pts := [];
    rest := nodes;
    for ci := 0 to |children|
      invariant Taking(f, nodes, children, ci, pts, rest) && GatheredFrom(nodes, children[..ci], pts)
    {
      TakeStep(f, nodes, children, ci, pts, rest);
      NotYetTaken(nodes, children, ci);
      GatheredFromStep(nodes, children, ci, pts);
      pts := pts + TagSeq(ci, Get(rest, children[ci]));
      rest := rest - {children[ci]};
    }
    assert children[..|children|] == children;
    task := SampleTask(parent, children, pts);
  }

  ghost function TasksTotal(tasks: seq<SampleTask>): multiset<RawPoint> {
    if tasks == [] then multiset{}
    else TasksTotal(tasks[..|tasks| - 1]) + multiset(Untag(tasks[|tasks| - 1].pts))
  }

  lemma TasksTotalSnoc(tasks: seq<SampleTask>, t: SampleTask)
    ensures TasksTotal(tasks + [t]) == TasksTotal(tasks) + multiset(Untag(t.pts))
  {
    assert (tasks + [t])[..|tasks|] == tasks;
  }

  lemma {:induction false} TasksTotalContains(tasks: seq<SampleTask>, i: nat)
    requires i < |tasks|
    ensures multiset(Untag(tasks[i].pts)) <= TasksTotal(tasks)
  {
    if i < |tasks| - 1 {
      TasksTotalContains(tasks[..|tasks| - 1], i);
    }
  }

  /** The tasks cover exactly the groups, one task per parent. */
  ghost predicate TasksFor(f: Frame, tasks: seq<SampleTask>, groups: Groups, done: set<VoxelKey>) {
    (forall i :: 0 <= i < |tasks| ==>
       TaskOk(f, tasks[i]) && tasks[i].parent in done && tasks[i].parent in groups &&
       tasks[i].children == groups[tasks[i].parent]) &&
    (forall i, j :: 0 <= i < j < |tasks| ==> tasks[i].parent != tasks[j].parent)
  }

  lemma TasksForSnoc(f: Frame, tasks: seq<SampleTask>, groups: Groups, done: set<VoxelKey>, t: SampleTask)
    requires TasksFor(f, tasks, groups, done)
    requires t.parent !in done && t.parent in groups && t.children == groups[t.parent] && TaskOk(f, t)
    ensures TasksFor(f, tasks + [t], groups, done + {t.parent})
  {
  }

  ghost function ChildrenOf(groups: Groups, parents: set<VoxelKey>): set<VoxelKey>
  {
    set p, c | p in groups && p in parents && c in groups[p] :: c
  }

  lemma ChildrenOfAdd(groups: Groups, parents: set<VoxelKey>, p: VoxelKey)
    requires p in groups
    ensures ChildrenOf(groups, parents + {p}) == ChildrenOf(groups, parents) + Elems(groups[p])
  {
  }

  lemma ChildrenOfAll(groups: Groups, keys: set<VoxelKey>)
    requires Grouping(groups, keys)
    ensures ChildrenOf(groups, groups.Keys) == keys
  {
    forall c | c in keys ensures c in ChildrenOf(groups, groups.Keys) {
      var p := Parent(c).value;
      assert p in groups.Keys && c in groups[p];
    }
  }

  /** Progress of the whole gather: the groups in `done` have been taken. */
  ghost predicate Taken(f: Frame, nodes: Nodes, groups: Groups, done: set<VoxelKey>,
                        tasks: seq<SampleTask>, rest: Nodes) {
    TasksFor(f, tasks, groups, done) &&
    rest == nodes - ChildrenOf(groups, done) &&
    Total(nodes) == Total(rest) + TasksTotal(tasks)
  }

  lemma AddAssociates<T>(all: multiset<T>, a: multiset<T>, b: multiset<T>, c: multiset<T>)
    requires all == (a + b) + c
    ensures all == a + (c + b)
  {
  }

  lemma TakenStep(f: Frame, nodes: Nodes, groups: Groups, done: set<VoxelKey>,
                  tasks: seq<SampleTask>, rest: Nodes, t: SampleTask, rest': Nodes)
    requires Taken(f, nodes, groups, done, tasks, rest)
    requires t.parent in groups && t.parent !in done && t.children == groups[t.parent] && TaskOk(f, t)
    requires rest' == rest - Elems(t.children)
    requires Total(rest) == Total(rest') + multiset(Untag(t.pts))
    ensures Taken(f, nodes, groups, done + {t.parent}, tasks + [t], rest')
  {
    TasksForSnoc(f, tasks, groups, done, t);
    TasksTotalSnoc(tasks, t);
    ChildrenOfAdd(groups, done, t.parent);
    AddAssociates(Total(nodes), Total(rest'), multiset(Untag(t.pts)), TasksTotal(tasks));
  }

  lemma PlacedMinus(f: Frame, m: Nodes, keys: set<VoxelKey>)
    requires Placed(f, m)
    ensures Placed(f, m - keys)
  {
  }

  lemma TakenStart(f: Frame, nodes: Nodes, groups: Groups)
    ensures Taken(f, nodes, groups, {}, [], nodes)
  {
    assert ChildrenOf(groups, {}) == {};
    assert nodes - {} == nodes;
  }

  /** Every task holds its children's points, and every group has its task. */
  ghost predicate TasksHold(nodes: Nodes, groups: Groups, done: set<VoxelKey>, tasks: seq<SampleTask>) {
    (forall i :: 0 <= i < |tasks| ==> GatheredFrom(nodes, tasks[i].children, tasks[i].pts)) &&
    forall p :: p in done ==> HasTask(tasks, p)
  }

  ghost predicate HasTask(tasks: seq<SampleTask>, p: VoxelKey) {
    exists i :: 0 <= i < |tasks| && tasks[i].parent == p
  }

  lemma TasksHoldStep(nodes: Nodes, groups: Groups, keys: set<VoxelKey>, done: set<VoxelKey>, tasks: seq<SampleTask>,
                      t: SampleTask, rest: Nodes)
    requires TasksHold(nodes, groups, done, tasks) && Grouping(groups, keys) && rest == nodes - ChildrenOf(groups, done)
    requires t.parent in groups && t.parent !in done && t.children == groups[t.parent]
    requires GatheredFrom(rest, t.children, t.pts)
    ensures TasksHold(nodes, groups, done + {t.parent}, tasks + [t])
  {
    forall i | 0 <= i < |t.children| ensures Get(rest, t.children[i]) == Get(nodes, t.children[i]) {
      assert t.children[i] in t.children && Parent(t.children[i]) == Some(t.parent);
      assert t.children[i] !in ChildrenOf(groups, done);
    }
    assert ChildLists(rest, t.children) == ChildLists(nodes, t.children);
    var tasks' := tasks + [t];
    forall p | p in done + {t.parent} ensures HasTask(tasks', p) {
      if p in done {
        var i :| 0 <= i < |tasks| && tasks[i].parent == p;
        assert tasks'[i].parent == p;
      } else {
        assert tasks'[|tasks|].parent == p;
      }
    }
  }

  /** Take one more group out of the map. */
  method TakeGroup(f: Frame, ghost nodes: Nodes, groups: Groups, ghost keys: set<VoxelKey>, ghost done: set<VoxelKey>,
                   tasks0: seq<SampleTask>, rest0: Nodes, parent: VoxelKey)
    returns (tasks: seq<SampleTask>, rest: Nodes)
    requires Placed(f, nodes) && Grouping(groups, keys) && parent in groups && parent !in done
    requires Taken(f, nodes, groups, done, tasks0, rest0) && TasksHold(nodes, groups, done, tasks0)
    ensures Taken(f, nodes, groups, done + {parent}, tasks, rest) && TasksHold(nodes, groups, done + {parent}, tasks)
  {
    PlacedMinus(f, nodes, ChildrenOf(groups, done));
    var task: SampleTask;
    task, rest := TakeTask(f, rest0, parent, groups[parent]);
    TakenStep(f, nodes, groups, done, tasks0, rest0, task, rest);
    TasksHoldStep(nodes, groups, keys, done, tasks0, task, rest0);
    tasks := tasks0 + [task];
  }

  /** Take every group out of the map, in any order. */
  method TakeAll(f: Frame, nodes: Nodes, groups: Groups, ghost keys: set<VoxelKey>)
    returns (tasks: seq<SampleTask>, rest: Nodes)
    requires Placed(f, nodes) && Grouping(groups, keys)
    ensures Taken(f, nodes, groups, groups.Keys, tasks, rest) && rest == nodes - keys
    ensures TasksHold(nodes, groups, groups.Keys, tasks)
  {
    tasks, rest := [], nodes;
    var todo := groups.Keys;
    ghost var done: set<VoxelKey> := {};
    TakenStart(f, nodes, groups);
    while todo != {}
      invariant LeftOf(groups.Keys, todo, done)
      invariant Taken(f, nodes, groups, done, tasks, rest) && TasksHold(nodes, groups, done, tasks)
      decreases todo
    {
      var parent :| parent in todo;
      LeftStep(groups.Keys, todo, done, parent);
      tasks, rest := TakeGroup(f, nodes, groups, keys, done, tasks, rest, parent);
      todo, done := todo - {parent}, done + {parent};
    }
    LeftNone(groups.Keys, done);
    ChildrenOfAll(groups, keys);
  }

  /** `todo` is what is left of `all` once `done` is done. */
  ghost predicate LeftOf<T>(all: set<T>, todo: set<T>, done: set<T>) {
    todo <= all && done == all - todo
  }

  lemma LeftStep<T>(all: set<T>, todo: set<T>, done: set<T>, x: T)
    requires LeftOf(all, todo, done) && x in todo
    ensures x in all && x !in done && LeftOf(all, todo - {x}, done + {x})
  {
  }

  lemma LeftNone<T>(all: set<T>, done: set<T>)
    requires LeftOf(all, {}, done)
    ensures done == all
  {
  }

  /** No two of the points share a sampling cell of the voxel. */
  ghost predicate CellsApart(f: Frame, v: VoxelKey, s: seq<RawPoint>) {
    forall i, j :: 0 <= i < j < |s| ==> GridIdx(f, v, s[i]) != GridIdx(f, v, s[j])
  }

  /** Sampling cells of the voxel that hold a point. */
  ghost function Occupied(f: Frame, v: VoxelKey, s: multiset<RawPoint>): set<nat> {
    set p | p in s :: GridIdx(f, v, p)
  }

  /** The parent takes at most one point per cell, every contributing child keeps a point, and a
      cell without a representative is paid for by a child left with a single point. */
  ghost predicate Thinned(f: Frame, t: SampleTask, r: SampleResult) {
    CellsApart(f, t.parent, r.parentPts) &&
    |Occupied(f, t.parent, multiset(Untag(t.pts)))| <= |r.parentPts| + Singles(r.remaining) &&
    forall c: nat :: c < |r.remaining| && Contributes(t.pts, c) ==> r.remaining[c] != []
  }

  /** A result redistributes exactly its task's points, each inside the right voxel. It leaves
      nothing in the children when the task fits one leaf, and thins them out otherwise. */
  ghost predicate SampledFrom(f: Frame, t: SampleTask, r: SampleResult) {
    r.parent == t.parent && r.children == t.children && |r.remaining| == |r.children| &&
    multiset(Untag(t.pts)) == multiset(r.parentPts) + SumAll(r.remaining) &&
    ResultPlaced(f, r) &&
    if |t.pts| <= MAX_LEAF_POINTS then AllEmpty(r.remaining) else Thinned(f, t, r)
  }

  ghost predicate ResultPlaced(f: Frame, r: SampleResult) {
    |r.remaining| == |r.children| && AllIn(f, r.parentPts, r.parent) &&
    forall ci :: 0 <= ci < |r.children| ==> AllIn(f, r.remaining[ci], r.children[ci])
  }

  lemma GatheredInParent(f: Frame, t: SampleTask)
    requires TaskOk(f, t)
    ensures AllIn(f, Untag(t.pts), t.parent)
  {
    forall p | p in Untag(t.pts) ensures KeyAt(f, p, t.parent.level) == t.parent {
      var i :| 0 <= i < |t.pts| && Untag(t.pts)[i] == p;
      assert t.pts[i] in t.pts;
      var c := t.children[t.pts[i].child];
      assert c in t.children;
      ParentOfDescent(f, p, c.level);
    }
  }

  lemma ResultIsPlaced(f: Frame, t: SampleTask, r: SampleResult, kept: seq<Tagged>)
    requires TaskOk(f, t) && r.parent == t.parent && r.children == t.children
    requires |r.remaining| == |r.children| && r.parentPts == Untag(kept) && Partition(t.pts, kept, r.remaining)
    ensures ResultPlaced(f, r)
  {
    PartitionMembers(t.pts, kept, r.remaining);
    GatheredInParent(f, t);
    forall p | p in r.parentPts ensures p in Untag(t.pts) {
      var i :| 0 <= i < |kept| && Untag(kept)[i] == p;
      assert kept[i] in kept;
      var j :| 0 <= j < |t.pts| && t.pts[j] == kept[i];
      assert Untag(t.pts)[j] == p;
    }
    forall ci, p | 0 <= ci < |r.children| && p in r.remaining[ci]
      ensures KeyAt(f, p, r.children[ci].level) == r.children[ci]
    {
      assert Tagged(ci, p) in t.pts;
    }
  }

  lemma UntagCells(f: Frame, v: VoxelKey, pts: seq<Tagged>)
    ensures Occupied(f, v, multiset(Untag(pts))) == Cells(CellOf(f, v), pts)
  {
    var cell := CellOf(f, v);
    forall t | t in pts ensures t.p in multiset(Untag(pts)) {
      var i :| 0 <= i < |pts| && pts[i] == t;
      assert Untag(pts)[i] == t.p;
    }
    forall p | p in multiset(Untag(pts)) ensures cell(p) in Cells(cell, pts) {
      var i :| 0 <= i < |pts| && Untag(pts)[i] == p;
      assert pts[i] in pts;
    }
  }

  lemma {:induction false} UptoSize(n: nat)
    ensures |Upto(n)| == n
  {
    if n > 0 {
      UptoSize(n - 1);
    }
  }

  lemma {:induction false} DistinctFit(s: seq<nat>, room: set<nat>)
    requires Distinct(s) && forall i :: 0 <= i < |s| ==> s[i] in room
    ensures |s| <= |room|
  {
    if s != [] {
      var n := |s| - 1;
      DistinctFit(s[..n], room - {s[n]});
    }
  }

  /** Points in different cells are no more than there are cells. */
  lemma ApartIsFew(f: Frame, v: VoxelKey, s: seq<RawPoint>)
    requires CellsApart(f, v, s)
    ensures |s| <= GRID_CELLS
  {
    DistinctFit(seq(|s|, i requires 0 <= i < |s| => GridIdx(f, v, s[i])), Upto(GRID_CELLS));
    UptoSize(GRID_CELLS);
  }

  lemma KeptApart(f: Frame, v: VoxelKey, kept: seq<Tagged>)
    requires OnePerCell(CellOf(f, v), kept)
    ensures CellsApart(f, v, Untag(kept))
  {
    var s, cell := Untag(kept), CellOf(f, v);
    forall i, j | 0 <= i < j < |s| ensures GridIdx(f, v, s[i]) != GridIdx(f, v, s[j]) {
      assert cell(kept[i].p) != cell(kept[j].p);
    }
  }

  method SampleOne(f: Frame, t: SampleTask) returns (r: SampleResult)
    requires TaskOk(f, t)
    ensures SampledFrom(f, t, r)
  {
    var n := |t.children|;
    if t.pts == [] {
      r := SampleResult(t.parent, t.children, [], seq(n, _ => []));
      TagAllEmpty(r.remaining);
      assert Untag(t.pts) == [];
      return;
    }
    var parentPts, remaining, kept := GridSample(f, t.parent, t.pts, n);
    r := SampleResult(t.parent, t.children, parentPts, remaining);
    ResultIsPlaced(f, t, r, kept);
    if |t.pts| > MAX_LEAF_POINTS {
      UntagCells(f, t.parent, t.pts);
      KeptApart(f, t.parent, kept);
    }
  }

  method SampleAll(f: Frame, tasks: seq<SampleTask>) returns (results: seq<SampleResult>)
    requires forall i :: 0 <= i < |tasks| ==> TaskOk(f, tasks[i])
    ensures |results| == |tasks|
    ensures forall i :: 0 <= i < |tasks| ==> SampledFrom(f, tasks[i], results[i])
  {
    results := [];
    for i := 0 to |tasks|
      invariant SampledSoFar(f, tasks, results, i)
    {
      var r := SampleOne(f, tasks[i]);
      SampledMore(f, tasks, results, i, r);
      results := results + [r];
    }
  }

  ghost predicate SampledSoFar(f: Frame, tasks: seq<SampleTask>, results: seq<SampleResult>, i: nat) {
    |results| == i <= |tasks| && forall j :: 0 <= j < i ==> SampledFrom(f, tasks[j], results[j])
  }

  lemma SampledMore(f: Frame, tasks: seq<SampleTask>, results: seq<SampleResult>, i: nat, r: SampleResult)
    requires i < |tasks| && SampledSoFar(f, tasks, results, i) && SampledFrom(f, tasks[i], r)
    ensures SampledSoFar(f, tasks, results + [r], i + 1)
  {
    forall j | 0 <= j < i + 1 ensures SampledFrom(f, tasks[j], (results + [r])[j]) {
      if j < i {
        assert (results + [r])[j] == results[j];
      }
    }
  }

  /** The non-empty remainders of the first `ci` children, as map entries. */
  function ChildOutputs(r: SampleResult, ci: nat): Nodes
    requires ci <= |r.children| == |r.remaining|
  {
    if ci == 0 then map[]
    else if r.remaining[ci - 1] == [] then ChildOutputs(r, ci - 1)
    else ChildOutputs(r, ci - 1)[r.children[ci - 1] := r.remaining[ci - 1]]
  }

  /** All entries a result puts back. */
  function Outputs(r: SampleResult): Nodes
    requires |r.children| == |r.remaining|
  {
    var m := ChildOutputs(r, |r.children|);
    if r.parentPts == [] then m else m[r.parent := r.parentPts]
  }

  predicate WellShaped(r: SampleResult) {
    |r.children| == |r.remaining| && Family(r.parent, r.children)
  }

  function AllOutputs(results: seq<SampleResult>): Nodes
    requires forall i :: 0 <= i < |results| ==> WellShaped(results[i])
  {
    if results == [] then map[]
    else if !WellShaped(results[|results| - 1]) then map[]
    else AllOutputs(results[..|results| - 1]) + Outputs(results[|results| - 1])
  }

  /** Non-empty entries under the given keys, every point inside its voxel. */
  ghost predicate Entries(f: Frame, m: Nodes, keys: set<VoxelKey>) {
    forall k :: k in m ==> k in keys && m[k] != [] && AllIn(f, m[k], k)
  }

  lemma EntriesPut(f: Frame, m: Nodes, keys: set<VoxelKey>, k: VoxelKey, v: seq<RawPoint>)
    requires Entries(f, m, keys) && v != [] && AllIn(f, v, k)
    ensures Entries(f, m[k := v], keys + {k})
  {
  }

  lemma ElemsTake<T>(s: seq<T>, i: nat)
    requires i < |s|
    ensures Elems(s[..i + 1]) == Elems(s[..i]) + {s[i]}
  {
    assert s[..i + 1] == s[..i] + [s[i]];
  }

  lemma {:induction false} ChildOutputsEntries(f: Frame, r: SampleResult, ci: nat)
    requires ci <= |r.children| && ResultPlaced(f, r)
    ensures Entries(f, ChildOutputs(r, ci), Elems(r.children[..ci]))
  {
    if ci > 0 {
      ChildOutputsEntries(f, r, ci - 1);
      ElemsTake(r.children, ci - 1);
      if r.remaining[ci - 1] != [] {
        EntriesPut(f, ChildOutputs(r, ci - 1), Elems(r.children[..ci - 1]), r.children[ci - 1], r.remaining[ci - 1]);
      }
    }
  }

  lemma SumAllTake(lists: seq<seq<RawPoint>>, i: nat)
    requires i < |lists|
    ensures SumAll(lists[..i + 1]) == SumAll(lists[..i]) + multiset(lists[i])
  {
    assert lists[..i + 1][..i] == lists[..i];
  }

  lemma DistinctNotBefore<T>(s: seq<T>, i: nat)
    requires i < |s| && Distinct(s)
    ensures s[i] !in Elems(s[..i])
  {
  }

  lemma {:induction false} ChildOutputsTotal(f: Frame, r: SampleResult, ci: nat)
    requires ci <= |r.children| && WellShaped(r) && ResultPlaced(f, r)
    ensures Total(ChildOutputs(r, ci)) == SumAll(r.remaining[..ci])
  {
    if ci > 0 {
      ChildOutputsTotal(f, r, ci - 1);
      SumAllTake(r.remaining, ci - 1);
      if r.remaining[ci - 1] == [] {
        assert multiset(r.remaining[ci - 1]) == multiset{};
      } else {
        ChildNotYet(f, r, ci - 1);
        TotalInsert(ChildOutputs(r, ci - 1), r.children[ci - 1], r.remaining[ci - 1]);
      }
    }
  }

  lemma ChildNotYet(f: Frame, r: SampleResult, ci: nat)
    requires ci < |r.children| && WellShaped(r) && ResultPlaced(f, r)
    ensures r.children[ci] !in ChildOutputs(r, ci)
  {
    ChildOutputsEntries(f, r, ci);
    DistinctNotBefore(r.children, ci);
  }

  lemma OutputsEntries(f: Frame, r: SampleResult)
    requires WellShaped(r) && ResultPlaced(f, r)
    ensures Entries(f, Outputs(r), Elems(r.children) + {r.parent})
  {
    var n := |r.children|;
    ChildOutputsEntries(f, r, n);
    assert r.children[..n] == r.children;
    if r.parentPts != [] {
      EntriesPut(f, ChildOutputs(r, n), Elems(r.children), r.parent, r.parentPts);
    }
  }

  lemma OutputsTotal(f: Frame, r: SampleResult)
    requires WellShaped(r) && ResultPlaced(f, r)
    ensures Total(Outputs(r)) == multiset(r.parentPts) + SumAll(r.remaining)
  {
    var n := |r.children|;
    ChildOutputsTotal(f, r, n);
    ChildOutputsEntries(f, r, n);
    assert r.children[..n] == r.children;
    assert r.remaining[..n] == r.remaining;
    var m := ChildOutputs(r, n);
    assert r.parent !in m;
    if r.parentPts != [] {
      TotalInsert(m, r.parent, r.parentPts);
    }
  }

  lemma {:induction false} EmptyRemaindersNoChildren(r: SampleResult, ci: nat)
    requires ci <= |r.children| && WellShaped(r) && AllEmpty(r.remaining)
    ensures ChildOutputs(r, ci) == map[]
  {
    if ci > 0 {
      EmptyRemaindersNoChildren(r, ci - 1);
    }
  }

  /** Put one result back: remainders to the children, the sample to the parent. */
  method ApplyOne(nodes: Nodes, r: SampleResult) returns (nodes': Nodes)
    requires WellShaped(r)
    ensures nodes' == nodes + Outputs(r)
  {
    nodes' := nodes;
    for ci := 0 to |r.children|
      invariant nodes' == nodes + ChildOutputs(r, ci)
    {
      if r.remaining[ci] != [] {
        nodes' := nodes'[r.children[ci] := r.remaining[ci]];
      }
    }
    if r.parentPts != [] {
      nodes' := nodes'[r.parent := r.parentPts];
    }
  }

  lemma AllOutputsTake(rest: Nodes, results: seq<SampleResult>, i: nat)
    requires i < |results| && forall j :: 0 <= j < |results| ==> WellShaped(results[j])
    ensures rest + AllOutputs(results[..i + 1]) == rest + AllOutputs(results[..i]) + Outputs(results[i])
  {
    assert results[..i + 1][..i] == results[..i];
  }

  method ApplyAll(rest: Nodes, results: seq<SampleResult>) returns (nodes: Nodes)
    requires forall i :: 0 <= i < |results| ==> WellShaped(results[i])
    ensures nodes == rest + AllOutputs(results)
  {
    nodes := rest;
    for i := 0 to |results|
      invariant nodes == rest + AllOutputs(results[..i])
    {
      AllOutputsTake(rest, results, i);
      nodes := ApplyOne(nodes, results[i]);
    }
    assert results[..|results|] == results;
  }

  ghost function ResultsTotal(results: seq<SampleResult>): multiset<RawPoint> {
    if results == [] then multiset{}
    else ResultsTotal(results[..|results| - 1]) +
         (multiset(results[|results| - 1].parentPts) + SumAll(results[|results| - 1].remaining))
  }

  /** Results at one level with distinct parents: their key sets are disjoint. */
  ghost predicate OneLevel(f: Frame, results: seq<SampleResult>, d: nat) {
    (forall i :: 0 <= i < |results| ==>
       WellShaped(results[i]) && ResultPlaced(f, results[i]) && results[i].parent.level == d) &&
    (forall i, j :: 0 <= i < j < |results| ==> results[i].parent != results[j].parent)
  }

  ghost function OutputKeys(results: seq<SampleResult>): set<VoxelKey> {
    if results == [] then {}
    else
      var last := results[|results| - 1];
      OutputKeys(results[..|results| - 1]) + Elems(last.children) + {last.parent}
  }

  lemma {:induction false} OutputKeysSource(results: seq<SampleResult>, k: VoxelKey) returns (i: nat)
    requires k in OutputKeys(results)
    ensures i < |results| && (k in results[i].children || k == results[i].parent)
  {
    i := |results| - 1;
    var last := results[i];
    if k !in Elems(last.children) + {last.parent} {
      i := OutputKeysSource(results[..i], k);
    }
  }

  /** A key shared by two families at one level forces the same parent. */
  lemma SameFamily(a: SampleResult, b: SampleResult, k: VoxelKey)
    requires WellShaped(a) && WellShaped(b) && a.parent.level == b.parent.level
    requires k in a.children || k == a.parent
    requires k in b.children || k == b.parent
    ensures a.parent == b.parent
  {
  }

  lemma LastIsFresh(f: Frame, results: seq<SampleResult>, d: nat, k: VoxelKey)
    requires OneLevel(f, results, d) && results != []
    requires var last := results[|results| - 1]; k in last.children || k == last.parent
    ensures k !in OutputKeys(results[..|results| - 1])
  {
    var n := |results| - 1;
    if k in OutputKeys(results[..n]) {
      var i := OutputKeysSource(results[..n], k);
      SameFamily(results[i], results[n], k);
    }
  }

  lemma EntriesUnion(f: Frame, a: Nodes, b: Nodes, ka: set<VoxelKey>, kb: set<VoxelKey>)
    requires Entries(f, a, ka) && Entries(f, b, kb)
    ensures Entries(f, a + b, ka + kb)
  {
  }

  lemma {:induction false} AllOutputsEntries(f: Frame, results: seq<SampleResult>, d: nat)
    requires OneLevel(f, results, d)
    ensures Entries(f, AllOutputs(results), OutputKeys(results))
  {
    if results != [] {
      var n := |results| - 1;
      AllOutputsEntries(f, results[..n], d);
      OutputsEntries(f, results[n]);
      EntriesUnion(f, AllOutputs(results[..n]), Outputs(results[n]), OutputKeys(results[..n]),
                   Elems(results[n].children) + {results[n].parent});
      assert OutputKeys(results) == OutputKeys(results[..n]) + (Elems(results[n].children) + {results[n].parent});
    }
  }

  lemma {:induction false} ChildOutputsReads(r: SampleResult, n: nat, ci: nat)
    requires ci < n <= |r.children| && WellShaped(r)
    ensures Get(ChildOutputs(r, n), r.children[ci]) == r.remaining[ci] && r.parent !in ChildOutputs(r, n)
  {
    if ci < n - 1 {
      ChildOutputsReads(r, n - 1, ci);
      assert r.children[ci] != r.children[n - 1];
    } else {
      ChildOutputsKeys(r, n - 1);
    }
    assert r.children[n - 1] in r.children;
  }

  lemma {:induction false} ChildOutputsKeys(r: SampleResult, n: nat)
    requires n <= |r.children| && WellShaped(r)
    ensures forall k :: k in ChildOutputs(r, n) ==> k in r.children[..n]
    ensures r.parent !in ChildOutputs(r, n) && (n < |r.children| ==> r.children[n] !in ChildOutputs(r, n))
  {
    if n > 0 {
      ChildOutputsKeys(r, n - 1);
      assert r.children[..n] == r.children[..n - 1] + [r.children[n - 1]];
      assert r.children[n - 1] in r.children;
    }
  }

  /** What a result puts back is what its keys read as. */
  lemma OutputsReads(r: SampleResult)
    requires WellShaped(r)
    ensures Get(Outputs(r), r.parent) == r.parentPts
    ensures forall ci :: 0 <= ci < |r.children| ==> Get(Outputs(r), r.children[ci]) == r.remaining[ci]
    ensures forall k :: k in Outputs(r) ==> k == r.parent || k in r.children
  {
    ChildOutputsKeys(r, |r.children|);
    forall ci | 0 <= ci < |r.children| ensures Get(Outputs(r), r.children[ci]) == r.remaining[ci] {
      ChildOutputsReads(r, |r.children|, ci);
      assert r.children[ci] in r.children;
    }
  }

  /** Results of different families do not touch each other's keys. */
  lemma {:induction false} AllOutputsReads(f: Frame, results: seq<SampleResult>, d: nat, i: nat, k: VoxelKey)
    requires OneLevel(f, results, d) && i < |results| && (k in results[i].children || k == results[i].parent)
    ensures Get(AllOutputs(results), k) == Get(Outputs(results[i]), k)
  {
    var n := |results| - 1;
    if i == n {
      AllOutputsEntries(f, results[..n], d);
      LastIsFresh(f, results, d, k);
    } else {
      AllOutputsReads(f, results[..n], d, i, k);
      OutputsReads(results[n]);
      if k in Outputs(results[n]) {
        SameFamily(results[i], results[n], k);
      }
    }
  }

  /** The stored nodes among the given keys. */
  function Restricted(m: Nodes, keys: set<VoxelKey>): Nodes {
    map k | k in m && k in keys :: m[k]
  }

  lemma RestrictedPlus(m: Nodes, keys: set<VoxelKey>, k: VoxelKey)
    requires k !in keys
    ensures Total(Restricted(m, keys + {k})) == Total(Restricted(m, keys)) + multiset(Get(m, k))
  {
    if k in m {
      assert Restricted(m, keys + {k}) == Restricted(m, keys)[k := m[k]];
      TotalInsert(Restricted(m, keys), k, m[k]);
    } else {
      assert Restricted(m, keys + {k}) == Restricted(m, keys);
    }
  }

  lemma {:induction false} ListsTotal(m: Nodes, children: seq<VoxelKey>)
    requires Distinct(children)
    ensures SumAll(ChildLists(m, children)) == Total(Restricted(m, Elems(children)))
  {
    if children == [] {
      assert Restricted(m, Elems(children)) == map[];
    } else {
      var n := |children| - 1;
      ListsTotal(m, children[..n]);
      assert ChildLists(m, children)[..n] == ChildLists(m, children[..n]);
      ElemsTake(children, n);
      assert children[..n + 1] == children;
      DistinctNotBefore(children, n);
      RestrictedPlus(m, Elems(children[..n]), children[n]);
    }
  }

  lemma {:induction false} AllOutputsTotal(f: Frame, results: seq<SampleResult>, d: nat)
    requires OneLevel(f, results, d)
    ensures Total(AllOutputs(results)) == ResultsTotal(results)
  {
    if results != [] {
      var n := |results| - 1;
      AllOutputsTotal(f, results[..n], d);
      AllOutputsEntries(f, results[..n], d);
      OutputsEntries(f, results[n]);
      OutputsTotal(f, results[n]);
      forall k | k in Outputs(results[n]) ensures k !in AllOutputs(results[..n]) {
        LastIsFresh(f, results, d, k);
      }
      TotalUnion(AllOutputs(results[..n]), Outputs(results[n]));
    }
  }

  lemma {:induction false} DistinctCount<T>(s: seq<T>)
    requires Distinct(s)
    ensures |Elems(s)| == |s|
  {
    if s != [] {
      var n := |s| - 1;
      DistinctCount(s[..n]);
      ElemsTake(s, n);
      assert s[..n + 1] == s;
      DistinctNotBefore(s, n);
    }
  }
}
