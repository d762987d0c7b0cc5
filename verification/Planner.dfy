/** The bottom-up collapse of the counting grid into chunk roots (`merge_sparse_cells` of
    src/chunking.rs), proved to emit exactly the maximal cells that fit the target. */
module Planner {
  import opened Arith
  import opened Voxel
  import opened Levels
  import opened PlanGrid
  import opened SubSplit

  const SENTINEL: int := -1

  /** Meaning of an entry of the pyramid: the population, or the sentinel above the target. The
      finest level always holds the raw population. */
  function Value(g: Grid, target: nat, k: VoxelKey): int {
    if k.level < g.depth && Pop(g, k) > target then SENTINEL else Pop(g, k)
  }

  /** A populated cell that fits the target, or cannot be divided within the grid, whose parent
      does not fit. */
  predicate Maximal(g: Grid, target: nat, k: VoxelKey) {
    k.level <= g.depth && InRange(k) && Pop(g, k) > 0 &&
    (Pop(g, k) <= target || k.level == g.depth) &&
    (k.level > 0 ==> Pop(g, Parent(k).value) > target)
  }

  function AtI(row: seq<int>, i: nat): int {
    if i < |row| then row[i] else 0
  }

  /** One level of the pyramid. */
  ghost predicate Row(g: Grid, target: nat, level: nat, row: seq<int>) {
    |row| == Pow8(level) &&
    forall k: VoxelKey :: k.level == level && InRange(k) ==> AtI(row, FlatKey(k)) == Value(g, target, k)
  }

  /** The chunks of a list of cells. */
  function EmitAll(g: Grid, target: nat, cells: seq<VoxelKey>): seq<Chunk> {
    if cells == [] then []
    else
      var n := |cells| - 1;
      EmitAll(g, target, cells[..n]) + Emit(g.depth, target, cells[n], Pop(g, cells[n]))
  }

  /** Maximal cells met so far: every deeper level, the children of the first `i` parents of this
      level, and the first `o` children of parent `i`. */
  predicate Reached(g: Grid, target: nat, level: nat, i: nat, o: nat, k: VoxelKey) {
    Maximal(g, target, k) &&
    (k.level > level || (k.level == level > 0 && Earlier(FlatKey(Parent(k).value), OctantOf(k), i, o)))
  }

  /** Child `b` of parent `a` comes before child `o` of parent `i`. */
  predicate Earlier(a: nat, b: nat, i: nat, o: nat) {
    a < i || (a == i && b < o)
  }

  ghost predicate Listing(g: Grid, target: nat, cells: seq<VoxelKey>, chunks: seq<Chunk>, level: nat, i: nat, o: nat) {
    Distinct(cells) && (forall k :: k in cells <==> Reached(g, target, level, i, o, k)) &&
    chunks == EmitAll(g, target, cells)
  }

  lemma ListingAdd(g: Grid, target: nat, cells: seq<VoxelKey>, chunks: seq<Chunk>, level: nat, i: nat, o: nat,
                   p: VoxelKey, c: VoxelKey, cs: seq<Chunk>)
    requires Listing(g, target, cells, chunks, level, i, o) && o < 8 && c == Child(p, o)
    requires InRange(p) && p.level + 1 == level && FlatKey(p) == i && Maximal(g, target, c)
    requires cs == Emit(g.depth, target, c, Pop(g, c))
    ensures Listing(g, target, cells + [c], chunks + cs, level, i, o + 1)
  {
    forall k ensures Reached(g, target, level, i, o + 1, k) <==> Reached(g, target, level, i, o, k) || k == c {
      ReachedNext(g, target, level, i, o, p, k);
    }
    ChildFacts(p, o);
    DistinctSnoc(cells, c);
    EmitAllSnoc(g, target, cells, c);
  }

  lemma DistinctSnoc<T>(list: seq<T>, x: T)
    requires Distinct(list) && x !in list
    ensures Distinct(list + [x])
    ensures forall y :: y in list + [x] <==> y in list || y == x
  {
  }

  lemma EmitAllSnoc(g: Grid, target: nat, cells: seq<VoxelKey>, c: VoxelKey)
    ensures EmitAll(g, target, cells + [c]) == EmitAll(g, target, cells) + Emit(g.depth, target, c, Pop(g, c))
  {
    assert (cells + [c])[..|cells|] == cells;
  }

  lemma ListingWithout(g: Grid, target: nat, cells: seq<VoxelKey>, chunks: seq<Chunk>, level: nat, i: nat, o: nat, p: VoxelKey)
    requires Listing(g, target, cells, chunks, level, i, o) && o < 8
    requires InRange(p) && p.level + 1 == level && FlatKey(p) == i && !Maximal(g, target, Child(p, o))
    ensures Listing(g, target, cells, chunks, level, i, o + 1)
  {
    forall k ensures Reached(g, target, level, i, o + 1, k) <==> Reached(g, target, level, i, o, k) {
      ReachedNext(g, target, level, i, o, p, k);
    }
  }

  lemma ReachedNext(g: Grid, target: nat, level: nat, i: nat, o: nat, p: VoxelKey, k: VoxelKey)
    requires o < 8 && InRange(p) && p.level + 1 == level && FlatKey(p) == i
    ensures Reached(g, target, level, i, o + 1, k) <==>
            Reached(g, target, level, i, o, k) || (k == Child(p, o) && Maximal(g, target, k))
  {
    ChildFacts(p, o);
    if Maximal(g, target, k) && k.level == level {
      EarlierNext(k, p, i, o);
    }
  }

  lemma EarlierNext(k: VoxelKey, p: VoxelKey, i: nat, o: nat)
    requires InRange(k) && InRange(p) && k.level == p.level + 1 && FlatKey(p) == i && o < 8
    ensures Earlier(FlatKey(Parent(k).value), OctantOf(k), i, o + 1) <==>
            Earlier(FlatKey(Parent(k).value), OctantOf(k), i, o) || k == Child(p, o)
  {
    ChildFacts(p, o);
    if FlatKey(Parent(k).value) == i {
      ParentByIndex(k, p);
    }
  }

  /** A cell whose parent has `p`'s index is the child of `p` that its octant names. */
  lemma ParentByIndex(k: VoxelKey, p: VoxelKey)
    requires InRange(k) && InRange(p) && k.level == p.level + 1 && FlatKey(Parent(k).value) == FlatKey(p)
    ensures Parent(k) == Some(p) && OctantOf(k) < 8 && k == Child(p, OctantOf(k))
  {
    ChildOfParent(k);
    FlatKeyInjective(Parent(k).value, p);
  }

  /** All eight children done: the next parent. */
  lemma ListingNext(g: Grid, target: nat, cells: seq<VoxelKey>, chunks: seq<Chunk>, level: nat, i: nat)
    requires Listing(g, target, cells, chunks, level, i, 8)
    ensures Listing(g, target, cells, chunks, level, i + 1, 0)
  {
    forall k ensures Reached(g, target, level, i, 8, k) <==> Reached(g, target, level, i + 1, 0, k) {
      if k.level > 0 { ChildOfParent(k); }
    }
  }

  /** A parent that fits has no maximal children. */
  lemma ListingSkip(g: Grid, target: nat, cells: seq<VoxelKey>, chunks: seq<Chunk>, level: nat, i: nat, p: VoxelKey)
    requires Listing(g, target, cells, chunks, level, i, 0)
    requires InRange(p) && p.level + 1 == level && FlatKey(p) == i && Pop(g, p) <= target
    ensures Listing(g, target, cells, chunks, level, i + 1, 0)
  {
    forall k ensures Reached(g, target, level, i, 0, k) <==> Reached(g, target, level, i + 1, 0, k) {
      if Maximal(g, target, k) && k.level == level && FlatKey(Parent(k).value) == i {
        ChildOfParent(k);
        FlatKeyInjective(Parent(k).value, p);
      }
    }
  }

  /** A whole level done: the level above. */
  lemma ListingUp(g: Grid, target: nat, cells: seq<VoxelKey>, chunks: seq<Chunk>, level: nat, n: nat)
    requires level > 0 && n == Pow8(level - 1) && Listing(g, target, cells, chunks, level, n, 0)
    ensures Listing(g, target, cells, chunks, level - 1, 0, 0)
  {
    var up: nat := level - 1;
    forall k ensures Reached(g, target, level, n, 0, k) <==> Reached(g, target, up, 0, 0, k) {
      if Maximal(g, target, k) && k.level == level {
        ChildOfParent(k);
        FlatKeyInRange(Parent(k).value);
      }
    }
  }

  /** The children gathered so far. */
  ghost predicate Gathered(g: Grid, target: nat, p: VoxelKey, o: nat, pops: seq<int>, sum: int, blocked: bool)
    requires p.level < g.depth && o <= 8
  {
    |pops| == o && (forall i: nat :: i < o ==> pops[i] == Value(g, target, Child(p, i))) &&
    (blocked ==> Pop(g, p) > target) && (!blocked ==> sum == PopSum(g, p, o))
  }

  lemma GatherStep(g: Grid, target: nat, p: VoxelKey, o: nat, pops: seq<int>, sum: int, blocked: bool, pop: int)
    requires p.level < g.depth && o < 8 && Gathered(g, target, p, o, pops, sum, blocked)
    requires pop == Value(g, target, Child(p, o))
    ensures Gathered(g, target, p, o + 1, pops + [pop], if pop == SENTINEL then sum else sum + pop,
                     blocked || pop == SENTINEL)
  {
    PopSumAtLeast(g, p, 8, o);
  }

  method Gather(ghost g: Grid, ghost target: nat, current: array<int>, size: nat, p: VoxelKey)
    returns (pops: seq<int>, sum: int, blocked: bool)
    requires InRange(p) && p.level < g.depth && size == Pow2(p.level + 1)
    requires Row(g, target, p.level + 1, current[..])
    ensures Gathered(g, target, p, 8, pops, sum, blocked)
  {
    pops, sum, blocked := [], 0, false;
    for o := 0 to 8
      invariant Gathered(g, target, p, o, pops, sum, blocked)
    {
      var c := Child(p, o);
      ChildFacts(p, o);
      FlatKeyInRange(c);
      var idx := c.x + c.y * size + c.z * size * size;
      var pop := current[idx];
      assert pop == AtI(current[..], FlatKey(c));
      GatherStep(g, target, p, o, pops, sum, blocked, pop);
      pops := pops + [pop];
      if pop == SENTINEL {
        blocked := true;
      } else {
        sum := sum + pop;
      }
    }
  }

  /** Each populated, unblocked child of a blocked parent becomes a chunk root. */
  method EmitChildren(ghost g: Grid, depth: nat, target: nat, p: VoxelKey, pops: seq<int>,
                      chunks0: seq<Chunk>, ghost cells0: seq<VoxelKey>)
    returns (chunks: seq<Chunk>, ghost cells: seq<VoxelKey>)
    requires depth == g.depth && InRange(p) && p.level < depth && Pop(g, p) > target
    requires |pops| == 8 && forall i: nat :: i < 8 ==> pops[i] == Value(g, target, Child(p, i))
    requires Listing(g, target, cells0, chunks0, p.level + 1, FlatKey(p), 0)
    ensures Listing(g, target, cells, chunks, p.level + 1, FlatKey(p) + 1, 0)
  {
    chunks, cells := chunks0, cells0;
    for o := 0 to 8
      invariant Listing(g, target, cells, chunks, p.level + 1, FlatKey(p), o)
    {
      var c := Child(p, o);
      ChildFacts(p, o);
      if pops[o] > 0 {
        ListingAdd(g, target, cells, chunks, p.level + 1, FlatKey(p), o, p, c, Emit(depth, target, c, pops[o]));
        chunks := EmitChunkRoot(chunks, depth, target, c, pops[o]);
        cells := cells + [c];
      } else {
        ListingWithout(g, target, cells, chunks, p.level + 1, FlatKey(p), o, p);
      }
    }
    ListingNext(g, target, cells, chunks, p.level + 1, FlatKey(p));
  }

  /** Progress of one level: the first `i` parents are computed and their children listed. */
  ghost predicate Progress(g: Grid, target: nat, level: nat, i: nat, parent: seq<int>, cells: seq<VoxelKey>, chunks: seq<Chunk>)
    requires level > 0
  {
    |parent| == Pow8(level - 1) && Listing(g, target, cells, chunks, level, i, 0) &&
    forall k: VoxelKey :: k.level == level - 1 && InRange(k) ==>
      AtI(parent, FlatKey(k)) == if FlatKey(k) < i then Value(g, target, k) else 0
  }

  lemma ProgressStep(g: Grid, target: nat, level: nat, p: VoxelKey, parent: seq<int>, parent': seq<int>,
                     cells: seq<VoxelKey>, chunks: seq<Chunk>, cells': seq<VoxelKey>, chunks': seq<Chunk>)
    requires InRange(p) && p.level + 1 == level && Progress(g, target, level, FlatKey(p), parent, cells, chunks)
    requires FlatKey(p) < |parent| && parent' == parent[FlatKey(p) := Value(g, target, p)]
    requires Listing(g, target, cells', chunks', level, FlatKey(p) + 1, 0)
    ensures Progress(g, target, level, FlatKey(p) + 1, parent', cells', chunks')
  {
    forall k: VoxelKey | k.level == level - 1 && InRange(k)
      ensures AtI(parent', FlatKey(k)) == if FlatKey(k) < FlatKey(p) + 1 then Value(g, target, k) else 0
    {
      FlatKeyInRange(k);
      if FlatKey(k) == FlatKey(p) {
        FlatKeyInjective(k, p);
      } else {
        assert AtI(parent', FlatKey(k)) == AtI(parent, FlatKey(k));
      }
    }
  }

  /** Collapse the children of one parent. */
  method CollapseCell(ghost g: Grid, depth: nat, target: nat, current: array<int>, size: nat, parent: array<int>, p: VoxelKey,
                      chunks0: seq<Chunk>, ghost cells0: seq<VoxelKey>)
    returns (chunks: seq<Chunk>, ghost cells: seq<VoxelKey>)
    requires depth == g.depth && InRange(p) && p.level < depth && size == Pow2(p.level + 1) && current != parent
    requires Row(g, target, p.level + 1, current[..])
    requires Progress(g, target, p.level + 1, FlatKey(p), parent[..], cells0, chunks0)
    modifies parent
    ensures Progress(g, target, p.level + 1, FlatKey(p) + 1, parent[..], cells, chunks)
  {
    ghost var was := parent[..];
    var pops, sum, blocked := Gather(g, target, current, size, p);
    chunks, cells := chunks0, cells0;
    var parentSize := Pow2(p.level);
    var parentIdx := p.x + p.y * parentSize + p.z * parentSize * parentSize;
    FlatKeyInRange(p);
    assert was[parentIdx] == AtI(was, FlatKey(p)) == 0;
    if blocked || sum > target {
      chunks, cells := EmitChildren(g, depth, target, p, pops, chunks0, cells0);
      parent[parentIdx] := SENTINEL;
    } else {
      ListingSkip(g, target, cells, chunks, p.level + 1, FlatKey(p), p);
      if sum > 0 {
        parent[parentIdx] := sum;
      }
    }
    assert parent[..] == was[parentIdx := Value(g, target, p)];
    ProgressStep(g, target, p.level + 1, p, was, parent[..], cells0, chunks0, cells, chunks);
  }

  method CollapseRow(ghost g: Grid, depth: nat, target: nat, level: nat, current: array<int>, size: nat, parent: array<int>,
                     py: nat, pz: nat, chunks0: seq<Chunk>, ghost cells0: seq<VoxelKey>)
    returns (chunks: seq<Chunk>, ghost cells: seq<VoxelKey>)
    requires depth == g.depth && 0 < level <= depth && size == Pow2(level) && current != parent
    requires py < Pow2(level - 1) && pz < Pow2(level - 1) && Row(g, target, level, current[..])
    requires Progress(g, target, level, Flat(0, py, pz, Pow2(level - 1)), parent[..], cells0, chunks0)
    modifies parent
    ensures Progress(g, target, level, Flat(0, py + 1, pz, Pow2(level - 1)), parent[..], cells, chunks)
  {
    chunks, cells := chunks0, cells0;
    for px := 0 to Pow2(level - 1)
      invariant Progress(g, target, level, Flat(px, py, pz, Pow2(level - 1)), parent[..], cells, chunks)
    {
      chunks, cells :=
        CollapseCell(g, depth, target, current, size, parent, VoxelKey(level - 1, px, py, pz), chunks, cells);
    }
    RowMajor(Pow2(level - 1), py, pz);
  }

  method CollapsePlane(ghost g: Grid, depth: nat, target: nat, level: nat, current: array<int>, size: nat, parent: array<int>,
                       pz: nat, chunks0: seq<Chunk>, ghost cells0: seq<VoxelKey>)
    returns (chunks: seq<Chunk>, ghost cells: seq<VoxelKey>)
    requires depth == g.depth && 0 < level <= depth && size == Pow2(level) && current != parent
    requires pz < Pow2(level - 1) && Row(g, target, level, current[..])
    requires Progress(g, target, level, Flat(0, 0, pz, Pow2(level - 1)), parent[..], cells0, chunks0)
    modifies parent
    ensures Progress(g, target, level, Flat(0, 0, pz + 1, Pow2(level - 1)), parent[..], cells, chunks)
  {
    chunks, cells := chunks0, cells0;
    for py := 0 to Pow2(level - 1)
      invariant Progress(g, target, level, Flat(0, py, pz, Pow2(level - 1)), parent[..], cells, chunks)
    {
      chunks, cells := CollapseRow(g, depth, target, level, current, size, parent, py, pz, chunks, cells);
    }
    RowMajor(Pow2(level - 1), 0, pz);
  }

  lemma ProgressStart(g: Grid, target: nat, level: nat, parent: seq<int>, cells: seq<VoxelKey>, chunks: seq<Chunk>)
    requires level > 0 && |parent| == Pow8(level - 1) && (forall j :: 0 <= j < |parent| ==> parent[j] == 0)
    requires Listing(g, target, cells, chunks, level, 0, 0)
    ensures Progress(g, target, level, 0, parent, cells, chunks)
  {
  }

  lemma ProgressDone(g: Grid, target: nat, level: nat, parent: seq<int>, cells: seq<VoxelKey>, chunks: seq<Chunk>)
    requires level > 0 && Progress(g, target, level, Pow8(level - 1), parent, cells, chunks)
    ensures Row(g, target, level - 1, parent) && Listing(g, target, cells, chunks, level - 1, 0, 0)
  {
    ListingUp(g, target, cells, chunks, level, Pow8(level - 1));
    forall k: VoxelKey | k.level == level - 1 && InRange(k) ensures AtI(parent, FlatKey(k)) == Value(g, target, k) {
      FlatKeyInRange(k);
    }
  }

  /** One level of the collapse. */
  method CollapseLevel(ghost g: Grid, depth: nat, target: nat, level: nat, current: array<int>,
                       chunks0: seq<Chunk>, ghost cells0: seq<VoxelKey>)
    returns (parent: array<int>, chunks: seq<Chunk>, ghost cells: seq<VoxelKey>)
    requires depth == g.depth && 0 < level <= depth && Row(g, target, level, current[..])
    requires Listing(g, target, cells0, chunks0, level, 0, 0)
    ensures Row(g, target, level - 1, parent[..]) && Listing(g, target, cells, chunks, level - 1, 0, 0)
  {
    parent := new int[Pow8(level - 1)](_ => 0);
    chunks, cells := chunks0, cells0;
    RowMajor(Pow2(level - 1), 0, 0);
    ProgressStart(g, target, level, parent[..], cells, chunks);
    for pz := 0 to Pow2(level - 1)
      invariant Progress(g, target, level, Flat(0, 0, pz, Pow2(level - 1)), parent[..], cells, chunks)
    {
      chunks, cells := CollapsePlane(g, depth, target, level, current, Pow2(level), parent, pz, chunks, cells);
    }
    ProgressDone(g, target, level, parent[..], cells, chunks);
  }

  lemma FinestRow(g: Grid, target: nat, row: seq<int>)
    requires GridOk(g) && |row| == |g.counts| && forall i :: 0 <= i < |row| ==> row[i] == g.counts[i]
    ensures Row(g, target, g.depth, row) && Listing(g, target, [], [], g.depth, 0, 0)
  {
    forall k: VoxelKey | k.level == g.depth && InRange(k) ensures AtI(row, FlatKey(k)) == Value(g, target, k) {
      FlatKeyInRange(k);
    }
  }

  /** The plan: exactly the maximal cells, each emitted once. */
  ghost predicate Plan(g: Grid, target: nat, cells: seq<VoxelKey>, chunks: seq<Chunk>) {
    Distinct(cells) && (forall k :: k in cells <==> Maximal(g, target, k)) && chunks == EmitAll(g, target, cells)
  }

  /** The single cell of level 0. */
  method RootCell() returns (root: VoxelKey)
    ensures root.level == 0 && InRange(root) && FlatKey(root) == 0 && Pow8(0) == 1
  {
    root := ROOT;
    Pow8Zero();
    FlatKeyInRange(root);
  }

  lemma Pow8Zero()
    ensures Pow8(0) == 1
  {
    assert Pow2(0) == 1;
  }

  lemma RootEntry(g: Grid, target: nat, row: seq<int>, r: VoxelKey)
    requires Row(g, target, 0, row) && r.level == 0 && InRange(r) && FlatKey(r) == 0 && Pow8(0) == 1
    ensures |row| == 1 && row[0] == Value(g, target, r)
  {
    assert AtI(row, FlatKey(r)) == Value(g, target, r);
  }

  lemma RootMaximal(g: Grid, target: nat, r: VoxelKey)
    requires r.level == 0 && InRange(r)
    ensures Value(g, target, r) > 0 <==> Maximal(g, target, r)
    ensures Value(g, target, r) > 0 ==> Value(g, target, r) == Pop(g, r)
  {
  }

  lemma PlanDone(g: Grid, target: nat, cells: seq<VoxelKey>, chunks: seq<Chunk>, r: VoxelKey)
    requires r.level == 0 && InRange(r) && Listing(g, target, cells, chunks, 0, 0, 0)
    ensures Maximal(g, target, r) ==> Plan(g, target, cells + [r], chunks + Emit(g.depth, target, r, Pop(g, r)))
    ensures !Maximal(g, target, r) ==> Plan(g, target, cells, chunks)
  {
    forall k ensures Maximal(g, target, k) <==> Reached(g, target, 0, 0, 0, k) || (k == r && Maximal(g, target, r)) {
      if Maximal(g, target, k) && k.level == 0 {
        LevelZero(k, r);
      }
    }
    EmitAllSnoc(g, target, cells, r);
    if Maximal(g, target, r) {
      DistinctSnoc(cells, r);
    }
  }

  lemma LevelZero(k: VoxelKey, r: VoxelKey)
    requires k.level == 0 == r.level && InRange(k) && InRange(r)
    ensures k == r
  {
  }

  /** The last step: the whole data set as one chunk. */
  method EmitRoot(ghost g: Grid, depth: nat, target: nat, root: VoxelKey, current: array<int>,
                  chunks0: seq<Chunk>, ghost cells0: seq<VoxelKey>)
    returns (chunks: seq<Chunk>, ghost cells: seq<VoxelKey>)
    requires root.level == 0 && InRange(root) && FlatKey(root) == 0 && Pow8(0) == 1
    requires depth == g.depth && Row(g, target, 0, current[..]) && Listing(g, target, cells0, chunks0, 0, 0, 0)
    ensures Plan(g, target, cells, chunks)
  {
    chunks, cells := chunks0, cells0;
    RootEntry(g, target, current[..], root);
    RootMaximal(g, target, root);
    PlanDone(g, target, cells, chunks, root);
    var rootPop := current[0];
    if rootPop > 0 {
      chunks := EmitChunkRoot(chunks, depth, target, root, rootPop);
      cells := cells + [root];
    }
  }

  /** Every level from the finest to the root. */
  method CollapseAll(grid: array<nat>, depth: nat, target: nat) returns (chunks: seq<Chunk>, ghost cells: seq<VoxelKey>)
    requires GridOk(Grid(depth, grid[..]))
    ensures Plan(Grid(depth, grid[..]), target, cells, chunks)
  {
    ghost var g := Grid(depth, grid[..]);
    var current := new int[grid.Length](i requires 0 <= i < grid.Length reads grid => grid[i]);
    FinestRow(g, target, current[..]);
    chunks, cells := [], [];
    var level: nat := depth;
    while level > 0
      invariant level <= depth && Row(g, target, level, current[..])
      invariant Listing(g, target, cells, chunks, level, 0, 0)
    {
      current, chunks, cells := CollapseLevel(g, depth, target, level, current, chunks, cells);
      level := level - 1;
    }
    var root := RootCell();
    chunks, cells := EmitRoot(g, depth, target, root, current, chunks, cells);
  }

  /** `merge_sparse_cells`: the chunks are those of the maximal cells, each emitted once. */
  method MergeSparseCells(grid: array<nat>, depth: nat, target: nat) returns (chunks: seq<Chunk>)
    requires GridOk(Grid(depth, grid[..]))
    ensures exists cells :: Plan(Grid(depth, grid[..]), target, cells, chunks)
  {
    ghost var cells: seq<VoxelKey>;
    chunks, cells := CollapseAll(grid, depth, target);
  }
}
