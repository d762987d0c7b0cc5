/** How many chunks a plan can have, and the inputs for which chunk numbers and chunk sizes fit
    the 32-bit words that carry them. */
module PlanBounds {
  import opened Arith
  import opened Voxel
  import opened Points
  import opened NodeMap
  import opened Sampling
  import opened SplitLevel
  import opened Spill
  import opened Leaves
  import opened ChunkBuild
  import opened PlanGrid
  import opened SubSplit
  import opened Planner
  import opened PlanFacts
  import opened Routing

  /** A split is only as deep as the population needs. */
  lemma {:induction false} SplitDepthNeeded(pop: nat, target: nat, k: nat)
    requires k <= SPLIT_LEVEL_CAP && SplitDepth(pop, target, k) > k
    ensures pop > target * Pow8(SplitDepth(pop, target, k) - 1)
    decreases SPLIT_LEVEL_CAP - k
  {
    if SplitDepth(pop, target, k + 1) > k + 1 {
      SplitDepthNeeded(pop, target, k + 1);
    }
  }

  /** Chunks emitted for a cell. */
  function EmitCount(g: Grid, target: nat): VoxelKey -> nat {
    k => |Emit(g.depth, target, k, Pop(g, k))|
  }

  lemma {:induction false} LengthOfCells(g: Grid, target: nat, cells: seq<VoxelKey>, root: VoxelKey)
    requires forall c :: c in cells ==> Under(c, root)
    ensures |EmitAll(g, target, cells)| == ListedBelow(EmitCount(g, target), cells, root)
  {
    if cells != [] {
      LengthOfCells(g, target, cells[..|cells| - 1], root);
      assert cells[|cells| - 1] in cells;
    }
  }

  lemma TimesEightOf(t: nat, a: nat, b: nat)
    requires b == 8 * a
    ensures t * b == 8 * (t * a)
  {
  }

  /** One cell's chunks: a single one, or few enough for the points they share. */
  lemma EmitBound(depth: nat, target: nat, k: VoxelKey, pop: nat)
    ensures target * |Emit(depth, target, k, pop)| <= target + 8 * pop
  {
    var e := if k.level == depth then SplitDepth(pop, target, 0) else 0;
    if e > 0 {
      SplitDepthNeeded(pop, target, 0);
      Pow8Step(e - 1);
      TimesEightOf(target, Pow8(e - 1), Pow8(e));
    }
  }

  /** `d` levels of points, eight to the target each. */
  function Charge(d: nat, pop: nat): nat {
    8 * (d * pop)
  }

  lemma ChargeStep(d: nat, a: nat, b: nat)
    ensures Charge(d, a + b) == Charge(d, a) + Charge(d, b) && Charge(d + 1, a) == Charge(d, a) + 8 * a
  {
    assert d * (a + b) == d * a + d * b;
    assert (d + 1) * a == d * a + a;
  }

  /** `n` chunks are about one per target of points: eight for each of the `depth + 1` levels, and
      one more. */
  predicate PerTarget(target: nat, n: nat, depth: nat, points: nat) {
    target * n <= target + Charge(depth + 1, points)
  }

  /** `e` chunks are paid for by `n` targets and `d` levels of `pop` points. */
  ghost predicate Paid(t: nat, e: nat, n: nat, d: nat, pop: nat) {
    t * e <= n * t + Charge(d, pop)
  }

  lemma PaidNothing(t: nat, d: nat)
    ensures Paid(t, 0, 0, d, 0)
  {
  }

  lemma AddBounds(t: nat, a: nat, b: nat, o: nat, d: nat, x: nat, y: nat)
    requires o > 0 && Paid(t, a, o - 1, d, x) && Paid(t, b, 1, d, y)
    ensures Paid(t, a + b, o, d, x + y)
  {
    ChargeStep(d, x, y);
    assert t * (a + b) == t * a + t * b;
    assert o * t == (o - 1) * t + t;
  }

  /** Below a cell with an oversized parent the chunks are paid for by its points. */
  lemma {:induction false} BoundBelow(g: Grid, target: nat, cells: seq<VoxelKey>, k: VoxelKey)
    requires ListsMaximal(g, target, cells) && InRange(k) && k.level <= g.depth
    requires k.level > 0 ==> Pop(g, Parent(k).value) > target
    ensures Paid(target, ListedBelow(EmitCount(g, target), cells, k), 1, g.depth - k.level + 1, Pop(g, k))
    decreases g.depth - k.level, 9
  {
    var w := EmitCount(g, target);
    ChargeStep(g.depth - k.level, Pop(g, k), 0);
    if Pop(g, k) == 0 {
      NothingBelowEmpty(g, target, cells, k);
      ListedNone(w, cells, k);
    } else if Maximal(g, target, k) {
      OnlySelfBelow(g, target, cells, k);
      ListedSelf(w, cells, k);
      EmitBound(g.depth, target, k, Pop(g, k));
    } else {
      ListedByChildren(w, cells, k);
      SumBoundBelow(g, target, cells, k, 8);
    }
  }

  lemma {:induction false} SumBoundBelow(g: Grid, target: nat, cells: seq<VoxelKey>, k: VoxelKey, o: nat)
    requires ListsMaximal(g, target, cells) && InRange(k) && k.level < g.depth && o <= 8 && Pop(g, k) > target
    ensures Paid(target, ListedBelowSum(EmitCount(g, target), cells, k, o), o, g.depth - k.level, PopSum(g, k, o))
    decreases g.depth - k.level, o
  {
    var w, d := EmitCount(g, target), g.depth - k.level;
    if o == 0 {
      PaidNothing(target, d);
    } else {
      SumBoundBelow(g, target, cells, k, o - 1);
      ChildBoundBelow(g, target, cells, k, o - 1);
      AddBounds(target, ListedBelowSum(w, cells, k, o - 1), ListedBelow(w, cells, Child(k, o - 1)), o,
                d, PopSum(g, k, o - 1), Pop(g, Child(k, o - 1)));
    }
  }

  lemma {:induction false} ChildBoundBelow(g: Grid, target: nat, cells: seq<VoxelKey>, k: VoxelKey, o: nat)
    requires ListsMaximal(g, target, cells) && InRange(k) && k.level < g.depth && o < 8 && Pop(g, k) > target
    ensures Paid(target, ListedBelow(EmitCount(g, target), cells, Child(k, o)), 1, g.depth - k.level, Pop(g, Child(k, o)))
    decreases g.depth - k.level, 0
  {
    ChildFacts(k, o);
    BoundBelow(g, target, cells, Child(k, o));
  }

  lemma PopWithinCount(f: Frame, pts: seq<RawPoint>, g: Grid, root: VoxelKey)
    requires CellsTallied(f, pts, g) && root == ROOT
    ensures Pop(g, root) <= |pts|
  {
    InRangeOfRoot(root);
    PopAtMostCount(f, pts, g, root);
    RootCount(f, pts);
  }

  /** A plan has about one chunk per target of points: every maximal cell but the root is there
      because its parent exceeds the target, and a split cell because it holds that many. */
  lemma ChunksPerTarget(f: Frame, pts: seq<RawPoint>, g: Grid, target: nat, cells: seq<VoxelKey>, chunks: seq<Chunk>, root: VoxelKey)
    requires CellsTallied(f, pts, g) && Plan(g, target, cells, chunks) && root == ROOT
    ensures PerTarget(target, |chunks|, g.depth, |pts|)
  {
    forall c | c in cells ensures Under(c, root) {
      InRangeUnderRoot(c);
    }
    LengthOfCells(g, target, cells, root);
    InRangeOfRoot(root);
    BoundBelow(g, target, cells, root);
    PopWithinCount(f, pts, g, root);
    ChargeGrows(g.depth + 1, Pop(g, root), |pts|);
  }

  lemma ChargeGrows(d: nat, a: nat, b: nat)
    requires a <= b
    ensures Charge(d, a) <= Charge(d, b)
  {
    MulLe(a, b, d);
  }

  /** Most chunks a plan can have per counted point. */
  function Fanout(target: nat): (n: nat)
    ensures n > 0
  {
    if target >= 8 then 1 else if target >= 1 then 8 else 262144
  }

  lemma DeepestFanout()
    ensures Pow8(SPLIT_LEVEL_CAP) == 262144
  {
    assert Pow2(3) == 8;
    assert Pow2(6) == 64;
  }

  lemma {:induction false} Pow8Monotone(a: nat, b: nat)
    requires a <= b
    ensures Pow8(a) <= Pow8(b)
  {
    if a < b {
      Pow8Monotone(a, b - 1);
      Pow8Step(b - 1);
    }
  }

  lemma EmitNoLarger(depth: nat, target: nat, k: VoxelKey, pop: nat)
    requires pop > 0
    ensures |Emit(depth, target, k, pop)| <= pop * Fanout(target)
  {
    MulAtLeast(Fanout(target), pop);
    var e := if k.level == depth then SplitDepth(pop, target, 0) else 0;
    if e > 0 {
      if target == 0 {
        Pow8Monotone(e, SPLIT_LEVEL_CAP);
        DeepestFanout();
        MulAtLeast(pop, 262144);
      } else {
        SplitDepthNeeded(pop, target, 0);
        Pow8Step(e - 1);
        MulLe(if target >= 8 then 8 else 1, target, Pow8(e - 1));
      }
    }
  }

  lemma {:induction false} PlanNoLarger(g: Grid, target: nat, cells: seq<VoxelKey>)
    requires forall c :: c in cells ==> Pop(g, c) > 0
    ensures |EmitAll(g, target, cells)| <= Estimates(EmitAll(g, target, cells)) * Fanout(target)
  {
    if cells != [] {
      var n := |cells| - 1;
      PlanNoLarger(g, target, cells[..n]);
      assert cells[n] in cells;
      EmitNoLarger(g.depth, target, cells[n], Pop(g, cells[n]));
      EmitConserves(g.depth, target, cells[n], Pop(g, cells[n]));
      NoLargerJoin(EmitAll(g, target, cells[..n]), Emit(g.depth, target, cells[n], Pop(g, cells[n])), Fanout(target));
    }
  }

  lemma NoLargerJoin(a: seq<Chunk>, b: seq<Chunk>, fan: nat)
    requires |a| <= Estimates(a) * fan && |b| <= Estimates(b) * fan
    ensures |a + b| <= Estimates(a + b) * fan
  {
    EstimatesAppend(a, b);
    SumTimes(Estimates(a), Estimates(b), fan);
  }

  lemma SumTimes(a: nat, b: nat, c: nat)
    ensures (a + b) * c == a * c + b * c
  {
  }

  /** With a target of at least 8 a plan never has more chunks than points. */
  lemma PlanSize(f: Frame, pts: seq<RawPoint>, g: Grid, target: nat, cells: seq<VoxelKey>, chunks: seq<Chunk>, root: VoxelKey)
    requires CellsTallied(f, pts, g) && Plan(g, target, cells, chunks) && root == ROOT
    ensures |chunks| <= |pts| * Fanout(target)
  {
    PlanNoLarger(g, target, cells);
    EstimatesTotal(g, target, cells, chunks, root);
    PopWithinCount(f, pts, g, root);
    MulLe(Pop(g, root), |pts|, Fanout(target));
  }

  /** Every chunk of every plan for these points has a 32-bit index beside the two sentinels, and
      holds fewer than `2^32` points. */
  ghost predicate PlansFit(f: Frame, pts: seq<RawPoint>, depth: nat, target: nat, cap: nat) {
    depth <= MAX_LEVEL &&
    forall g: Grid, cells: seq<VoxelKey>, chunks: seq<Chunk> :: g.depth == depth && CellsTallied(f, pts, g) && Plan(g, target, cells, chunks) ==>
      |chunks| <= SUBSPLIT_MARKER && PartsFit(f, pts, chunks, cap)
  }

  /** Chunks of at most `cap` points, below `2^32`, with room for the levels of their subtrees. */
  ghost predicate PartsFit(f: Frame, pts: seq<RawPoint>, chunks: seq<Chunk>, cap: nat) {
    GRID_CELLS <= cap < 0x1_0000_0000 &&
    forall i :: 0 <= i < |chunks| ==> |Inside(f, pts, chunks[i].root)| <= cap && LevelsFit(f, pts, chunks[i].root)
  }

  lemma {:induction false} CountBelow(f: Frame, pts: seq<RawPoint>, q: VoxelKey, c: VoxelKey)
    requires Under(q, c)
    ensures CountIn(f, pts, q) <= CountIn(f, pts, c)
    decreases q.level
  {
    if q.level > c.level {
      CountInParent(f, pts, q);
      CountBelow(f, pts, Parent(q).value, c);
    }
  }

  /** No finest cell holds more than `cap` points. */
  ghost predicate CellsHold(f: Frame, pts: seq<RawPoint>, depth: nat, cap: nat) {
    forall k: VoxelKey :: k.level == depth && InRange(k) ==> CountIn(f, pts, k) <= cap
  }

  /** With exact counters every chunk is small: it lies in a cell that fits the target, or in a
      finest cell. */
  lemma SmallPart(f: Frame, pts: seq<RawPoint>, g: Grid, target: nat, cells: seq<VoxelKey>, chunks: seq<Chunk>, i: nat, cap: nat)
    requires CellsTallied(f, pts, g) && NoneWraps(f, pts, g.depth) && Plan(g, target, cells, chunks) && i < |chunks|
    requires target <= cap && CellsHold(f, pts, g.depth, cap)
    ensures |Inside(f, pts, chunks[i].root)| <= cap
  {
    TalliedIsCounted(f, pts, g);
    ShapeOfCells(g, target, cells);
    assert BelowOne(chunks[i].root, cells);
    var c :| c in cells && Under(chunks[i].root, c);
    InsideCount(f, pts, chunks[i].root);
    CountBelow(f, pts, chunks[i].root, c);
    PopIsCount(f, pts, g, c);
    assert c.level == g.depth ==> CountIn(f, pts, c) <= cap;
  }

  /** Deepest level at which a build may start a subtree. */
  function DeepestRoot(depth: nat): nat {
    depth + SPLIT_LEVEL_CAP + SPILL_DEPTH_CAP
  }

  /** No voxel of that level is so crowded that the leaves below it need a level beyond 31. For a
      grid of `128^3` this is any voxel of at most 2.6 * 10^10 points, for `512^3` one of at most
      409.6 million at level 27. */
  ghost predicate Spread(f: Frame, pts: seq<RawPoint>, depth: nat) {
    DeepestRoot(depth) <= MAX_LEVEL &&
    forall k: VoxelKey :: k.level == DeepestRoot(depth) ==> CountIn(f, pts, k) <= MAX_LEAF_POINTS * Pow8(MAX_LEVEL - k.level)
  }

  lemma {:induction false} CountSumAtMost(f: Frame, pts: seq<RawPoint>, k: VoxelKey, n: nat, limit: nat)
    requires n <= 8 && forall o: nat :: o < 8 ==> CountIn(f, pts, Child(k, o)) <= limit
    ensures CountSum(f, pts, k, n) <= n * limit
  {
    if n > 0 {
      CountSumAtMost(f, pts, k, n - 1, limit);
      OneMore(n, limit);
    }
  }

  /** Room at the deepest level is room at every level above it. */
  lemma {:induction false} SpreadAbove(f: Frame, pts: seq<RawPoint>, depth: nat, k: VoxelKey)
    requires Spread(f, pts, depth) && k.level <= DeepestRoot(depth)
    ensures CountIn(f, pts, k) <= MAX_LEAF_POINTS * Pow8(MAX_LEVEL - k.level)
    decreases DeepestRoot(depth) - k.level
  {
    if k.level < DeepestRoot(depth) {
      var limit := MAX_LEAF_POINTS * Pow8(MAX_LEVEL - (k.level + 1));
      forall o: nat | o < 8 ensures CountIn(f, pts, Child(k, o)) <= limit {
        SpreadAbove(f, pts, depth, Child(k, o));
      }
      CountSumAtMost(f, pts, k, 8, limit);
      CountByChildren(f, pts, k);
      Pow8Step(MAX_LEVEL - (k.level + 1));
    }
  }

  lemma SpreadFits(f: Frame, pts: seq<RawPoint>, depth: nat, root: VoxelKey)
    requires Spread(f, pts, depth) && root.level <= depth + SPLIT_LEVEL_CAP
    ensures LevelsFit(f, pts, root)
  {
    forall k | Under(k, root) && k.level <= root.level + SPILL_DEPTH_CAP ensures LevelRoom(k.level, |Inside(f, pts, k)|) {
      SpreadAbove(f, pts, depth, k);
      InsideCount(f, pts, k);
    }
  }

  lemma {:induction false} SubChunkLevels(k: VoxelKey, e: nat, pop: nat, n: nat)
    ensures forall i :: 0 <= i < n ==> SubChunks(k, e, pop, n)[i].root.level == k.level + e
  {
    if n > 0 {
      SubChunkLevels(k, e, pop, n - 1);
    }
  }

  /** Chunks lie at most the deepest split below the grid. */
  lemma {:induction false} ChunkLevels(g: Grid, target: nat, cells: seq<VoxelKey>)
    requires forall c :: c in cells ==> c.level <= g.depth
    ensures forall i :: 0 <= i < |EmitAll(g, target, cells)| ==> EmitAll(g, target, cells)[i].root.level <= g.depth + SPLIT_LEVEL_CAP
  {
    if cells != [] {
      var k := cells[|cells| - 1];
      ChunkLevels(g, target, cells[..|cells| - 1]);
      assert k in cells;
      var e := if k.level == g.depth then SplitDepth(Pop(g, k), target, 0) else 0;
      SubChunkLevels(k, e, Pop(g, k), Pow8(e));
    }
  }

  lemma FewChunks(target: nat, n: nat, charge: nat)
    requires target * n <= target + charge && target + charge < target * (SUBSPLIT_MARKER + 1)
    ensures n <= SUBSPLIT_MARKER
  {
    if n > SUBSPLIT_MARKER {
      MulLe(SUBSPLIT_MARKER + 1, n, target);
    }
  }

  /** A check on the input alone: plans fit for any number of points up to about
      `2^32 target / (8 (depth + 1))`, which for a target of a million and a grid of `512^3` is
      5 * 10^13, as long as no finest cell holds more than `cap` of them and no deep voxel is too
      crowded. */
  lemma FitsWhenExact(f: Frame, pts: seq<RawPoint>, depth: nat, target: nat, cap: nat)
    requires GRID_CELLS <= cap < CELL_SPAN && target <= cap && CellsHold(f, pts, depth, cap) && Spread(f, pts, depth)
    requires target + Charge(depth + 1, |pts|) < target * (SUBSPLIT_MARKER + 1)
    ensures PlansFit(f, pts, depth, target, cap) && AllPlanned(f, pts, depth, target)
  {
    NoWrapNoVanish(f, pts, depth);
    forall g: Grid, i: nat | g.depth == depth && CellsTallied(f, pts, g) && i < |pts| ensures Planned(g, target, KeyAt(f, pts[i], depth)) {
      CountedIsPlanned(f, pts, g, target, i);
    }
    forall g: Grid, cells: seq<VoxelKey>, chunks: seq<Chunk> | g.depth == depth && CellsTallied(f, pts, g) && Plan(g, target, cells, chunks)
      ensures |chunks| <= SUBSPLIT_MARKER && PartsFit(f, pts, chunks, cap)
    {
      PlanFitsWhenExact(f, pts, g, target, cells, chunks, cap);
    }
  }

  lemma PlanFitsWhenExact(f: Frame, pts: seq<RawPoint>, g: Grid, target: nat, cells: seq<VoxelKey>, chunks: seq<Chunk>, cap: nat)
    requires CellsTallied(f, pts, g) && Plan(g, target, cells, chunks)
    requires GRID_CELLS <= cap < CELL_SPAN && target <= cap && CellsHold(f, pts, g.depth, cap) && Spread(f, pts, g.depth)
    requires target + Charge(g.depth + 1, |pts|) < target * (SUBSPLIT_MARKER + 1)
    ensures |chunks| <= SUBSPLIT_MARKER && PartsFit(f, pts, chunks, cap)
  {
    ChunksPerTarget(f, pts, g, target, cells, chunks, ROOT);
    FewChunks(target, |chunks|, Charge(g.depth + 1, |pts|));
    ChunkLevels(g, target, cells);
    forall i | 0 <= i < |chunks| ensures |Inside(f, pts, chunks[i].root)| <= cap && LevelsFit(f, pts, chunks[i].root) {
      SmallPart(f, pts, g, target, cells, chunks, i, cap);
      SpreadFits(f, pts, g.depth, chunks[i].root);
    }
  }
}
