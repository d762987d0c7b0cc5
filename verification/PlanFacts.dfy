/** What a plan guarantees: un-nested chunk roots that cover every counted point, estimates that
    add up, contiguous sub-chunks, and the exact condition for every estimate to fit. */
module PlanFacts {
  import opened Arith
  import opened Voxel
  import opened Points
  import opened Levels
  import opened SplitLevel
  import opened PlanGrid
  import opened SubSplit
  import opened Planner

  /** A cell stays oversized all the way up, so a populated cell has a maximal one above it. */
  lemma {:induction false} MaximalAbove(g: Grid, target: nat, a: VoxelKey) returns (k: VoxelKey)
    requires a.level <= g.depth && InRange(a) && Pop(g, a) > 0 && (Pop(g, a) <= target || a.level == g.depth)
    ensures Maximal(g, target, k) && Under(a, k)
    decreases a.level
  {
    if a.level > 0 {
      ChildOfParent(a);
      var p := Parent(a).value;
      PopBelow(g, a, p);
      if Pop(g, p) <= target {
        k := MaximalAbove(g, target, p);
        UnderTransitive(a, p, k);
      } else {
        k := a;
      }
    } else {
      k := a;
    }
  }

  /** Two maximal cells are never nested. */
  lemma MaximalUnnested(g: Grid, target: nat, a: VoxelKey, b: VoxelKey)
    requires Maximal(g, target, a) && Maximal(g, target, b) && Under(b, a)
    ensures a == b
  {
    if a.level < b.level {
      var p := Parent(b).value;
      AncestorsComparable(b, p, a);
      PopBelow(g, p, a);
    }
  }

  /** Total weight of the listed cells at or below a key. */
  ghost function ListedBelow(w: VoxelKey -> nat, cells: seq<VoxelKey>, k: VoxelKey): nat {
    if cells == [] then 0
    else
      var n := |cells| - 1;
      ListedBelow(w, cells[..n], k) + if Under(cells[n], k) then w(cells[n]) else 0
  }

  ghost function ListedBelowSum(w: VoxelKey -> nat, cells: seq<VoxelKey>, k: VoxelKey, o: nat): nat
    requires o <= 8
  {
    if o == 0 then 0 else ListedBelowSum(w, cells, k, o - 1) + ListedBelow(w, cells, Child(k, o - 1))
  }

  function PopOf(g: Grid): VoxelKey -> nat {
    k => Pop(g, k)
  }

  lemma UnderOneChild(c: VoxelKey, k: VoxelKey) returns (o: nat)
    requires StrictlyUnder(c, k)
    ensures o < 8 && forall j: nat :: j < 8 ==> (Under(c, Child(k, j)) <==> j == o)
  {
    var q := ChildTowards(c, k);
    ChildOfParent(q);
    o := OctantOf(q);
    forall j: nat | j < 8 ensures Under(c, Child(k, j)) <==> j == o {
      ChildFacts(k, j);
    }
  }

  lemma NotUnderChildren(c: VoxelKey, k: VoxelKey, j: nat)
    requires !StrictlyUnder(c, k) && j < 8
    ensures !Under(c, Child(k, j))
  {
    ChildFacts(k, j);
    if Under(c, Child(k, j)) {
      UnderTransitive(c, Child(k, j), k);
    }
  }

  lemma {:induction false} ListedSumSnoc(w: VoxelKey -> nat, cells: seq<VoxelKey>, c: VoxelKey, k: VoxelKey, o: nat, at: nat)
    requires o <= 8 && forall j: nat :: j < 8 ==> (Under(c, Child(k, j)) <==> j == at)
    ensures ListedBelowSum(w, cells + [c], k, o) == ListedBelowSum(w, cells, k, o) + if at < o then w(c) else 0
  {
    if o > 0 {
      ListedSumSnoc(w, cells, c, k, o - 1, at);
      assert (cells + [c])[..|cells|] == cells;
    }
  }

  lemma {:induction false} ListedSumNone(w: VoxelKey -> nat, k: VoxelKey, o: nat)
    requires o <= 8
    ensures ListedBelowSum(w, [], k, o) == 0
  {
    if o > 0 {
      ListedSumNone(w, k, o - 1);
    }
  }

  /** Listed cells strictly below a key are listed below exactly one of its children. */
  lemma {:induction false} ListedByChildren(w: VoxelKey -> nat, cells: seq<VoxelKey>, k: VoxelKey)
    requires k !in cells
    ensures ListedBelow(w, cells, k) == ListedBelowSum(w, cells, k, 8)
  {
    if cells == [] {
      ListedSumNone(w, k, 8);
    } else {
      var n := |cells| - 1;
      ListedByChildren(w, cells[..n], k);
      var at: nat := 8;
      if StrictlyUnder(cells[n], k) {
        at := UnderOneChild(cells[n], k);
      } else {
        forall j: nat | j < 8 ensures !Under(cells[n], Child(k, j)) {
          NotUnderChildren(cells[n], k, j);
        }
      }
      ListedSumSnoc(w, cells[..n], cells[n], k, 8, at);
      assert cells[..n] + [cells[n]] == cells;
    }
  }

  lemma {:induction false} ListedNone(w: VoxelKey -> nat, cells: seq<VoxelKey>, k: VoxelKey)
    requires forall c :: c in cells ==> !Under(c, k)
    ensures ListedBelow(w, cells, k) == 0
  {
    if cells != [] {
      var n := |cells| - 1;
      ListedNone(w, cells[..n], k);
      assert cells[n] in cells;
    }
  }

  /** Below a listed cell only that cell is listed. */
  lemma {:induction false} ListedSelf(w: VoxelKey -> nat, cells: seq<VoxelKey>, k: VoxelKey)
    requires Distinct(cells) && forall c :: c in cells && Under(c, k) ==> c == k
    ensures ListedBelow(w, cells, k) == if k in cells then w(k) else 0
  {
    if cells != [] {
      var n := |cells| - 1;
      ListedSelf(w, cells[..n], k);
      assert cells[n] in cells;
      DistinctNotBefore(cells, n);
      assert cells == cells[..n] + [cells[n]];
    }
  }

  ghost predicate ListsMaximal(g: Grid, target: nat, cells: seq<VoxelKey>) {
    Distinct(cells) && forall k :: k in cells <==> Maximal(g, target, k)
  }

  /** No maximal cell lies below an empty one. */
  lemma NothingBelowEmpty(g: Grid, target: nat, cells: seq<VoxelKey>, k: VoxelKey)
    requires ListsMaximal(g, target, cells) && Pop(g, k) == 0
    ensures forall c :: c in cells ==> !Under(c, k)
  {
    forall c | c in cells ensures !Under(c, k) {
      if Under(c, k) {
        PopBelow(g, c, k);
      }
    }
  }

  lemma OnlySelfBelow(g: Grid, target: nat, cells: seq<VoxelKey>, k: VoxelKey)
    requires ListsMaximal(g, target, cells) && Maximal(g, target, k)
    ensures forall c :: c in cells && Under(c, k) ==> c == k
  {
    forall c | c in cells && Under(c, k) ensures c == k {
      MaximalUnnested(g, target, k, c);
    }
  }

  /** Every point below a key with an oversized parent is in a listed cell below it. */
  lemma {:induction false} ListedIsPop(g: Grid, target: nat, cells: seq<VoxelKey>, k: VoxelKey)
    requires ListsMaximal(g, target, cells) && InRange(k) && k.level <= g.depth
    requires k.level > 0 ==> Pop(g, Parent(k).value) > target
    ensures ListedBelow(PopOf(g), cells, k) == Pop(g, k)
    decreases g.depth - k.level, 9
  {
    if Pop(g, k) == 0 {
      NothingBelowEmpty(g, target, cells, k);
      ListedNone(PopOf(g), cells, k);
    } else if Maximal(g, target, k) {
      OnlySelfBelow(g, target, cells, k);
      ListedSelf(PopOf(g), cells, k);
    } else {
      ListedByChildren(PopOf(g), cells, k);
      ListedSumIsPop(g, target, cells, k, 8);
    }
  }

  lemma {:induction false} ListedSumIsPop(g: Grid, target: nat, cells: seq<VoxelKey>, k: VoxelKey, o: nat)
    requires ListsMaximal(g, target, cells) && InRange(k) && k.level < g.depth && o <= 8 && Pop(g, k) > target
    ensures ListedBelowSum(PopOf(g), cells, k, o) == PopSum(g, k, o)
    decreases g.depth - k.level, o
  {
    if o > 0 {
      ListedSumIsPop(g, target, cells, k, o - 1);
      ChildFacts(k, o - 1);
      ListedIsPop(g, target, cells, Child(k, o - 1));
    }
  }

  lemma {:induction false} EstimatesOfCells(g: Grid, target: nat, cells: seq<VoxelKey>, root: VoxelKey)
    requires forall c :: c in cells ==> Under(c, root)
    ensures Estimates(EmitAll(g, target, cells)) == ListedBelow(PopOf(g), cells, root)
  {
    if cells != [] {
      var n := |cells| - 1;
      EstimatesOfCells(g, target, cells[..n], root);
      assert cells[n] in cells;
      EmitConserves(g.depth, target, cells[n], Pop(g, cells[n]));
      EstimatesAppend(EmitAll(g, target, cells[..n]), Emit(g.depth, target, cells[n], Pop(g, cells[n])));
    }
  }

  /** The estimates of a plan add up to the grid total. */
  lemma EstimatesTotal(g: Grid, target: nat, cells: seq<VoxelKey>, chunks: seq<Chunk>, root: VoxelKey)
    requires Plan(g, target, cells, chunks) && root == ROOT
    ensures Estimates(chunks) == Pop(g, root)
  {
    forall c | c in cells ensures Under(c, root) {
      InRangeUnderRoot(c);
    }
    EstimatesOfCells(g, target, cells, root);
    InRangeOfRoot(root);
    ListedIsPop(g, target, cells, root);
  }

  lemma InRangeOfRoot(root: VoxelKey)
    requires root == ROOT
    ensures root.level == 0 && InRange(root)
  {
  }

  /** For a counted data set, the estimates add up to the number of points. */
  lemma EstimatesCountPoints(f: Frame, pts: seq<RawPoint>, g: Grid, target: nat, cells: seq<VoxelKey>, chunks: seq<Chunk>,
                             root: VoxelKey)
    requires Counted(f, pts, g) && Plan(g, target, cells, chunks) && root == ROOT
    ensures Estimates(chunks) == |pts|
  {
    EstimatesTotal(g, target, cells, chunks, root);
    InRangeOfRoot(root);
    PopIsCount(f, pts, g, root);
    RootCount(f, pts);
  }

  ghost predicate FitsAll(g: Grid, target: nat, cells: seq<VoxelKey>) {
    forall c :: c in cells ==> Pop(g, c) <= target * Pow8(SPLIT_LEVEL_CAP)
  }

  lemma {:induction false} CellsFit(g: Grid, target: nat, cells: seq<VoxelKey>)
    requires forall c :: c in cells ==> c.level == g.depth || Pop(g, c) <= target
    ensures AllFit(EmitAll(g, target, cells), target) <==> FitsAll(g, target, cells)
  {
    if cells != [] {
      var n := |cells| - 1;
      CellsFit(g, target, cells[..n]);
      assert cells[n] in cells;
      EmitFits(g.depth, target, cells[n], Pop(g, cells[n]));
      AllFitAppend(EmitAll(g, target, cells[..n]), Emit(g.depth, target, cells[n], Pop(g, cells[n])), target);
      assert cells == cells[..n] + [cells[n]];
    }
  }

  lemma AllFitAppend(a: seq<Chunk>, b: seq<Chunk>, target: nat)
    ensures AllFit(a + b, target) <==> AllFit(a, target) && AllFit(b, target)
  {
    if AllFit(a + b, target) {
      assert forall i :: 0 <= i < |a| ==> (a + b)[i] == a[i];
      assert forall i :: 0 <= i < |b| ==> (a + b)[|a| + i] == b[i];
    }
  }

  /** Every estimate fits the target exactly when no finest cell holds more than `8^6` targets,
      that is, when the split depth cap binds nowhere. */
  lemma PlanFits(g: Grid, target: nat, cells: seq<VoxelKey>, chunks: seq<Chunk>)
    requires Plan(g, target, cells, chunks)
    ensures AllFit(chunks, target) <==>
            forall q: VoxelKey :: q.level == g.depth && InRange(q) ==> Pop(g, q) <= target * Pow8(SPLIT_LEVEL_CAP)
  {
    CellsFit(g, target, cells);
    if FitsAll(g, target, cells) {
      forall q: VoxelKey | q.level == g.depth && InRange(q) ensures Pop(g, q) <= target * Pow8(SPLIT_LEVEL_CAP) {
        if Pop(g, q) > 0 {
          var k := MaximalAbove(g, target, q);
          PopBelow(g, q, k);
        }
      }
    }
    if forall q: VoxelKey :: q.level == g.depth && InRange(q) ==> Pop(g, q) <= target * Pow8(SPLIT_LEVEL_CAP) {
      forall c | c in cells ensures Pop(g, c) <= target * Pow8(SPLIT_LEVEL_CAP) {
        if c.level < g.depth {
          Pow8Positive(SPLIT_LEVEL_CAP);
          MulAtLeast(Pow8(SPLIT_LEVEL_CAP), target);
        }
      }
    }
  }

  /** No chunk root is at or below another chunk's root. */
  ghost predicate Unnested(chunks: seq<Chunk>) {
    forall i, j :: 0 <= i < |chunks| && 0 <= j < |chunks| && i != j ==> !Under(chunks[i].root, chunks[j].root)
  }

  /** The sub-chunks of a split cell are consecutive, in octant order. */
  ghost predicate Contiguous(depth: nat, chunks: seq<Chunk>, i: nat)
    requires i < |chunks| && chunks[i].root.level > depth
  {
    var q := chunks[i].root;
    var e := q.level - depth;
    var o := SubOctantIndex(q, e);
    o <= i && Block(chunks, i - o, AncestorAt(q, depth), e)
  }

  /** From `start` on the chunks are the descendants of `cell`, `e` levels down, in index order. */
  ghost predicate Block(chunks: seq<Chunk>, start: nat, cell: VoxelKey, e: nat) {
    start + Pow8(e) <= |chunks| && forall j: nat :: j < Pow8(e) ==> chunks[start + j].root == SubRoot(cell, e, j)
  }

  /** The shape of a plan that routing relies on. */
  ghost predicate Shape(depth: nat, chunks: seq<Chunk>) {
    Unnested(chunks) && (forall i :: 0 <= i < |chunks| ==> InRange(chunks[i].root)) &&
    (forall i :: 0 <= i < |chunks| && chunks[i].root.level > depth ==> Contiguous(depth, chunks, i))
  }

  lemma ContiguousAppend(depth: nat, a: seq<Chunk>, b: seq<Chunk>, i: nat)
    requires i < |a| && a[i].root.level > depth && Contiguous(depth, a, i)
    ensures Contiguous(depth, a + b, i)
  {
  }

  lemma ContiguousPrepend(depth: nat, a: seq<Chunk>, b: seq<Chunk>, i: nat)
    requires i < |b| && b[i].root.level > depth && Contiguous(depth, b, i)
    ensures Contiguous(depth, a + b, |a| + i)
  {
    var q := b[i].root;
    var e := q.level - depth;
    var o := SubOctantIndex(q, e);
    forall j: nat | j < Pow8(e) ensures (a + b)[|a| + i - o + j].root == SubRoot(AncestorAt(q, depth), e, j) {
      assert (a + b)[|a| + i - o + j] == b[i - o + j];
    }
  }

  /** Every root of `chunks` lies below one of `cells`. */
  ghost predicate BelowCells(chunks: seq<Chunk>, cells: seq<VoxelKey>) {
    forall i :: 0 <= i < |chunks| ==> BelowOne(chunks[i].root, cells)
  }

  ghost predicate BelowOne(q: VoxelKey, cells: seq<VoxelKey>) {
    exists c :: c in cells && Under(q, c)
  }

  lemma UnnestedAppend(a: seq<Chunk>, b: seq<Chunk>, cells: seq<VoxelKey>, k: VoxelKey)
    requires Unnested(a) && Unnested(b) && BelowCells(a, cells) && forall i :: 0 <= i < |b| ==> Under(b[i].root, k)
    requires forall c :: c in cells ==> !Under(c, k) && !Under(k, c)
    ensures Unnested(a + b)
  {
    forall i, j | 0 <= i < |a| && 0 <= j < |b|
      ensures !Under(a[i].root, b[j].root) && !Under(b[j].root, a[i].root)
    {
      assert BelowOne(a[i].root, cells);
      var c :| c in cells && Under(a[i].root, c);
      NotNested(a[i].root, c, b[j].root, k);
      NotNested(b[j].root, k, a[i].root, c);
    }
  }

  lemma NotNested(a: VoxelKey, c: VoxelKey, b: VoxelKey, k: VoxelKey)
    requires Under(a, c) && Under(b, k) && !Under(c, k) && !Under(k, c)
    ensures !Under(a, b)
  {
    if Under(a, b) {
      UnderTransitive(a, b, k);
      if k.level <= c.level { AncestorsComparable(a, c, k); } else { AncestorsComparable(a, k, c); }
    }
  }

  /** The chunks of one cell have the required shape. */
  lemma EmitShape(depth: nat, target: nat, k: VoxelKey, pop: nat)
    requires k.level <= depth && InRange(k)
    ensures Shape(depth, Emit(depth, target, k, pop))
    ensures forall i :: 0 <= i < |Emit(depth, target, k, pop)| ==> Under(Emit(depth, target, k, pop)[i].root, k)
  {
    var e := if k.level == depth then SplitDepth(pop, target, 0) else 0;
    if e > 0 {
      SubChunksShape(k, e, pop);
    }
  }

  lemma SubChunkFacts(k: VoxelKey, e: nat, pop: nat, j: nat)
    requires j < Pow8(e) && InRange(k)
    ensures var q := SubChunks(k, e, pop, Pow8(e))[j].root;
            q == SubRoot(k, e, j) && Under(q, k) && SubOctantIndex(q, e) == j && InRange(q) && q.level == k.level + e
  {
    SubChunksAt(k, e, pop, Pow8(e), j);
    SubRootFacts(k, e, j);
    SubRootInRange(k, e, j);
  }

  lemma SubChunksShape(k: VoxelKey, e: nat, pop: nat)
    requires InRange(k) && e > 0
    ensures Shape(k.level, SubChunks(k, e, pop, Pow8(e)))
    ensures forall i :: 0 <= i < Pow8(e) ==> Under(SubChunks(k, e, pop, Pow8(e))[i].root, k)
  {
    var b := SubChunks(k, e, pop, Pow8(e));
    forall j: nat | j < Pow8(e) ensures SubRootAtIndex(k, e, b[j].root, j) {
      SubChunkFacts(k, e, pop, j);
    }
    BlockShape(k, e, b);
  }

  /** `q` is the `j`-th descendant of `k`, `e` levels down. */
  ghost predicate SubRootAtIndex(k: VoxelKey, e: nat, q: VoxelKey, j: nat) {
    q == SubRoot(k, e, j) && Under(q, k) && SubOctantIndex(q, e) == j && InRange(q) && q.level == k.level + e
  }

  /** A block that lists the descendants in index order is un-nested and contiguous. */
  lemma BlockShape(k: VoxelKey, e: nat, b: seq<Chunk>)
    requires e > 0 && |b| == Pow8(e) && forall j: nat :: j < |b| ==> SubRootAtIndex(k, e, b[j].root, j)
    ensures Shape(k.level, b) && forall i :: 0 <= i < |b| ==> Under(b[i].root, k)
  {
    forall i, j | 0 <= i < |b| && 0 <= j < |b| && i != j ensures !Under(b[i].root, b[j].root) {
      assert SubRootAtIndex(k, e, b[i].root, i) && SubRootAtIndex(k, e, b[j].root, j);
      ApartInBlock(k, e, b[i].root, b[j].root, i, j);
    }
    forall i: nat | i < |b| ensures Contiguous(k.level, b, i) && InRange(b[i].root) && Under(b[i].root, k) {
      assert SubRootAtIndex(k, e, b[i].root, i);
      BlockContiguous(k, e, b, i);
    }
  }

  lemma ApartInBlock(k: VoxelKey, e: nat, q: VoxelKey, r: VoxelKey, i: nat, j: nat)
    requires SubRootAtIndex(k, e, q, i) && SubRootAtIndex(k, e, r, j) && i != j
    ensures !Under(q, r)
  {
    assert Under(q, r) ==> q == r;
  }

  lemma BlockContiguous(k: VoxelKey, e: nat, b: seq<Chunk>, i: nat)
    requires e > 0 && |b| == Pow8(e) && (forall j: nat :: j < |b| ==> SubRootAtIndex(k, e, b[j].root, j)) && i < |b|
    ensures b[i].root.level == k.level + e && Contiguous(k.level, b, i)
  {
    var q := b[i].root;
    assert SubRootAtIndex(k, e, q, i);
    WholeBlock(k, e, b);
    assert AncestorAt(q, k.level) == k && i - SubOctantIndex(q, e) == 0;
  }

  lemma WholeBlock(k: VoxelKey, e: nat, b: seq<Chunk>)
    requires |b| == Pow8(e) && forall j: nat :: j < |b| ==> SubRootAtIndex(k, e, b[j].root, j)
    ensures Block(b, 0, k, e)
  {
    forall j: nat | j < Pow8(e) ensures b[0 + j].root == SubRoot(k, e, j) {
      assert SubRootAtIndex(k, e, b[j].root, j);
    }
  }

  lemma {:induction false} ShapeOfCells(g: Grid, target: nat, cells: seq<VoxelKey>)
    requires Distinct(cells) && forall c :: c in cells ==> Maximal(g, target, c)
    ensures Shape(g.depth, EmitAll(g, target, cells)) && BelowCells(EmitAll(g, target, cells), cells)
  {
    if cells != [] {
      var n := |cells| - 1;
      var k := cells[n];
      assert k in cells;
      ShapeOfCells(g, target, cells[..n]);
      EmitShape(g.depth, target, k, Pop(g, k));
      DistinctNotBefore(cells, n);
      ShapeAppend(g.depth, EmitAll(g, target, cells[..n]), Emit(g.depth, target, k, Pop(g, k)), g, target, cells, n);
    }
  }

  lemma BelowAppend(a: seq<Chunk>, b: seq<Chunk>, cells: seq<VoxelKey>, n: nat)
    requires n + 1 == |cells| && BelowCells(a, cells[..n])
    requires forall i :: 0 <= i < |b| ==> Under(b[i].root, cells[n])
    ensures BelowCells(a + b, cells)
  {
    forall i | 0 <= i < |a + b| ensures BelowOne((a + b)[i].root, cells) {
      if i < |a| {
        assert BelowOne(a[i].root, cells[..n]);
        var c :| c in cells[..n] && Under(a[i].root, c);
        assert c in cells;
      } else {
        assert cells[n] in cells && Under(b[i - |a|].root, cells[n]);
      }
    }
  }

  lemma InRangeAppend(a: seq<Chunk>, b: seq<Chunk>)
    requires forall i :: 0 <= i < |a| ==> InRange(a[i].root)
    requires forall i :: 0 <= i < |b| ==> InRange(b[i].root)
    ensures forall i :: 0 <= i < |a + b| ==> InRange((a + b)[i].root)
  {
  }

  lemma ShapeAppend(depth: nat, a: seq<Chunk>, b: seq<Chunk>, g: Grid, target: nat, cells: seq<VoxelKey>, n: nat)
    requires n + 1 == |cells| && Distinct(cells) && forall c :: c in cells ==> Maximal(g, target, c)
    requires Shape(depth, a) && Shape(depth, b) && BelowCells(a, cells[..n])
    requires forall i :: 0 <= i < |b| ==> Under(b[i].root, cells[n])
    ensures Shape(depth, a + b) && BelowCells(a + b, cells)
  {
    forall c | c in cells[..n] ensures !Under(c, cells[n]) && !Under(cells[n], c) {
      CellsApart(g, target, cells, n, c);
    }
    UnnestedAppend(a, b, cells[..n], cells[n]);
    ContiguousBoth(depth, a, b);
    InRangeAppend(a, b);
    BelowAppend(a, b, cells, n);
  }

  lemma CellsApart(g: Grid, target: nat, cells: seq<VoxelKey>, n: nat, c: VoxelKey)
    requires n + 1 == |cells| && Distinct(cells) && (forall c :: c in cells ==> Maximal(g, target, c)) && c in cells[..n]
    ensures !Under(c, cells[n]) && !Under(cells[n], c)
  {
    assert c in cells && cells[n] in cells;
    if Under(c, cells[n]) { MaximalUnnested(g, target, cells[n], c); }
    if Under(cells[n], c) { MaximalUnnested(g, target, c, cells[n]); }
  }

  lemma ContiguousBoth(depth: nat, a: seq<Chunk>, b: seq<Chunk>)
    requires Shape(depth, a) && Shape(depth, b)
    ensures forall i :: 0 <= i < |a + b| && (a + b)[i].root.level > depth ==> Contiguous(depth, a + b, i)
  {
    forall i | 0 <= i < |a + b| && (a + b)[i].root.level > depth ensures Contiguous(depth, a + b, i) {
      if i < |a| {
        ContiguousAppend(depth, a, b, i);
      } else {
        ContiguousPrepend(depth, a, b, i - |a|);
      }
    }
  }

  /** A plan's chunk roots are un-nested, in range, and contiguous where a cell was split. */
  lemma PlanShape(g: Grid, target: nat, cells: seq<VoxelKey>, chunks: seq<Chunk>)
    requires Plan(g, target, cells, chunks)
    ensures Shape(g.depth, chunks)
  {
    ShapeOfCells(g, target, cells);
  }

  /** Some chunk's root is the voxel of the point at that chunk's level. */
  ghost predicate CoversPoint(f: Frame, chunks: seq<Chunk>, p: RawPoint) {
    exists i :: 0 <= i < |chunks| && KeyAt(f, p, chunks[i].root.level) == chunks[i].root
  }

  lemma {:induction false} EmittedAt(g: Grid, target: nat, cells: seq<VoxelKey>, c: nat, j: nat) returns (i: nat)
    requires c < |cells| && j < |Emit(g.depth, target, cells[c], Pop(g, cells[c]))|
    ensures i < |EmitAll(g, target, cells)|
    ensures EmitAll(g, target, cells)[i] == Emit(g.depth, target, cells[c], Pop(g, cells[c]))[j]
  {
    var n := |cells| - 1;
    if c < n {
      i := EmittedAt(g, target, cells[..n], c, j);
    } else {
      i := |EmitAll(g, target, cells[..n])| + j;
    }
  }

  /** One of a cell's chunks has the point's voxel as its root. */
  lemma EmitCovers(f: Frame, p: RawPoint, depth: nat, target: nat, k: VoxelKey, pop: nat) returns (j: nat)
    requires k == KeyAt(f, p, k.level) && k.level <= depth
    ensures j < |Emit(depth, target, k, pop)|
    ensures var q := Emit(depth, target, k, pop)[j].root; q == KeyAt(f, p, q.level)
  {
    var e := if k.level == depth then SplitDepth(pop, target, 0) else 0;
    if e == 0 {
      j := 0;
    } else {
      var q := KeyAt(f, p, k.level + e);
      DescentRefines(f, p, k.level, k.level + e);
      SubRootOfIndex(k, e, q);
      j := SubOctantIndex(q, e);
      SubChunksAt(k, e, pop, Pow8(e), j);
    }
  }

  lemma {:induction false} CountInMember(f: Frame, pts: seq<RawPoint>, p: RawPoint, k: VoxelKey)
    requires p in pts && KeyAt(f, p, k.level) == k
    ensures CountIn(f, pts, k) > 0
  {
    var n := |pts| - 1;
    if p != pts[n] {
      assert pts == pts[..n] + [pts[n]];
      CountInMember(f, pts[..n], p, k);
    }
  }

  /** Some cell at or above `q` is counted as populated and is not divided further. */
  ghost predicate Planned(g: Grid, target: nat, q: VoxelKey) {
    exists a :: Under(q, a) && Stops(g, target, a)
  }

  predicate Stops(g: Grid, target: nat, a: VoxelKey) {
    a.level <= g.depth && Pop(g, a) > 0 && (Pop(g, a) <= target || a.level == g.depth)
  }

  /** A point whose cell is planned has its chunk. */
  lemma PlannedIsCovered(f: Frame, g: Grid, target: nat, cells: seq<VoxelKey>, chunks: seq<Chunk>, p: RawPoint)
    requires Plan(g, target, cells, chunks) && Planned(g, target, KeyAt(f, p, g.depth))
    ensures CoversPoint(f, chunks, p)
  {
    var q := KeyAt(f, p, g.depth);
    var a :| Under(q, a) && Stops(g, target, a);
    KeyInRange(f, p, g.depth);
    AncestorInRange(q, a);
    var k := MaximalAbove(g, target, a);
    UnderTransitive(q, a, k);
    DescentRefines(f, p, k.level, g.depth);
    var c :| 0 <= c < |cells| && cells[c] == k;
    var j := EmitCovers(f, p, g.depth, target, k, Pop(g, k));
    var i := EmittedAt(g, target, cells, c, j);
  }

  lemma {:induction false} AncestorInRange(q: VoxelKey, a: VoxelKey)
    requires InRange(q) && Under(q, a)
    ensures InRange(a)
    decreases q.level
  {
    if a.level < q.level {
      ChildOfParent(q);
      AncestorInRange(Parent(q).value, a);
    }
  }

  /** A point that has a chunk lies in a planned cell. */
  lemma CoveredIsPlanned(f: Frame, g: Grid, target: nat, cells: seq<VoxelKey>, chunks: seq<Chunk>, p: RawPoint)
    requires Plan(g, target, cells, chunks) && CoversPoint(f, chunks, p)
    ensures Planned(g, target, KeyAt(f, p, g.depth))
  {
    var i :| 0 <= i < |chunks| && KeyAt(f, p, chunks[i].root.level) == chunks[i].root;
    ShapeOfCells(g, target, cells);
    assert BelowOne(chunks[i].root, cells);
    var c :| c in cells && Under(chunks[i].root, c);
    DescentRefines(f, p, c.level, chunks[i].root.level);
    DescentRefines(f, p, c.level, g.depth);
    assert Under(KeyAt(f, p, g.depth), c) && Stops(g, target, c);
  }

  /** A plan has a chunk for a point exactly when the point's cell is planned: the cell or one
      above it is counted as populated and is not divided further. */
  lemma PlanCovers(f: Frame, g: Grid, target: nat, cells: seq<VoxelKey>, chunks: seq<Chunk>, p: RawPoint)
    requires Plan(g, target, cells, chunks)
    ensures CoversPoint(f, chunks, p) <==> Planned(g, target, KeyAt(f, p, g.depth))
  {
    if CoversPoint(f, chunks, p) {
      CoveredIsPlanned(f, g, target, cells, chunks, p);
    }
    if Planned(g, target, KeyAt(f, p, g.depth)) {
      PlannedIsCovered(f, g, target, cells, chunks, p);
    }
  }

  /** No counter of a populated cell has wrapped around to exactly zero. */
  ghost predicate NoneVanishes(f: Frame, pts: seq<RawPoint>, depth: nat) {
    forall i :: 0 <= i < |pts| ==> CountIn(f, pts, KeyAt(f, pts[i], depth)) % CELL_SPAN != 0
  }

  /** Every point lies in a planned cell of the counted grid: what a plan needs to cover them all,
      and no more. */
  ghost predicate AllPlanned(f: Frame, pts: seq<RawPoint>, depth: nat, target: nat) {
    forall g: Grid, i: nat :: g.depth == depth && CellsTallied(f, pts, g) && i < |pts| ==> Planned(g, target, KeyAt(f, pts[i], depth))
  }

  /** A point whose cell's counter does not read zero is planned, whether or not it has wrapped. */
  lemma CountedIsPlanned(f: Frame, pts: seq<RawPoint>, g: Grid, target: nat, i: nat)
    requires CellsTallied(f, pts, g) && NoneVanishes(f, pts, g.depth) && i < |pts|
    ensures Planned(g, target, KeyAt(f, pts[i], g.depth))
  {
    var q := KeyAt(f, pts[i], g.depth);
    KeyInRange(f, pts[i], g.depth);
    assert At(g.counts, FlatKey(q)) == CountIn(f, pts, q) % CELL_SPAN;
    assert Under(q, q) && Stops(g, target, q);
  }

  /** Every point has its chunk as long as no populated cell's counter reads zero, even where a
      counter has wrapped. */
  lemma CountedIsCovered(f: Frame, pts: seq<RawPoint>, g: Grid, target: nat, cells: seq<VoxelKey>, chunks: seq<Chunk>, i: nat)
    requires CellsTallied(f, pts, g) && NoneVanishes(f, pts, g.depth) && Plan(g, target, cells, chunks) && i < |pts|
    ensures CoversPoint(f, chunks, pts[i])
  {
    CountedIsPlanned(f, pts, g, target, i);
    PlanCovers(f, g, target, cells, chunks, pts[i]);
  }

  lemma WrapsNonZero(n: nat)
    requires 0 < n < CELL_SPAN
    ensures n % CELL_SPAN != 0
  {
  }

  lemma NoWrapNoVanish(f: Frame, pts: seq<RawPoint>, depth: nat)
    requires NoneWraps(f, pts, depth)
    ensures NoneVanishes(f, pts, depth)
  {
    forall i | 0 <= i < |pts| ensures CountIn(f, pts, KeyAt(f, pts[i], depth)) % CELL_SPAN != 0 {
      KeyInRange(f, pts[i], depth);
      CountInMember(f, pts, pts[i], KeyAt(f, pts[i], depth));
      WrapsNonZero(CountIn(f, pts, KeyAt(f, pts[i], depth)));
    }
  }

  lemma {:induction false} CopiesCount(f: Frame, pts: seq<RawPoint>, p: RawPoint, k: VoxelKey)
    requires forall i :: 0 <= i < |pts| ==> pts[i] == p
    ensures CountIn(f, pts, k) == if KeyAt(f, p, k.level) == k then |pts| else 0
  {
    if pts != [] {
      CopiesCount(f, pts[..|pts| - 1], p, k);
    }
  }

  lemma {:induction false} EmptyPop(g: Grid, k: VoxelKey)
    requires forall q: VoxelKey :: q.level == g.depth && InRange(q) ==> At(g.counts, FlatKey(q)) == 0
    requires InRange(k) && k.level <= g.depth
    ensures Pop(g, k) == 0
    decreases g.depth - k.level, 9
  {
    if k.level < g.depth {
      EmptyPopSum(g, k, 8);
    }
  }

  lemma {:induction false} EmptyPopSum(g: Grid, k: VoxelKey, n: nat)
    requires forall q: VoxelKey :: q.level == g.depth && InRange(q) ==> At(g.counts, FlatKey(q)) == 0
    requires InRange(k) && k.level < g.depth && n <= 8
    ensures PopSum(g, k, n) == 0
    decreases g.depth - k.level, n
  {
    if n > 0 {
      EmptyPopSum(g, k, n - 1);
      ChildFacts(k, n - 1);
      EmptyPop(g, Child(k, n - 1));
    }
  }

  lemma AnyMember(cells: seq<VoxelKey>) returns (k: VoxelKey)
    requires cells != []
    ensures k in cells
  {
    k := cells[0];
  }

  /** The counters' width is a real limit: `2^32` copies of one point leave every counter at zero,
      so the plan has no chunk for them. */
  lemma VanishingCell(f: Frame, p: RawPoint, n: nat, g: Grid, target: nat, cells: seq<VoxelKey>, chunks: seq<Chunk>)
    requires n == CELL_SPAN && CellsTallied(f, Copies(p, n), g) && Plan(g, target, cells, chunks)
    ensures chunks == [] && !CoversPoint(f, chunks, p)
  {
    forall q: VoxelKey | q.level == g.depth && InRange(q) ensures At(g.counts, FlatKey(q)) == 0 {
      CopiesCount(f, Copies(p, n), p, q);
      assert At(g.counts, FlatKey(q)) == CountIn(f, Copies(p, n), q) % CELL_SPAN;
    }
    forall k ensures !Maximal(g, target, k) {
      if k.level <= g.depth && InRange(k) {
        EmptyPop(g, k);
      }
    }
    if cells != [] {
      var k := AnyMember(cells);
    }
  }
}
