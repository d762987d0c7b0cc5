/** The counting grid of src/chunking.rs and the population of the octree cells above it. */
module PlanGrid {
  import opened Arith
  import opened Voxel
  import opened Points
  import opened SplitLevel

  /** Counts of the `2^depth`-cubed grid, row-major. */
  datatype Grid = Grid(depth: nat, counts: seq<nat>)

  predicate GridOk(g: Grid) {
    |g.counts| == Pow8(g.depth)
  }

  /** Index of a cell within its level. */
  function FlatKey(k: VoxelKey): nat {
    Flat(k.x, k.y, k.z, Pow2(k.level))
  }

  lemma FlatKeyInRange(k: VoxelKey)
    requires InRange(k)
    ensures FlatKey(k) < Pow8(k.level)
  {
    FlatInRange(k.x, k.y, k.z, Pow2(k.level));
  }

  lemma FlatKeyInjective(a: VoxelKey, b: VoxelKey)
    requires InRange(a) && InRange(b) && a.level == b.level && FlatKey(a) == FlatKey(b)
    ensures a == b
  {
    FlatInjective(a.x, a.y, a.z, b.x, b.y, b.z, Pow2(a.level));
  }

  function Child(k: VoxelKey, o: nat): VoxelKey
    requires o < 8
  {
    VoxelKey(k.level + 1, 2 * k.x + o % 2, 2 * k.y + (o / 2) % 2, 2 * k.z + o / 4)
  }

  function OctantOf(c: VoxelKey): nat {
    c.x % 2 + 2 * (c.y % 2) + 4 * (c.z % 2)
  }

  lemma ChildFacts(k: VoxelKey, o: nat)
    requires o < 8
    ensures Parent(Child(k, o)) == Some(k) && OctantOf(Child(k, o)) == o
    ensures InRange(k) ==> InRange(Child(k, o))
  {
  }

  lemma ChildOfParent(c: VoxelKey)
    requires c.level > 0
    ensures OctantOf(c) < 8 && c == Child(Parent(c).value, OctantOf(c))
    ensures InRange(c) ==> InRange(Parent(c).value)
  {
    OctantBits(c.x % 2, c.y % 2, c.z % 2);
    assert c.x == 2 * (c.x / 2) + c.x % 2 && c.y == 2 * (c.y / 2) + c.y % 2 && c.z == 2 * (c.z / 2) + c.z % 2;
  }

  lemma OctantBits(a: nat, b: nat, c: nat)
    requires a < 2 && b < 2 && c < 2
    ensures var o := a + 2 * b + 4 * c; o < 8 && o % 2 == a && (o / 2) % 2 == b && o / 4 == c
  {
  }

  function At(counts: seq<nat>, i: nat): nat {
    if i < |counts| then counts[i] else 0
  }

  /** Population of a cell at the grid's depth or above. */
  function Pop(g: Grid, k: VoxelKey): nat
    decreases g.depth - k.level, 9
  {
    if k.level >= g.depth then At(g.counts, FlatKey(k)) else PopSum(g, k, 8)
  }

  /** Population of the first `n` children. */
  function PopSum(g: Grid, k: VoxelKey, n: nat): nat
    requires k.level < g.depth && n <= 8
    decreases g.depth - k.level, n
  {
    if n == 0 then 0 else PopSum(g, k, n - 1) + Pop(g, Child(k, n - 1))
  }

  lemma {:induction false} PopSumAtLeast(g: Grid, k: VoxelKey, n: nat, o: nat)
    requires k.level < g.depth && o < n <= 8
    ensures PopSum(g, k, n) >= Pop(g, Child(k, o))
  {
    if o < n - 1 {
      PopSumAtLeast(g, k, n - 1, o);
    }
  }

  /** A cell holds at least as many points as any of its descendants. */
  lemma {:induction false} PopBelow(g: Grid, k: VoxelKey, a: VoxelKey)
    requires Under(k, a) && k.level <= g.depth
    ensures Pop(g, k) <= Pop(g, a)
    decreases k.level
  {
    if k.level > a.level {
      var p := Parent(k).value;
      ChildOfParent(k);
      PopSumAtLeast(g, p, 8, OctantOf(k));
      PopBelow(g, p, a);
    }
  }

  /** The points of a cell are the points of its children. */
  ghost function CountSum(f: Frame, pts: seq<RawPoint>, k: VoxelKey, n: nat): nat
    requires n <= 8
  {
    if n == 0 then 0 else CountSum(f, pts, k, n - 1) + CountIn(f, pts, Child(k, n - 1))
  }

  lemma IsChild(c: VoxelKey, k: VoxelKey) returns (at: nat)
    requires c.level == k.level + 1
    ensures Parent(c) == Some(k) <==> at < 8
    ensures forall o: nat :: o < 8 ==> (c == Child(k, o) <==> o == at)
  {
    at := if Parent(c) == Some(k) then OctantOf(c) else 8;
    ChildOfParent(c);
    forall o: nat | o < 8 ensures c == Child(k, o) <==> o == at {
      ChildFacts(k, o);
    }
  }

  lemma {:induction false} CountSumSnoc(f: Frame, pts: seq<RawPoint>, p: RawPoint, k: VoxelKey, n: nat, at: nat)
    requires n <= 8 && forall o: nat :: o < 8 ==> (KeyAt(f, p, k.level + 1) == Child(k, o) <==> o == at)
    ensures CountSum(f, pts + [p], k, n) == CountSum(f, pts, k, n) + (if at < n then 1 else 0)
  {
    if n > 0 {
      CountSumSnoc(f, pts, p, k, n - 1, at);
      CountInSnoc(f, pts, p, Child(k, n - 1));
    }
  }

  lemma {:induction false} CountSumNone(f: Frame, k: VoxelKey, n: nat)
    requires n <= 8
    ensures CountSum(f, [], k, n) == 0
  {
    if n > 0 {
      CountSumNone(f, k, n - 1);
    }
  }

  lemma {:induction false} CountByChildren(f: Frame, pts: seq<RawPoint>, k: VoxelKey)
    ensures CountIn(f, pts, k) == CountSum(f, pts, k, 8)
  {
    if pts == [] {
      CountSumNone(f, k, 8);
    } else {
      var n := |pts| - 1;
      CountByChildren(f, pts[..n], k);
      ParentOfDescent(f, pts[n], k.level + 1);
      var at := IsChild(KeyAt(f, pts[n], k.level + 1), k);
      CountSumSnoc(f, pts[..n], pts[n], k, 8, at);
      assert pts[..n] + [pts[n]] == pts;
    }
  }

  /** The grid holds the true population of every finest cell. */
  ghost predicate Counted(f: Frame, pts: seq<RawPoint>, g: Grid) {
    GridOk(g) && forall k: VoxelKey :: k.level == g.depth && InRange(k) ==> At(g.counts, FlatKey(k)) == CountIn(f, pts, k)
  }

  /** The pyramid holds the true population of every cell. */
  lemma {:induction false} PopIsCount(f: Frame, pts: seq<RawPoint>, g: Grid, k: VoxelKey)
    requires Counted(f, pts, g) && InRange(k) && k.level <= g.depth
    ensures Pop(g, k) == CountIn(f, pts, k)
    decreases g.depth - k.level, 9
  {
    if k.level < g.depth {
      PopSumIsCount(f, pts, g, k, 8);
      CountByChildren(f, pts, k);
    }
  }

  lemma {:induction false} PopSumIsCount(f: Frame, pts: seq<RawPoint>, g: Grid, k: VoxelKey, n: nat)
    requires Counted(f, pts, g) && InRange(k) && k.level < g.depth && n <= 8
    ensures PopSum(g, k, n) == CountSum(f, pts, k, n)
    decreases g.depth - k.level, n
  {
    if n > 0 {
      PopSumIsCount(f, pts, g, k, n - 1);
      ChildFacts(k, n - 1);
      PopIsCount(f, pts, g, Child(k, n - 1));
    }
  }

  lemma {:induction false} RootCount(f: Frame, pts: seq<RawPoint>)
    ensures CountIn(f, pts, ROOT) == |pts|
  {
    if pts != [] {
      RootCount(f, pts[..|pts| - 1]);
    }
  }

  /** A cell's counter is 32 bits wide and wraps around. */
  const CELL_SPAN: nat := 0x1_0000_0000

  /** What the counting pass leaves: each finest cell's population, modulo the counter's span. */
  ghost predicate CellsTallied(f: Frame, pts: seq<RawPoint>, g: Grid) {
    GridOk(g) &&
    forall k: VoxelKey :: k.level == g.depth && InRange(k) ==> At(g.counts, FlatKey(k)) == CountIn(f, pts, k) % CELL_SPAN
  }

  /** No finest cell holds so many points that its counter wraps. */
  ghost predicate NoneWraps(f: Frame, pts: seq<RawPoint>, depth: nat) {
    forall k: VoxelKey :: k.level == depth && InRange(k) ==> CountIn(f, pts, k) < CELL_SPAN
  }

  lemma BelowSpan(n: nat)
    requires n < CELL_SPAN
    ensures n % CELL_SPAN == n
  {
  }

  lemma TalliedIsCounted(f: Frame, pts: seq<RawPoint>, g: Grid)
    requires CellsTallied(f, pts, g) && NoneWraps(f, pts, g.depth)
    ensures Counted(f, pts, g)
  {
    forall k: VoxelKey | k.level == g.depth && InRange(k) ensures At(g.counts, FlatKey(k)) == CountIn(f, pts, k) {
      BelowSpan(CountIn(f, pts, k));
    }
  }

  /** Wrapped or not, the pyramid never holds more than the true population. */
  lemma {:induction false} PopAtMostCount(f: Frame, pts: seq<RawPoint>, g: Grid, k: VoxelKey)
    requires CellsTallied(f, pts, g) && InRange(k) && k.level <= g.depth
    ensures Pop(g, k) <= CountIn(f, pts, k)
    decreases g.depth - k.level, 9
  {
    if k.level < g.depth {
      PopSumAtMostCount(f, pts, g, k, 8);
      CountByChildren(f, pts, k);
    } else {
      assert At(g.counts, FlatKey(k)) == CountIn(f, pts, k) % CELL_SPAN;
    }
  }

  lemma {:induction false} PopSumAtMostCount(f: Frame, pts: seq<RawPoint>, g: Grid, k: VoxelKey, n: nat)
    requires CellsTallied(f, pts, g) && InRange(k) && k.level < g.depth && n <= 8
    ensures PopSum(g, k, n) <= CountSum(f, pts, k, n)
    decreases g.depth - k.level, n
  {
    if n > 0 {
      PopSumAtMostCount(f, pts, g, k, n - 1);
      ChildFacts(k, n - 1);
      PopAtMostCount(f, pts, g, Child(k, n - 1));
    }
  }

  lemma WrapStep(n: nat)
    ensures (n % CELL_SPAN + 1) % CELL_SPAN == (n + 1) % CELL_SPAN
  {
  }

  lemma CountOne(f: Frame, pts: seq<RawPoint>, p: RawPoint, depth: nat, counts: seq<nat>, idx: nat)
    requires CellsTallied(f, pts, Grid(depth, counts)) && idx == FlatKey(KeyAt(f, p, depth)) && idx < |counts|
    ensures CellsTallied(f, pts + [p], Grid(depth, counts[idx := (counts[idx] + 1) % CELL_SPAN]))
  {
    var key := KeyAt(f, p, depth);
    KeyInRange(f, p, depth);
    var counts' := counts[idx := (counts[idx] + 1) % CELL_SPAN];
    forall k: VoxelKey | k.level == depth && InRange(k)
      ensures At(counts', FlatKey(k)) == CountIn(f, pts + [p], k) % CELL_SPAN
    {
      FlatKeyInRange(k);
      CountInSnoc(f, pts, p, k);
      WrapStep(CountIn(f, pts, k));
      assert At(counts, FlatKey(k)) == CountIn(f, pts, k) % CELL_SPAN;
      if FlatKey(k) == idx {
        FlatKeyInjective(k, key);
      }
    }
  }

  /** Clamping a coordinate to the grid, as every stage does. */
  function Clamp(v: nat, size: nat): nat
    requires size > 0
  {
    if v < size - 1 then v else size - 1
  }

  /** The grid cell of a point and its index; the clamps change nothing. */
  method GridCell(f: Frame, p: RawPoint, depth: nat) returns (gx: nat, gy: nat, gz: nat, idx: nat)
    requires depth <= MAX_LEVEL
    ensures VoxelKey(depth, gx, gy, gz) == KeyAt(f, p, depth)
    ensures idx == FlatKey(KeyAt(f, p, depth)) && idx < Pow8(depth)
  {
    var g := Pow2(depth);
    var key := Classify(f, p, depth);
    KeyInRange(f, p, depth);
    FlatKeyInRange(key);
    gx, gy, gz := Clamp(key.x, g), Clamp(key.y, g), Clamp(key.z, g);
    idx := gx + gy * g + gz * g * g;
  }

  lemma EmptyGrid(f: Frame, depth: nat, counts: seq<nat>)
    requires |counts| == Pow8(depth) && forall i :: 0 <= i < |counts| ==> counts[i] == 0
    ensures CellsTallied(f, [], Grid(depth, counts))
  {
  }

  /** The counting pass. */
  method CountPoints(f: Frame, pts: seq<RawPoint>, depth: nat) returns (grid: array<nat>)
    requires depth <= MAX_LEVEL
    ensures fresh(grid) && CellsTallied(f, pts, Grid(depth, grid[..]))
    ensures NoneWraps(f, pts, depth) ==> Counted(f, pts, Grid(depth, grid[..]))
  {
    grid := new nat[Pow8(depth)](_ => 0);
    EmptyGrid(f, depth, grid[..]);
    assert pts[..0] == [];
    for i := 0 to |pts|
      invariant CellsTallied(f, pts[..i], Grid(depth, grid[..]))
    {
      var gx, gy, gz, idx := GridCell(f, pts[i], depth);
      CountOne(f, pts[..i], pts[i], depth, grid[..], idx);
      assert pts[..i + 1] == pts[..i] + [pts[i]];
      ghost var was := grid[..];
      grid[idx] := (grid[idx] + 1) % CELL_SPAN;
      assert grid[..] == was[idx := (was[idx] + 1) % CELL_SPAN];
    }
    assert pts[..|pts|] == pts;
    if NoneWraps(f, pts, depth) {
      TalliedIsCounted(f, pts, Grid(depth, grid[..]));
    }
  }
}
