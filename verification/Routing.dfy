/** The cell-to-chunk routing table and its lookup (`build_chunk_lut` and the routing closure of
    `distribute` in src/octree.rs), proved to send every covered point to its chunk. */
module Routing {
  import opened Arith
  import opened Voxel
  import opened Points
  import opened PlanGrid
  import opened SubSplit
  import opened PlanFacts

  const NO_CHUNK: nat := 0xFFFF_FFFF
  const SUBSPLIT_MARKER: nat := 0xFFFF_FFFE

  /** Where the sub-chunks of a split cell start and how deep they are. */
  datatype SubSplitEntry = SubSplitEntry(k: nat, base: nat)

  type SubTable = map<nat, SubSplitEntry>

  /** The grid cell that contains a sub-chunk. */
  function CellOf(depth: nat, q: VoxelKey): VoxelKey
    requires depth <= q.level
  {
    AncestorAt(q, depth)
  }

  ghost predicate IsSub(depth: nat, chunks: seq<Chunk>, i: nat) {
    i < |chunks| && chunks[i].root.level > depth
  }

  function EntryOf(depth: nat, chunks: seq<Chunk>, i: nat): (e: SubSplitEntry)
    requires i < |chunks| && depth <= chunks[i].root.level
    requires SubOctantIndex(chunks[i].root, chunks[i].root.level - depth) <= i
  {
    var k := chunks[i].root.level - depth;
    SubSplitEntry(k, i - SubOctantIndex(chunks[i].root, k))
  }

  /** Chunk `i` at or above the grid depth owns its cells. */
  ghost predicate Owns(depth: nat, chunks: seq<Chunk>, i: nat, cells: seq<nat>)
    requires i < |chunks|
  {
    forall q: VoxelKey :: q.level == depth && InRange(q) && Under(q, chunks[i].root) ==> At(cells, FlatKey(q)) == i
  }

  /** Sub-chunk `i` is described by its cell's entry. */
  ghost predicate Described(depth: nat, chunks: seq<Chunk>, i: nat, cells: seq<nat>, sub: SubTable)
    requires i < |chunks| && chunks[i].root.level > depth
    requires SubOctantIndex(chunks[i].root, chunks[i].root.level - depth) <= i
  {
    var idx := FlatKey(CellOf(depth, chunks[i].root));
    At(cells, idx) == SUBSPLIT_MARKER && idx in sub && sub[idx] == EntryOf(depth, chunks, i)
  }

  /** The table is right for the first `n` chunks. */
  ghost predicate Table(depth: nat, chunks: seq<Chunk>, n: nat, cells: seq<nat>, sub: SubTable)
    requires n <= |chunks| && Shape(depth, chunks)
  {
    |cells| == Pow8(depth) &&
    (forall i: nat :: i < n && chunks[i].root.level <= depth ==> Owns(depth, chunks, i, cells)) &&
    (forall i: nat :: i < n && IsSub(depth, chunks, i) ==> Described(depth, chunks, i, cells, sub)) &&
    (forall idx :: idx in sub ==> Witnessed(depth, chunks, n, idx, sub[idx]))
  }

  /** Some sub-chunk put this entry here. */
  ghost predicate Witnessed(depth: nat, chunks: seq<Chunk>, n: nat, idx: nat, e: SubSplitEntry)
    requires n <= |chunks| && Shape(depth, chunks)
  {
    exists i: nat :: i < n && IsSub(depth, chunks, i) && FlatKey(CellOf(depth, chunks[i].root)) == idx &&
                     EntryOf(depth, chunks, i) == e
  }

  lemma CellInRange(depth: nat, q: VoxelKey)
    requires depth <= q.level && InRange(q)
    ensures InRange(CellOf(depth, q))
    decreases q.level
  {
    if depth < q.level {
      ChildOfParent(q);
      CellInRange(depth, Parent(q).value);
    }
  }

  /** Sub-chunks of one cell agree on its entry. */
  lemma SameEntry(depth: nat, chunks: seq<Chunk>, i: nat, j: nat)
    requires Shape(depth, chunks) && IsSub(depth, chunks, i) && IsSub(depth, chunks, j)
    requires CellOf(depth, chunks[i].root) == CellOf(depth, chunks[j].root)
    ensures EntryOf(depth, chunks, i) == EntryOf(depth, chunks, j)
  {
    if chunks[i].root.level <= chunks[j].root.level {
      InBlock(depth, chunks, i, j);
    } else {
      InBlock(depth, chunks, j, i);
    }
  }

  /** A sub-chunk of the same cell, no shallower, is a member of the block. */
  lemma InBlock(depth: nat, chunks: seq<Chunk>, i: nat, j: nat)
    requires Shape(depth, chunks) && IsSub(depth, chunks, i) && IsSub(depth, chunks, j)
    requires CellOf(depth, chunks[i].root) == CellOf(depth, chunks[j].root)
    requires chunks[i].root.level <= chunks[j].root.level
    ensures EntryOf(depth, chunks, i) == EntryOf(depth, chunks, j)
  {
    var cell, e := CellOf(depth, chunks[i].root), chunks[i].root.level - depth;
    var q := AncestorAt(chunks[j].root, chunks[i].root.level);
    AncestorCompose(chunks[j].root, chunks[i].root.level, depth);
    SubRootOfIndex(cell, e, q);
    assert Contiguous(depth, chunks, i);
    InBlockAt(depth, chunks, i, j, q, e, SubOctantIndex(chunks[i].root, e), SubOctantIndex(q, e));
  }

  /** The chunk of the block at the index of `j`'s ancestor can only be `j` itself. */
  lemma InBlockAt(depth: nat, chunks: seq<Chunk>, i: nat, j: nat, q: VoxelKey, e: nat, oi: nat, oj: nat)
    requires Unnested(chunks) && IsSub(depth, chunks, i) && IsSub(depth, chunks, j) && Contiguous(depth, chunks, i)
    requires e == chunks[i].root.level - depth && oi == SubOctantIndex(chunks[i].root, e) && oj == SubOctantIndex(q, e) < Pow8(e)
    requires Under(chunks[j].root, q) && SubRoot(CellOf(depth, chunks[i].root), e, oj) == q
    ensures chunks[j].root.level == q.level ==> EntryOf(depth, chunks, i) == EntryOf(depth, chunks, j)
    ensures chunks[j].root == q
  {
    var m := i - oi + oj;
    assert chunks[m].root == q;
    assert Under(chunks[j].root, chunks[m].root);
    assert m == j;
  }

  /** Marking the cell of sub-chunk `n`. */
  lemma TableSub(depth: nat, chunks: seq<Chunk>, n: nat, cells: seq<nat>, sub: SubTable, idx: nat, e: SubSplitEntry,
                 cells': seq<nat>, sub': SubTable)
    requires Shape(depth, chunks) && n < |chunks| && Table(depth, chunks, n, cells, sub) && IsSub(depth, chunks, n)
    requires idx == FlatKey(CellOf(depth, chunks[n].root)) && idx < |cells| && cells' == cells[idx := SUBSPLIT_MARKER]
    requires Contiguous(depth, chunks, n) && e == EntryOf(depth, chunks, n)
    requires sub' == if idx in sub then sub else sub[idx := e]
    ensures Table(depth, chunks, n + 1, cells', sub')
  {
    CellInRange(depth, chunks[n].root);
    forall i: nat | i < n && chunks[i].root.level <= depth ensures Owns(depth, chunks, i, cells') {
      OwnsElsewhere(depth, chunks, i, n, cells, idx);
    }
    EntryKnown(depth, chunks, n, cells, sub, idx);
    SubDescribed(depth, chunks, n, cells, sub, idx, e, cells', sub');
    forall x | x in sub' ensures Witnessed(depth, chunks, n + 1, x, sub'[x]) {
      if x in sub {
        WitnessLater(depth, chunks, n, x, sub[x]);
      }
    }
  }

  lemma SubDescribed(depth: nat, chunks: seq<Chunk>, n: nat, cells: seq<nat>, sub: SubTable, idx: nat, e: SubSplitEntry,
                     cells': seq<nat>, sub': SubTable)
    requires Shape(depth, chunks) && n < |chunks| && Table(depth, chunks, n, cells, sub) && IsSub(depth, chunks, n)
    requires idx == FlatKey(CellOf(depth, chunks[n].root)) && idx < |cells| && cells' == cells[idx := SUBSPLIT_MARKER]
    requires Contiguous(depth, chunks, n) && e == EntryOf(depth, chunks, n) && (idx in sub ==> sub[idx] == e)
    requires sub' == if idx in sub then sub else sub[idx := e]
    ensures forall i: nat :: i < n + 1 && IsSub(depth, chunks, i) ==> Described(depth, chunks, i, cells', sub')
  {
    forall i: nat | i < n + 1 && IsSub(depth, chunks, i) ensures Described(depth, chunks, i, cells', sub') {
      if i < n {
        assert Described(depth, chunks, i, cells, sub);
      }
    }
  }

  lemma WitnessLater(depth: nat, chunks: seq<Chunk>, n: nat, idx: nat, e: SubSplitEntry)
    requires Shape(depth, chunks) && n < |chunks| && Witnessed(depth, chunks, n, idx, e)
    ensures Witnessed(depth, chunks, n + 1, idx, e)
  {
  }

  /** An existing entry of the cell is the one sub-chunk `n` would insert. */
  lemma EntryKnown(depth: nat, chunks: seq<Chunk>, n: nat, cells: seq<nat>, sub: SubTable, idx: nat)
    requires Shape(depth, chunks) && n < |chunks| && Table(depth, chunks, n, cells, sub) && IsSub(depth, chunks, n)
    requires idx == FlatKey(CellOf(depth, chunks[n].root))
    ensures idx in sub ==> sub[idx] == EntryOf(depth, chunks, n)
  {
    if idx in sub {
      EntryUnique(depth, chunks, n, idx, sub[idx]);
    }
  }

  lemma EntryUnique(depth: nat, chunks: seq<Chunk>, n: nat, idx: nat, e: SubSplitEntry)
    requires Shape(depth, chunks) && n < |chunks| && Witnessed(depth, chunks, n, idx, e) && IsSub(depth, chunks, n)
    requires idx == FlatKey(CellOf(depth, chunks[n].root))
    ensures e == EntryOf(depth, chunks, n)
  {
    var i: nat :| i < n && IsSub(depth, chunks, i) && FlatKey(CellOf(depth, chunks[i].root)) == idx &&
                  EntryOf(depth, chunks, i) == e;
    CellInRange(depth, chunks[i].root);
    CellInRange(depth, chunks[n].root);
    FlatKeyInjective(CellOf(depth, chunks[i].root), CellOf(depth, chunks[n].root));
    SameEntry(depth, chunks, i, n);
  }

  lemma OwnsElsewhere(depth: nat, chunks: seq<Chunk>, i: nat, n: nat, cells: seq<nat>, idx: nat)
    requires Shape(depth, chunks) && i < n < |chunks| && chunks[i].root.level <= depth && IsSub(depth, chunks, n)
    requires Owns(depth, chunks, i, cells) && idx == FlatKey(CellOf(depth, chunks[n].root)) && idx < |cells|
    requires InRange(CellOf(depth, chunks[n].root))
    ensures Owns(depth, chunks, i, cells[idx := SUBSPLIT_MARKER])
  {
    var cell := CellOf(depth, chunks[n].root);
    forall q: VoxelKey | q.level == depth && InRange(q) && Under(q, chunks[i].root)
      ensures At(cells[idx := SUBSPLIT_MARKER], FlatKey(q)) == i
    {
      if FlatKey(q) == idx {
        FlatKeyInjective(q, cell);
        UnderTransitive(chunks[n].root, cell, chunks[i].root);
      }
    }
  }

  /** A box of grid cells. */
  datatype Box = Box(x0: nat, x1: nat, y0: nat, y1: nat, z0: nat, z1: nat)

  predicate InBox(q: VoxelKey, b: Box) {
    b.x0 <= q.x < b.x1 && b.y0 <= q.y < b.y1 && b.z0 <= q.z < b.z1
  }

  /** `q` comes before the loop position. */
  predicate Before(q: VoxelKey, x: nat, y: nat, z: nat) {
    q.z < z || (q.z == z && (q.y < y || (q.y == y && q.x < x)))
  }

  ghost predicate Filled(depth: nat, was: seq<nat>, now: seq<nat>, n: nat, b: Box, x: nat, y: nat, z: nat) {
    |now| == |was| == Pow8(depth) &&
    forall q: VoxelKey :: q.level == depth && InRange(q) ==>
      At(now, FlatKey(q)) == if InBox(q, b) && Before(q, x, y, z) then n else At(was, FlatKey(q))
  }

  lemma FilledStep(depth: nat, was: seq<nat>, now: seq<nat>, n: nat, b: Box, x: nat, y: nat, z: nat, idx: nat)
    requires Filled(depth, was, now, n, b, x, y, z) && InBox(VoxelKey(depth, x, y, z), b)
    requires x < Pow2(depth) && y < Pow2(depth) && z < Pow2(depth)
    requires idx == FlatKey(VoxelKey(depth, x, y, z)) && idx < |now|
    ensures Filled(depth, was, now[idx := n], n, b, x + 1, y, z)
  {
    var c := VoxelKey(depth, x, y, z);
    forall q: VoxelKey | q.level == depth && InRange(q)
      ensures At(now[idx := n], FlatKey(q)) == if InBox(q, b) && Before(q, x + 1, y, z) then n else At(was, FlatKey(q))
    {
      if FlatKey(q) == idx {
        FlatKeyInjective(q, c);
      } else {
        assert q != c;
        assert At(now[idx := n], FlatKey(q)) == At(now, FlatKey(q));
      }
    }
  }

  lemma FilledMove(depth: nat, was: seq<nat>, now: seq<nat>, n: nat, b: Box, x: nat, y: nat, z: nat, x': nat, y': nat, z': nat)
    requires Filled(depth, was, now, n, b, x, y, z)
    requires forall q: VoxelKey :: InBox(q, b) ==> (Before(q, x, y, z) <==> Before(q, x', y', z'))
    ensures Filled(depth, was, now, n, b, x', y', z')
  {
  }

  /** One row of the covered cube. */
  method FillRow(depth: nat, cells: array<nat>, n: nat, b: Box, y: nat, z: nat, ghost was: seq<nat>)
    requires b.x0 <= b.x1 <= Pow2(depth) && b.y0 <= y < b.y1 <= Pow2(depth) && b.z0 <= z < b.z1 <= Pow2(depth)
    requires Filled(depth, was, cells[..], n, b, b.x0, y, z)
    modifies cells
    ensures Filled(depth, was, cells[..], n, b, b.x0, y + 1, z)
  {
    var g := Pow2(depth);
    for x := b.x0 to b.x1
      invariant Filled(depth, was, cells[..], n, b, x, y, z)
    {
      FlatKeyInRange(VoxelKey(depth, x, y, z));
      var idx := x + y * g + z * g * g;
      FilledStep(depth, was, cells[..], n, b, x, y, z, idx);
      ghost var now := cells[..];
      cells[idx] := n;
      assert cells[..] == now[idx := n];
    }
    FilledMove(depth, was, cells[..], n, b, b.x1, y, z, b.x0, y + 1, z);
  }

  method FillPlane(depth: nat, cells: array<nat>, n: nat, b: Box, z: nat, ghost was: seq<nat>)
    requires b.x0 <= b.x1 <= Pow2(depth) && b.y0 <= b.y1 <= Pow2(depth) && b.z0 <= z < b.z1 <= Pow2(depth)
    requires Filled(depth, was, cells[..], n, b, b.x0, b.y0, z)
    modifies cells
    ensures Filled(depth, was, cells[..], n, b, b.x0, b.y0, z + 1)
  {
    for y := b.y0 to b.y1
      invariant Filled(depth, was, cells[..], n, b, b.x0, y, z)
    {
      FillRow(depth, cells, n, b, y, z, was);
    }
    FilledMove(depth, was, cells[..], n, b, b.x0, b.y1, z, b.x0, b.y0, z + 1);
  }

  ghost predicate BoxFilled(depth: nat, was: seq<nat>, now: seq<nat>, n: nat, b: Box) {
    |now| == |was| == Pow8(depth) &&
    forall q: VoxelKey :: q.level == depth && InRange(q) ==>
      At(now, FlatKey(q)) == if InBox(q, b) then n else At(was, FlatKey(q))
  }

  method FillBox(depth: nat, cells: array<nat>, n: nat, b: Box)
    requires b.x0 <= b.x1 <= Pow2(depth) && b.y0 <= b.y1 <= Pow2(depth) && b.z0 <= b.z1 <= Pow2(depth)
    requires cells.Length == Pow8(depth)
    modifies cells
    ensures BoxFilled(depth, old(cells[..]), cells[..], n, b)
  {
    ghost var was := cells[..];
    for z := b.z0 to b.z1
      invariant Filled(depth, was, cells[..], n, b, b.x0, b.y0, z)
    {
      FillPlane(depth, cells, n, b, z, was);
    }
    assert forall q: VoxelKey :: InBox(q, b) ==> Before(q, b.x0, b.y0, b.z1);
  }

  function Min(a: nat, b: nat): nat { if a < b then a else b }

  /** One axis of the cube a chunk covers; the clamps to the grid never bind. */
  lemma AxisCube(v: nat, level: nat, depth: nat, q: nat)
    requires level <= depth && v < Pow2(level)
    ensures var s := Pow2(depth - level);
            v * s + s <= Pow2(depth) && (Shr(q, depth - level) == v <==> v * s <= q < v * s + s)
  {
    var s := Pow2(depth - level);
    Pow2Add(level, depth - level);
    MulLe(v + 1, Pow2(level), s);
    assert (v + 1) * s == v * s + s;
    AxisQuotient(q, v, s);
  }

  lemma AxisBox(v: nat, level: nat, depth: nat)
    requires level <= depth && v < Pow2(level)
    ensures var s, g := Pow2(depth - level), Pow2(depth);
            v * s >= 0 && Min(v * s, g) == v * s && Min(v * s + s, g) == v * s + s
  {
    AxisCube(v, level, depth, 0);
    MulLe(0, v, Pow2(depth - level));
  }

  lemma AxisQuotient(q: nat, v: nat, s: nat)
    requires s > 0
    ensures q / s == v <==> v * s <= q < v * s + s
  {
    if v * s <= q < v * s + s {
      DivModUnique(v, s, q - v * s);
    } else {
      assert q == (q / s) * s + q % s;
    }
  }

  /** The cells of a chunk are the box the code computes. */
  lemma CubeIsBox(root: VoxelKey, depth: nat, b: Box, q: VoxelKey)
    requires root.level <= depth == q.level && InRange(root)
    requires var s := Pow2(depth - root.level);
             b == Box(root.x * s, root.x * s + s, root.y * s, root.y * s + s, root.z * s, root.z * s + s)
    ensures InBox(q, b) <==> Under(q, root)
  {
    AncestorByShift(q, root.level);
    AxisCube(root.x, root.level, depth, q.x);
    AxisCube(root.y, root.level, depth, q.y);
    AxisCube(root.z, root.level, depth, q.z);
  }

  /** The cube of cells of a chunk at or above the grid depth. */
  method ChunkBox(depth: nat, root: VoxelKey) returns (b: Box)
    requires root.level <= depth && InRange(root)
    ensures b.x0 <= b.x1 <= Pow2(depth) && b.y0 <= b.y1 <= Pow2(depth) && b.z0 <= b.z1 <= Pow2(depth)
    ensures forall q: VoxelKey :: q.level == depth ==> (InBox(q, b) <==> Under(q, root))
  {
    var g, stride := Pow2(depth), Pow2(depth - root.level);
    AxisBox(root.x, root.level, depth);
    AxisBox(root.y, root.level, depth);
    AxisBox(root.z, root.level, depth);
    var baseX, baseY, baseZ := Min(root.x * stride, g), Min(root.y * stride, g), Min(root.z * stride, g);
    b := Box(baseX, Min(baseX + stride, g), baseY, Min(baseY + stride, g), baseZ, Min(baseZ + stride, g));
    forall q: VoxelKey | q.level == depth ensures InBox(q, b) <==> Under(q, root) {
      CubeIsBox(root, depth, b, q);
    }
  }

  /** The cells of chunk `n` now point at it. */
  ghost predicate Painted(depth: nat, root: VoxelKey, n: nat, was: seq<nat>, now: seq<nat>) {
    |now| == |was| &&
    forall q: VoxelKey :: q.level == depth && InRange(q) ==>
      At(now, FlatKey(q)) == if Under(q, root) then n else At(was, FlatKey(q))
  }

  method Paint(depth: nat, cells: array<nat>, root: VoxelKey, n: nat)
    requires root.level <= depth && InRange(root) && cells.Length == Pow8(depth)
    modifies cells
    ensures Painted(depth, root, n, old(cells[..]), cells[..])
  {
    var b := ChunkBox(depth, root);
    FillBox(depth, cells, n, b);
  }

  lemma TablePainted(depth: nat, chunks: seq<Chunk>, n: nat, cells: seq<nat>, cells': seq<nat>, sub: SubTable)
    requires Shape(depth, chunks) && n < |chunks| && Table(depth, chunks, n, cells, sub)
    requires chunks[n].root.level <= depth && Painted(depth, chunks[n].root, n, cells, cells')
    ensures Table(depth, chunks, n + 1, cells', sub)
  {
    forall i: nat | i < n && chunks[i].root.level <= depth ensures Owns(depth, chunks, i, cells') {
      OwnsAfterPaint(depth, chunks, i, n, cells, cells');
    }
    forall i: nat | i < n && IsSub(depth, chunks, i) ensures Described(depth, chunks, i, cells', sub) {
      DescribedAfterPaint(depth, chunks, i, n, cells, cells', sub);
    }
    forall x | x in sub ensures Witnessed(depth, chunks, n + 1, x, sub[x]) {
      WitnessLater(depth, chunks, n, x, sub[x]);
    }
  }

  lemma OwnsAfterPaint(depth: nat, chunks: seq<Chunk>, i: nat, n: nat, cells: seq<nat>, cells': seq<nat>)
    requires Shape(depth, chunks) && i < n < |chunks| && Owns(depth, chunks, i, cells)
    requires chunks[i].root.level <= depth && chunks[n].root.level <= depth
    requires Painted(depth, chunks[n].root, n, cells, cells')
    ensures Owns(depth, chunks, i, cells')
  {
    forall q: VoxelKey | q.level == depth && InRange(q) && Under(q, chunks[i].root) ensures At(cells', FlatKey(q)) == i {
      if Under(q, chunks[n].root) {
        if chunks[i].root.level <= chunks[n].root.level {
          AncestorsComparable(q, chunks[n].root, chunks[i].root);
        } else {
          AncestorsComparable(q, chunks[i].root, chunks[n].root);
        }
      }
    }
  }

  lemma DescribedAfterPaint(depth: nat, chunks: seq<Chunk>, i: nat, n: nat, cells: seq<nat>, cells': seq<nat>, sub: SubTable)
    requires Shape(depth, chunks) && i < n < |chunks| && IsSub(depth, chunks, i) && chunks[n].root.level <= depth
    requires Contiguous(depth, chunks, i) && Described(depth, chunks, i, cells, sub)
    requires Painted(depth, chunks[n].root, n, cells, cells')
    ensures Described(depth, chunks, i, cells', sub)
  {
    var cell := CellOf(depth, chunks[i].root);
    CellInRange(depth, chunks[i].root);
    if Under(cell, chunks[n].root) {
      UnderTransitive(chunks[i].root, cell, chunks[n].root);
    }
  }

  /** Record sub-chunk `n`: mark its cell and insert its entry if the cell has none. */
  method AddSubChunk(depth: nat, chunks: seq<Chunk>, n: nat, cells: array<nat>, sub: SubTable) returns (sub': SubTable)
    requires Shape(depth, chunks) && n < |chunks| && IsSub(depth, chunks, n)
    requires Table(depth, chunks, n, cells[..], sub)
    modifies cells
    ensures Table(depth, chunks, n + 1, cells[..], sub')
  {
    var q, k := chunks[n].root, chunks[n].root.level - depth;
    AncestorByShift(q, depth);
    CellInRange(depth, q);
    var cell := Shifted(q, depth);
    FlatKeyInRange(cell);
    var g := Pow2(depth);
    var idx := cell.x + cell.y * g + cell.z * g * g;
    assert Contiguous(depth, chunks, n);
    var octant := SubOctantIndex(q, k);
    sub' := sub;
    if idx !in sub {
      sub' := sub[idx := SubSplitEntry(k, n - octant)];
    }
    ghost var was := cells[..];
    cells[idx] := SUBSPLIT_MARKER;
    TableSub(depth, chunks, n, was, sub, idx, SubSplitEntry(k, n - octant), cells[..], sub');
  }

  /** `build_chunk_lut`. */
  method BuildChunkLut(depth: nat, chunks: seq<Chunk>) returns (cells: array<nat>, sub: SubTable)
    requires Shape(depth, chunks)
    ensures fresh(cells) && Table(depth, chunks, |chunks|, cells[..], sub)
  {
    cells := new nat[Pow8(depth)](_ => NO_CHUNK);
    sub := map[];
    for n := 0 to |chunks|
      invariant Table(depth, chunks, n, cells[..], sub)
    {
      if chunks[n].root.level > depth {
        sub := AddSubChunk(depth, chunks, n, cells, sub);
      } else {
        ghost var was := cells[..];
        Paint(depth, cells, chunks[n].root, n);
        TablePainted(depth, chunks, n, was, cells[..], sub);
      }
    }
  }

  /** The clamped local coordinate of a deep voxel within its cell. */
  function Local(deep: nat, cell: nat, span: nat): nat
    requires span > 0
  {
    var lo := cell * span;
    if deep < lo then 0 else if deep - lo > span - 1 then span - 1 else deep - lo
  }

  /** The clamp changes nothing: the deep voxel lies in the cell. */
  lemma LocalIsLowBits(deep: nat, cell: nat, e: nat)
    requires Shr(deep, e) == cell
    ensures Local(deep, cell, Pow2(e)) == deep % Pow2(e)
  {
    AxisJoin(deep, cell, e);
  }

  /** The voxels of a point, level by level. */
  function PathOf(f: Frame, p: RawPoint): nat -> VoxelKey {
    (level: nat) => KeyAt(f, p, level)
  }

  /** What the table says about the cell `idx` of a point with these voxels, whose chunk is `i`. */
  ghost predicate PointsTo(path: nat -> VoxelKey, depth: nat, cells: seq<nat>, sub: SubTable, idx: nat, i: nat) {
    At(cells, idx) == i ||
    (At(cells, idx) == SUBSPLIT_MARKER && idx in sub && depth + sub[idx].k <= MAX_LEVEL &&
     sub[idx].base + SubOctantIndex(path(depth + sub[idx].k), sub[idx].k) == i)
  }

  lemma SubEntry(path: nat -> VoxelKey, depth: nat, chunks: seq<Chunk>, cells: seq<nat>, sub: SubTable, i: nat, idx: nat)
    requires i < |chunks| && depth < chunks[i].root.level <= MAX_LEVEL && Contiguous(depth, chunks, i)
    requires Described(depth, chunks, i, cells, sub)
    requires chunks[i].root == path(chunks[i].root.level) && CellOf(depth, chunks[i].root) == path(depth)
    requires idx == FlatKey(path(depth))
    ensures PointsTo(path, depth, cells, sub, idx, i)
  {
    var q, e := chunks[i].root, EntryOf(depth, chunks, i);
    BaseOfEntry(depth, chunks, i, e, q);
    PointsToSub(path, depth, cells, sub, idx, i, q, e);
  }

  lemma PointsToSub(path: nat -> VoxelKey, depth: nat, cells: seq<nat>, sub: SubTable, idx: nat, i: nat, q: VoxelKey, e: SubSplitEntry)
    requires At(cells, idx) == SUBSPLIT_MARKER && idx in sub && sub[idx] == e
    requires q == path(q.level) && depth + e.k == q.level <= MAX_LEVEL && e.base + SubOctantIndex(q, e.k) == i
    ensures PointsTo(path, depth, cells, sub, idx, i)
  {
  }

  lemma BaseOfEntry(depth: nat, chunks: seq<Chunk>, i: nat, e: SubSplitEntry, q: VoxelKey)
    requires i < |chunks| && q == chunks[i].root && depth <= q.level && SubOctantIndex(q, q.level - depth) <= i
    requires e == EntryOf(depth, chunks, i)
    ensures depth + e.k == q.level && e.base + SubOctantIndex(q, e.k) == i
  {
  }

  lemma CoarseEntry(f: Frame, depth: nat, chunks: seq<Chunk>, cells: seq<nat>, p: RawPoint, i: nat, idx: nat)
    requires i < |chunks| && chunks[i].root.level <= depth && Owns(depth, chunks, i, cells)
    requires chunks[i].root == KeyAt(f, p, chunks[i].root.level) && idx == FlatKey(KeyAt(f, p, depth))
    ensures At(cells, idx) == i
  {
    KeyInRange(f, p, depth);
    DescentRefines(f, p, chunks[i].root.level, depth);
  }

  /** No level of the plan is too deep for 32-bit coordinates. */
  ghost predicate Reachable(depth: nat, chunks: seq<Chunk>) {
    depth <= MAX_LEVEL && forall i :: 0 <= i < |chunks| ==> chunks[i].root.level <= MAX_LEVEL
  }

  /** A covered point's chunk, seen from the table. */
  lemma TableEntry(f: Frame, depth: nat, chunks: seq<Chunk>, cells: seq<nat>, sub: SubTable, p: RawPoint, idx: nat)
    returns (i: nat)
    requires Shape(depth, chunks) && Table(depth, chunks, |chunks|, cells, sub) && CoversPoint(f, chunks, p) && Reachable(depth, chunks)
    requires idx == FlatKey(KeyAt(f, p, depth))
    ensures i < |chunks| && chunks[i].root == KeyAt(f, p, chunks[i].root.level)
    ensures PointsTo(PathOf(f, p), depth, cells, sub, idx, i)
  {
    i :| i < |chunks| && KeyAt(f, p, chunks[i].root.level) == chunks[i].root;
    if chunks[i].root.level <= depth {
      assert Owns(depth, chunks, i, cells);
      CoarseEntry(f, depth, chunks, cells, p, i, idx);
    } else {
      assert IsSub(depth, chunks, i) && Contiguous(depth, chunks, i);
      DescentRefines(f, p, depth, chunks[i].root.level);
      SubEntry(PathOf(f, p), depth, chunks, cells, sub, i, idx);
    }
  }

  /** The offset of a point's sub-chunk inside its cell's block. */
  method SubChunkOffset(f: Frame, p: RawPoint, depth: nat, k: nat, gx: nat, gy: nat, gz: nat) returns (offset: nat)
    requires VoxelKey(depth, gx, gy, gz) == KeyAt(f, p, depth) && depth + k <= MAX_LEVEL
    ensures offset == SubOctantIndex(KeyAt(f, p, depth + k), k)
  {
    var deep := Classify(f, p, depth + k);
    DescentRefinesByShift(f, p, depth, depth + k);
    var span := Pow2(k);
    LocalIsLowBits(deep.x, gx, k);
    LocalIsLowBits(deep.y, gy, k);
    LocalIsLowBits(deep.z, gz, k);
    offset := RowMajorOffset(Local(deep.x, gx, span), Local(deep.y, gy, span), Local(deep.z, gz, span), span);
  }

  method RowMajorOffset(lx: nat, ly: nat, lz: nat, span: nat) returns (offset: nat)
    ensures offset == Flat(lx, ly, lz, span)
  {
    offset := lx + ly * span + lz * span * span;
  }

  /** Read the table at a cell and descend further when the cell was split. */
  method FollowEntry(f: Frame, p: RawPoint, depth: nat, cells: array<nat>, sub: SubTable,
                     gx: nat, gy: nat, gz: nat, idx: nat, ghost i: nat)
    returns (chunkIdx: nat)
    requires VoxelKey(depth, gx, gy, gz) == KeyAt(f, p, depth) && idx < cells.Length && i < SUBSPLIT_MARKER
    requires PointsTo(PathOf(f, p), depth, cells[..], sub, idx, i)
    ensures chunkIdx == i
  {
    assert cells[idx] == At(cells[..], idx);
    chunkIdx := cells[idx];
    if chunkIdx == SUBSPLIT_MARKER {
      var s := sub[idx];
      var offset := SubChunkOffset(f, p, depth, s.k, gx, gy, gz);
      chunkIdx := s.base + offset;
    }
  }

  /** The routing of one point: every covered point reaches the chunk whose root is its voxel. */
  method Route(f: Frame, p: RawPoint, depth: nat, ghost chunks: seq<Chunk>, cells: array<nat>, sub: SubTable)
    returns (chunkIdx: nat)
    requires Shape(depth, chunks) && Table(depth, chunks, |chunks|, cells[..], sub) && |chunks| <= SUBSPLIT_MARKER
    requires CoversPoint(f, chunks, p) && Reachable(depth, chunks)
    ensures chunkIdx < |chunks| && chunks[chunkIdx].root == KeyAt(f, p, chunks[chunkIdx].root.level)
  {
    var gx, gy, gz, idx := GridCell(f, p, depth);
    ghost var i := TableEntry(f, depth, chunks, cells[..], sub, p, idx);
    chunkIdx := FollowEntry(f, p, depth, cells, sub, gx, gy, gz, idx, i);
  }
}
