/** `grid_sample` of src/octree.rs: choose the points of a parent voxel from the points of
    its children, at most one per cell of a uniform grid. */
module Sampling {
  import opened Arith
  import opened Voxel
  import opened Points
  import opened NodeMap

  const GRID: nat := 128
  const GRID_CELLS: nat := GRID * GRID * GRID

  /** A gathered point with the index of the child it came from. */
  datatype Tagged = Tagged(child: nat, p: RawPoint)

  function Untag(s: seq<Tagged>): seq<RawPoint> {
    seq(|s|, i requires 0 <= i < |s| => s[i].p)
  }

  function TagSeq(child: nat, s: seq<RawPoint>): seq<Tagged> {
    seq(|s|, i requires 0 <= i < |s| => Tagged(child, s[i]))
  }

  /** All points of per-child lists, each tagged with its list's index. */
  ghost function TagAll(lists: seq<seq<RawPoint>>): multiset<Tagged> {
    if lists == [] then multiset{}
    else TagAll(lists[..|lists| - 1]) + multiset(TagSeq(|lists| - 1, lists[|lists| - 1]))
  }

  ghost function SumAll(lists: seq<seq<RawPoint>>): multiset<RawPoint> {
    if lists == [] then multiset{}
    else SumAll(lists[..|lists| - 1]) + multiset(lists[|lists| - 1])
  }

  lemma UntagPush(s: seq<Tagged>, t: Tagged)
    ensures Untag(s + [t]) == Untag(s) + [t.p]
  {
  }

  lemma TagSeqPush(child: nat, s: seq<RawPoint>, p: RawPoint)
    ensures TagSeq(child, s + [p]) == TagSeq(child, s) + [Tagged(child, p)]
  {
  }

  lemma Snoc<T>(s: seq<T>, x: T)
    ensures multiset(s + [x]) == multiset(s) + multiset{x}
  {
  }

  lemma AddToSum<T>(a: multiset<T>, b: multiset<T>, c: multiset<T>, x: T)
    requires a == b + c
    ensures a + multiset{x} == (b + multiset{x}) + c
    ensures a + multiset{x} == b + (c + multiset{x})
  {
  }

  /** Pushing a point onto one list adds exactly that point. */
  lemma {:induction false} PushTagged(lists: seq<seq<RawPoint>>, c: nat, p: RawPoint)
    requires c < |lists|
    ensures TagAll(Pushed(lists, c, p)) == TagAll(lists) + multiset{Tagged(c, p)}
  {
    var n := |lists| - 1;
    if c == n {
      PushTaggedLast(lists, p);
    } else {
      PushedPrefix(lists, c, p);
      PushTagged(lists[..n], c, p);
      TagAllLast(lists);
      TagAllLast(Pushed(lists, c, p));
      AddToSum(TagAll(lists), TagAll(lists[..n]), multiset(TagSeq(n, lists[n])), Tagged(c, p));
    }
  }

  lemma TagAllLast(lists: seq<seq<RawPoint>>)
    requires lists != []
    ensures var n := |lists| - 1; TagAll(lists) == TagAll(lists[..n]) + multiset(TagSeq(n, lists[n]))
  {
  }

  lemma PushTaggedLast(lists: seq<seq<RawPoint>>, p: RawPoint)
    requires lists != []
    ensures var n := |lists| - 1;
            TagAll(Pushed(lists, n, p)) == TagAll(lists) + multiset{Tagged(n, p)}
  {
    var n := |lists| - 1;
    var last := lists[n];
    PushedPrefix(lists, n, p);
    TagSeqPush(n, last, p);
    Snoc(TagSeq(n, last), Tagged(n, p));
    AddToSum(TagAll(lists), TagAll(lists[..n]), multiset(TagSeq(n, last)), Tagged(n, p));
  }

  lemma {:induction false} PushSummed(lists: seq<seq<RawPoint>>, c: nat, p: RawPoint)
    requires c < |lists|
    ensures SumAll(Pushed(lists, c, p)) == SumAll(lists) + multiset{p}
  {
    var n := |lists| - 1;
    PushedPrefix(lists, c, p);
    if c == n {
      Snoc(lists[n], p);
    } else {
      PushSummed(lists[..n], c, p);
    }
  }

  lemma PushedPrefix(lists: seq<seq<RawPoint>>, c: nat, p: RawPoint)
    requires c < |lists|
    ensures var n := |lists| - 1;
            Pushed(lists, c, p)[..n] == if c == n then lists[..n] else Pushed(lists[..n], c, p)
  {
  }

  function Pushed(lists: seq<seq<RawPoint>>, c: nat, p: RawPoint): seq<seq<RawPoint>>
    requires c < |lists|
  {
    lists[c := lists[c] + [p]]
  }

  lemma {:induction false} TagAllMember(lists: seq<seq<RawPoint>>, t: Tagged)
    ensures t in TagAll(lists) <==> t.child < |lists| && t.p in lists[t.child]
  {
    if lists != [] {
      var n := |lists| - 1;
      TagAllMember(lists[..n], t);
      TagSeqMember(n, lists[n], t);
    }
  }

  lemma TagSeqMember(child: nat, s: seq<RawPoint>, t: Tagged)
    ensures t in TagSeq(child, s) <==> t.child == child && t.p in s
  {
    var ts := TagSeq(child, s);
    if t.child == child && t.p in s {
      var i :| 0 <= i < |s| && s[i] == t.p;
      assert ts[i] == t;
    }
  }

  lemma {:induction false} TagAllEmpty(lists: seq<seq<RawPoint>>)
    requires forall c :: 0 <= c < |lists| ==> lists[c] == []
    ensures TagAll(lists) == multiset{} && SumAll(lists) == multiset{}
  {
    if lists != [] {
      TagAllEmpty(lists[..|lists| - 1]);
    }
  }

  lemma RemovedMultiset<T>(b: seq<T>, i: nat)
    requires i < |b|
    ensures multiset(b) == multiset(b[..i] + b[i + 1..]) + multiset{b[i]}
  {
    assert b == b[..i] + [b[i]] + b[i + 1..];
  }

  lemma UntagRemoved(b: seq<Tagged>, i: nat)
    requires i < |b|
    ensures multiset(Untag(b)) == multiset(Untag(b[..i] + b[i + 1..])) + multiset{b[i].p}
  {
    var u := Untag(b);
    assert Untag(b[..i] + b[i + 1..]) == u[..i] + u[i + 1..];
    RemovedMultiset(u, i);
  }

  function Max(a: int, b: int): int { if a < b then b else a }

  function MinReal(a: real, b: real): real { if a < b then a else b }

  /** Cell index on one axis, clamped to the grid. */
  function GridCellAxis(offset: int, intSize: nat): nat
    requires intSize > 0
  {
    var c := Max(offset, 0) * GRID / intSize;
    if c < 0 then 0 else if c > GRID - 1 then GRID - 1 else c
  }

  /** Integer coordinate of a voxel's lower face on one axis. */
  function Origin(c: real, half: real, v: nat, size: real, offset: real, scale: Scale): int {
    Round((VoxelLow(c, half, v, size) - offset) / scale)
  }

  function Smallest(f: Frame): Scale {
    MinReal(MinReal(f.scaleX, f.scaleY), f.scaleZ)
  }

  /** Voxel edge in integer units, at least one unit per cell. */
  function IntSize(f: Frame, size: real): nat {
    Max(Round(size / Smallest(f)), GRID)
  }

  /** The cell of a point within its parent voxel, on each axis. */
  function CellX(f: Frame, v: VoxelKey, p: RawPoint): (c: nat)
    ensures c < GRID
  {
    var size := VoxelSize(f.half, v.level);
    GridCellAxis(p.x - Origin(f.cx, f.half, v.x, size, f.offsetX, f.scaleX), IntSize(f, size))
  }

  function CellY(f: Frame, v: VoxelKey, p: RawPoint): (c: nat)
    ensures c < GRID
  {
    var size := VoxelSize(f.half, v.level);
    GridCellAxis(p.y - Origin(f.cy, f.half, v.y, size, f.offsetY, f.scaleY), IntSize(f, size))
  }

  function CellZ(f: Frame, v: VoxelKey, p: RawPoint): (c: nat)
    ensures c < GRID
  {
    var size := VoxelSize(f.half, v.level);
    GridCellAxis(p.z - Origin(f.cz, f.half, v.z, size, f.offsetZ, f.scaleZ), IntSize(f, size))
  }

  /** The sampling cell of a point within its parent voxel. */
  function GridIdx(f: Frame, parent: VoxelKey, p: RawPoint): (c: nat)
    ensures c < GRID_CELLS
  {
    var gx, gy, gz := CellX(f, parent, p), CellY(f, parent, p), CellZ(f, parent, p);
    FlatInRange(gx, gy, gz, GRID);
    Flat(gx, gy, gz, GRID)
  }

  /** One unit less than the difference is less than a cell edge, a 128th of the voxel's. */
  predicate WithinCell(a: int, b: int, intSize: nat) {
    (a - b - 1) * GRID < intSize && (b - a - 1) * GRID < intSize
  }

  /** The stored coordinates are within one cell edge of the voxel on every axis. */
  predicate Near(f: Frame, v: VoxelKey, p: RawPoint, q: RawPoint) {
    var n := IntSize(f, VoxelSize(f.half, v.level));
    WithinCell(p.x, q.x, n) && WithinCell(p.y, q.y, n) && WithinCell(p.z, q.z, n)
  }

  lemma AxisCell(offset: int, n: nat)
    requires 0 <= offset <= n && n > 0
    ensures var c := GridCellAxis(offset, n); c * n <= offset * GRID && (offset - 1) * GRID < (c + 1) * n
  {
    DivBounds(offset * GRID, n);
    CellFloor(offset * GRID / n, offset, n);
  }

  lemma DivBounds(a: nat, n: nat)
    requires n > 0
    ensures 0 <= a / n && a / n * n <= a < (a / n + 1) * n
  {
    assert a == a / n * n + a % n;
    assert (a / n + 1) * n == a / n * n + n;
  }

  lemma CellFloor(q: nat, offset: nat, n: nat)
    requires n > 0 && offset <= n && q * n <= offset * GRID < (q + 1) * n
    ensures var c := if q > GRID - 1 then GRID - 1 else q; c * n <= offset * GRID && (offset - 1) * GRID < (c + 1) * n
  {
    if q > GRID - 1 {
      MulLe(GRID, q, n);
    }
  }

  /** Offsets in one cell of an axis differ by at most a cell edge. */
  lemma SameAxisCell(a: int, b: int, n: nat)
    requires 0 <= a <= n && 0 <= b <= n && n > 0 && GridCellAxis(a, n) == GridCellAxis(b, n)
    ensures WithinCell(a, b, n)
  {
    AxisCell(a, n);
    AxisCell(b, n);
    var c := GridCellAxis(a, n);
    assert (c + 1) * n == c * n + n;
  }

  /** Offsets of a point of the voxel from its integer origin stay within the voxel's edge. */
  lemma OffsetInVoxel(v: int, low: real, size: real, offset: real, scale: Scale, smallest: Scale, n: nat, origin: int)
    requires low <= v as real * scale + offset < low + size && smallest <= scale
    requires origin == Round((low - offset) / scale) && n >= Round(size / smallest)
    ensures 0 <= v - origin <= n
  {
    var t, u := (low - offset) / scale, size / smallest;
    assert t * scale == low - offset && u * smallest == size;
    assert size <= u * scale;
    assert (v as real - t) * scale == v as real * scale - t * scale;
    CancelScale(t, v as real, scale);
    CancelScale(v as real - t, u, scale);
  }

  lemma CancelScale(a: real, b: real, s: Scale)
    ensures a * s <= b * s ==> a <= b
    ensures a * s < b * s ==> a < b
  {
    assert b * s - a * s == (b - a) * s;
  }

  lemma SmallestFacts(f: Frame, size: real)
    ensures Smallest(f) <= f.scaleX && Smallest(f) <= f.scaleY && Smallest(f) <= f.scaleZ
    ensures IntSize(f, size) >= Round(size / Smallest(f)) && IntSize(f, size) > 0
  {
  }

  /** A coordinate between the faces of a voxel on one axis. */
  lemma OffsetBracketed(a: int, c: real, half: real, v: nat, size: real, offset: real, scale: Scale, smallest: Scale, n: nat)
    requires Brackets(a as real * scale + offset, c, half, v, size) && smallest <= scale && n >= Round(size / smallest)
    ensures 0 <= a - Origin(c, half, v, size, offset, scale) <= n
  {
    VoxelLowHalved(c, half, v, size);
    OffsetInVoxel(a, VoxelLow(c, half, v, size), size, offset, scale, smallest, n, Origin(c, half, v, size, offset, scale));
  }

  lemma OffsetX(f: Frame, v: VoxelKey, p: RawPoint)
    requires Brackets(WorldX(f, p), f.cx, f.half, v.x, VoxelSize(f.half, v.level))
    ensures var size := VoxelSize(f.half, v.level);
            0 <= p.x - Origin(f.cx, f.half, v.x, size, f.offsetX, f.scaleX) <= IntSize(f, size)
  {
    var size := VoxelSize(f.half, v.level);
    SmallestFacts(f, size);
    OffsetBracketed(p.x, f.cx, f.half, v.x, size, f.offsetX, f.scaleX, Smallest(f), IntSize(f, size));
  }

  lemma OffsetY(f: Frame, v: VoxelKey, p: RawPoint)
    requires Brackets(WorldY(f, p), f.cy, f.half, v.y, VoxelSize(f.half, v.level))
    ensures var size := VoxelSize(f.half, v.level);
            0 <= p.y - Origin(f.cy, f.half, v.y, size, f.offsetY, f.scaleY) <= IntSize(f, size)
  {
    var size := VoxelSize(f.half, v.level);
    SmallestFacts(f, size);
    OffsetBracketed(p.y, f.cy, f.half, v.y, size, f.offsetY, f.scaleY, Smallest(f), IntSize(f, size));
  }

  lemma OffsetZ(f: Frame, v: VoxelKey, p: RawPoint)
    requires Brackets(WorldZ(f, p), f.cz, f.half, v.z, VoxelSize(f.half, v.level))
    ensures var size := VoxelSize(f.half, v.level);
            0 <= p.z - Origin(f.cz, f.half, v.z, size, f.offsetZ, f.scaleZ) <= IntSize(f, size)
  {
    var size := VoxelSize(f.half, v.level);
    SmallestFacts(f, size);
    OffsetBracketed(p.z, f.cz, f.half, v.z, size, f.offsetZ, f.scaleZ, Smallest(f), IntSize(f, size));
  }

  lemma NearX(f: Frame, v: VoxelKey, p: RawPoint, q: RawPoint, n: nat, o: int)
    requires n == IntSize(f, VoxelSize(f.half, v.level))
    requires o == Origin(f.cx, f.half, v.x, VoxelSize(f.half, v.level), f.offsetX, f.scaleX)
    requires 0 <= p.x - o <= n && 0 <= q.x - o <= n && CellX(f, v, p) == CellX(f, v, q)
    ensures WithinCell(p.x, q.x, n)
  {
    SameAxisCell(p.x - o, q.x - o, n);
  }

  lemma NearY(f: Frame, v: VoxelKey, p: RawPoint, q: RawPoint, n: nat, o: int)
    requires n == IntSize(f, VoxelSize(f.half, v.level))
    requires o == Origin(f.cy, f.half, v.y, VoxelSize(f.half, v.level), f.offsetY, f.scaleY)
    requires 0 <= p.y - o <= n && 0 <= q.y - o <= n && CellY(f, v, p) == CellY(f, v, q)
    ensures WithinCell(p.y, q.y, n)
  {
    SameAxisCell(p.y - o, q.y - o, n);
  }

  lemma NearZ(f: Frame, v: VoxelKey, p: RawPoint, q: RawPoint, n: nat, o: int)
    requires n == IntSize(f, VoxelSize(f.half, v.level))
    requires o == Origin(f.cz, f.half, v.z, VoxelSize(f.half, v.level), f.offsetZ, f.scaleZ)
    requires 0 <= p.z - o <= n && 0 <= q.z - o <= n && CellZ(f, v, p) == CellZ(f, v, q)
    ensures WithinCell(p.z, q.z, n)
  {
    SameAxisCell(p.z - o, q.z - o, n);
  }

  /** What a sampling cell is: points of the voxel that share one are within a cell edge of each
      other on every axis. */
  lemma SameCellIsNear(f: Frame, v: VoxelKey, p: RawPoint, q: RawPoint)
    requires InVoxelBox(f, p, v) && InVoxelBox(f, q, v) && GridIdx(f, v, p) == GridIdx(f, v, q)
    ensures Near(f, v, p, q)
  {
    FlatInjective(CellX(f, v, p), CellY(f, v, p), CellZ(f, v, p), CellX(f, v, q), CellY(f, v, q), CellZ(f, v, q), GRID);
    var size := VoxelSize(f.half, v.level);
    OffsetX(f, v, p);
    OffsetX(f, v, q);
    NearX(f, v, p, q, IntSize(f, size), Origin(f.cx, f.half, v.x, size, f.offsetX, f.scaleX));
    OffsetY(f, v, p);
    OffsetY(f, v, q);
    NearY(f, v, p, q, IntSize(f, size), Origin(f.cy, f.half, v.y, size, f.offsetY, f.scaleY));
    OffsetZ(f, v, p);
    OffsetZ(f, v, q);
    NearZ(f, v, p, q, IntSize(f, size), Origin(f.cz, f.half, v.z, size, f.offsetZ, f.scaleZ));
  }

  /** A cell edge in units of the smallest scale: a 128th of the voxel's edge, at least one unit. */
  predicate UnitsApart(a: int, b: int, edge: real, s: Scale) {
    var d := (if a < b then b - a else a - b) - 1;
    d < 1 || (d * 128) as real < edge / s + 0.5
  }

  /** What near means for the frame as given: the voxel's edge is the root's over 2^level, and the
      unit the smallest of the three scales. */
  lemma NearIsFine(f: Frame, v: VoxelKey, p: RawPoint, q: RawPoint, edge: real, s: Scale)
    requires Near(f, v, p, q)
    requires edge * Pow2(v.level) as real == 2.0 * f.half
    requires s <= f.scaleX && s <= f.scaleY && s <= f.scaleZ && (s == f.scaleX || s == f.scaleY || s == f.scaleZ)
    ensures UnitsApart(p.x, q.x, edge, s) && UnitsApart(p.y, q.y, edge, s) && UnitsApart(p.z, q.z, edge, s)
  {
    EdgeIs(f, v.level, edge);
    SmallestIs(f, s);
    NearUnits(f, v, p, q, edge, s);
  }

  lemma SmallestIs(f: Frame, s: Scale)
    requires s <= f.scaleX && s <= f.scaleY && s <= f.scaleZ && (s == f.scaleX || s == f.scaleY || s == f.scaleZ)
    ensures s == Smallest(f)
  {
  }

  lemma EdgeIs(f: Frame, level: nat, edge: real)
    requires edge * Pow2(level) as real == 2.0 * f.half
    ensures edge == VoxelSize(f.half, level)
  {
    VoxelSizeIsFraction(f.half, level);
    SameQuotient(edge, VoxelSize(f.half, level), Pow2(level));
  }

  lemma NearUnits(f: Frame, v: VoxelKey, p: RawPoint, q: RawPoint, edge: real, s: Scale)
    requires Near(f, v, p, q) && edge == VoxelSize(f.half, v.level) && s == Smallest(f)
    ensures UnitsApart(p.x, q.x, edge, s) && UnitsApart(p.y, q.y, edge, s) && UnitsApart(p.z, q.z, edge, s)
  {
    var n := IntSize(f, edge);
    NearInUnits(p.x, q.x, edge, s, n);
    NearInUnits(p.y, q.y, edge, s, n);
    NearInUnits(p.z, q.z, edge, s, n);
  }

  lemma SameQuotient(a: real, b: real, n: nat)
    requires n > 0 && a * n as real == b * n as real
    ensures a == b
  {
    assert (a - b) * n as real == 0.0;
  }

  lemma NearInUnits(a: int, b: int, edge: real, s: Scale, n: nat)
    requires WithinCell(a, b, n) && n == Max(Round(edge / s), GRID)
    ensures UnitsApart(a, b, edge, s)
  {
  }

  /** The closure `grid_idx` of one parent voxel. */
  function CellOf(f: Frame, parent: VoxelKey): (cell: RawPoint -> nat)
    ensures forall p :: cell(p) < GRID_CELLS
  {
    (p: RawPoint) => GridIdx(f, parent, p)
  }

  /** Distinct points of the list occupy distinct cells. */
  ghost predicate OnePerCell(cell: RawPoint -> nat, s: seq<Tagged>) {
    forall i, j :: 0 <= i < j < |s| ==> cell(s[i].p) != cell(s[j].p)
  }

  ghost function Cells(cell: RawPoint -> nat, s: seq<Tagged>): set<nat> {
    set t | t in s :: cell(t.p)
  }

  /** `kept` and the per-child lists partition `pts`, every point keeping its child. */
  ghost predicate Partition(pts: seq<Tagged>, kept: seq<Tagged>, lists: seq<seq<RawPoint>>) {
    multiset(pts) == multiset(kept) + TagAll(lists) &&
    multiset(Untag(pts)) == multiset(Untag(kept)) + SumAll(lists)
  }

  ghost predicate Contributes(pts: seq<Tagged>, child: nat) {
    exists t :: t in pts && t.child == child
  }

  predicate AllEmpty(lists: seq<seq<RawPoint>>) {
    forall c :: 0 <= c < |lists| ==> lists[c] == []
  }

  lemma TakeOneMore(pts: seq<Tagged>, i: nat)
    requires i < |pts|
    ensures multiset(pts[..i + 1]) == multiset(pts[..i]) + multiset{pts[i]}
    ensures multiset(Untag(pts[..i + 1])) == multiset(Untag(pts[..i])) + multiset{pts[i].p}
  {
    assert pts[..i + 1] == pts[..i] + [pts[i]];
    Snoc(pts[..i], pts[i]);
    UntagPush(pts[..i], pts[i]);
    Snoc(Untag(pts[..i]), pts[i].p);
  }

  lemma PartitionKeep(pts: seq<Tagged>, i: nat, kept: seq<Tagged>, lists: seq<seq<RawPoint>>)
    requires i < |pts| && Partition(pts[..i], kept, lists)
    ensures Partition(pts[..i + 1], kept + [pts[i]], lists)
  {
    TakeOneMore(pts, i);
    Snoc(kept, pts[i]);
    UntagPush(kept, pts[i]);
    Snoc(Untag(kept), pts[i].p);
    AddToSum(multiset(pts[..i]), multiset(kept), TagAll(lists), pts[i]);
    AddToSum(multiset(Untag(pts[..i])), multiset(Untag(kept)), SumAll(lists), pts[i].p);
  }

  lemma PartitionReturn(pts: seq<Tagged>, i: nat, kept: seq<Tagged>, lists: seq<seq<RawPoint>>)
    requires i < |pts| && pts[i].child < |lists| && Partition(pts[..i], kept, lists)
    ensures Partition(pts[..i + 1], kept, Pushed(lists, pts[i].child, pts[i].p))
  {
    TakeOneMore(pts, i);
    PushTagged(lists, pts[i].child, pts[i].p);
    PushSummed(lists, pts[i].child, pts[i].p);
    AddToSum(multiset(pts[..i]), multiset(kept), TagAll(lists), pts[i]);
    AddToSum(multiset(Untag(pts[..i])), multiset(Untag(kept)), SumAll(lists), pts[i].p);
  }

  lemma CellsSnoc(cell: RawPoint -> nat, s: seq<Tagged>, t: Tagged)
    ensures Cells(cell, s + [t]) == Cells(cell, s) + {cell(t.p)}
  {
    var s' := s + [t];
    forall u | u in s ensures u in s' {}
    assert t in s';
  }

  lemma OnePerCellSnoc(cell: RawPoint -> nat, s: seq<Tagged>, t: Tagged)
    requires OnePerCell(cell, s) && cell(t.p) !in Cells(cell, s)
    ensures OnePerCell(cell, s + [t])
  {
    var s' := s + [t];
    forall i | 0 <= i < |s| ensures cell(s'[i].p) in Cells(cell, s) {
      assert s[i] in s;
    }
  }

  /** What the scan has established after `i` points. */
  ghost predicate Scanned(cell: RawPoint -> nat, pts: seq<Tagged>, i: nat,
                          kept: seq<Tagged>, lists: seq<seq<RawPoint>>, cells: set<nat>)
    requires i <= |pts|
  {
    Partition(pts[..i], kept, lists) && OnePerCell(cell, kept) &&
    cells == Cells(cell, kept) && cells == Cells(cell, pts[..i])
  }

  lemma ScanStart(cell: RawPoint -> nat, pts: seq<Tagged>, lists: seq<seq<RawPoint>>)
    requires AllEmpty(lists)
    ensures Scanned(cell, pts, 0, [], lists, {})
  {
    TagAllEmpty(lists);
    assert pts[..0] == [];
  }

  lemma ScanKeep(cell: RawPoint -> nat, pts: seq<Tagged>, i: nat,
                 kept: seq<Tagged>, lists: seq<seq<RawPoint>>, cells: set<nat>)
    requires i < |pts| && Scanned(cell, pts, i, kept, lists, cells)
    requires cell(pts[i].p) !in cells
    ensures Scanned(cell, pts, i + 1, kept + [pts[i]], lists, cells + {cell(pts[i].p)})
  {
    assert pts[..i + 1] == pts[..i] + [pts[i]];
    CellsSnoc(cell, pts[..i], pts[i]);
    CellsSnoc(cell, kept, pts[i]);
    PartitionKeep(pts, i, kept, lists);
    OnePerCellSnoc(cell, kept, pts[i]);
  }

  lemma ScanReturn(cell: RawPoint -> nat, pts: seq<Tagged>, i: nat,
                   kept: seq<Tagged>, lists: seq<seq<RawPoint>>, cells: set<nat>)
    requires i < |pts| && pts[i].child < |lists| && Scanned(cell, pts, i, kept, lists, cells)
    requires cell(pts[i].p) in cells
    ensures Scanned(cell, pts, i + 1, kept, Pushed(lists, pts[i].child, pts[i].p), cells)
  {
    assert pts[..i + 1] == pts[..i] + [pts[i]];
    CellsSnoc(cell, pts[..i], pts[i]);
    PartitionReturn(pts, i, kept, lists);
  }

  /** The scan over the sorted points: the first point of each cell is kept. */
  method Scan(cell: RawPoint -> nat, pts: seq<Tagged>, nChildren: nat)
    returns (kept: seq<Tagged>, remaining: seq<seq<RawPoint>>)
    requires forall t :: t in pts ==> t.child < nChildren
    requires forall p :: cell(p) < GRID_CELLS
    ensures |remaining| == nChildren && Partition(pts, kept, remaining)
    ensures OnePerCell(cell, kept) && Cells(cell, kept) == Cells(cell, pts)
  {
    var occupied := new bool[GRID_CELLS](_ => false);
    kept, remaining := [], seq(nChildren, _ => []);
    ghost var cells: set<nat> := {};
    ScanStart(cell, pts, remaining);
    for i := 0 to |pts|
      invariant |remaining| == nChildren && Scanned(cell, pts, i, kept, remaining, cells)
      invariant Marks(occupied, cells)
    {
      assert pts[i] in pts;
      var idx := cell(pts[i].p);
      if !occupied[idx] {
        ScanKeep(cell, pts, i, kept, remaining, cells);
        occupied[idx] := true;
        kept, cells := kept + [pts[i]], cells + {idx};
      } else {
        ScanReturn(cell, pts, i, kept, remaining, cells);
        remaining := Pushed(remaining, pts[i].child, pts[i].p);
      }
    }
    assert pts[..|pts|] == pts;
  }

  ghost predicate Marks(occupied: array<bool>, cells: set<nat>)
    reads occupied
  {
    occupied.Length == GRID_CELLS && forall c: nat :: c < GRID_CELLS ==> (occupied[c] <==> c in cells)
  }

  lemma {:induction false} OnePerCellCount(cell: RawPoint -> nat, s: seq<Tagged>)
    requires OnePerCell(cell, s)
    ensures |Cells(cell, s)| == |s|
  {
    if s != [] {
      var n := |s| - 1;
      OnePerCellCount(cell, s[..n]);
      assert s == s[..n] + [s[n]];
      CellsSnoc(cell, s[..n], s[n]);
      assert cell(s[n].p) !in Cells(cell, s[..n]);
    }
  }

  /** `rposition`: the last kept point of a child, if any. */
  method LastOf(kept: seq<Tagged>, child: nat) returns (pos: int)
    ensures -1 <= pos < |kept|
    ensures pos >= 0 ==> kept[pos].child == child
    ensures pos < 0 ==> forall t :: t in kept ==> t.child != child
  {
    pos := |kept| - 1;
    while pos >= 0 && kept[pos].child != child
      invariant -1 <= pos < |kept|
      invariant forall i :: pos < i < |kept| ==> kept[i].child != child
    {
      pos := pos - 1;
    }
  }

  function DropAt<T>(s: seq<T>, i: nat): seq<T>
    requires i < |s|
  {
    s[..i] + s[i + 1..]
  }

  /** Moving one kept point back to its child keeps the partition. */
  lemma PartitionGiveBack(pts: seq<Tagged>, kept: seq<Tagged>, lists: seq<seq<RawPoint>>, pos: nat)
    requires pos < |kept| && kept[pos].child < |lists| && Partition(pts, kept, lists)
    ensures Partition(pts, DropAt(kept, pos), Pushed(lists, kept[pos].child, kept[pos].p))
  {
    var t := kept[pos];
    var less := DropAt(kept, pos);
    PushTagged(lists, t.child, t.p);
    PushSummed(lists, t.child, t.p);
    RemovedMultiset(kept, pos);
    MoveAcross(multiset(pts), multiset(less), TagAll(lists), t);
    UntagRemoved(kept, pos);
    MoveAcross(multiset(Untag(pts)), multiset(Untag(less)), SumAll(lists), t.p);
  }

  lemma MoveAcross<T>(all: multiset<T>, a: multiset<T>, b: multiset<T>, x: T)
    requires all == (a + multiset{x}) + b
    ensures all == a + (b + multiset{x})
  {
  }

  lemma OnePerCellDropped(cell: RawPoint -> nat, s: seq<Tagged>, pos: nat)
    requires pos < |s| && OnePerCell(cell, s)
    ensures OnePerCell(cell, DropAt(s, pos))
  {
  }

  /** A contributing child with nothing returned still has a point among the kept ones. */
  lemma ContributorKept(pts: seq<Tagged>, kept: seq<Tagged>, lists: seq<seq<RawPoint>>, child: nat)
    requires Partition(pts, kept, lists) && Contributes(pts, child)
    requires child < |lists| && lists[child] == []
    ensures exists t :: t in kept && t.child == child
  {
    var t :| t in pts && t.child == child;
    TagAllMember(lists, t);
    assert t in multiset(pts);
  }

  /** Children left with exactly one point. */
  ghost function Singles(lists: seq<seq<RawPoint>>): nat {
    if lists == [] then 0
    else Singles(lists[..|lists| - 1]) + if |lists[|lists| - 1]| == 1 then 1 else 0
  }

  lemma SinglesTake(lists: seq<seq<RawPoint>>, i: nat)
    requires i < |lists|
    ensures Singles(lists[..i + 1]) == Singles(lists[..i]) + if |lists[i]| == 1 then 1 else 0
  {
    assert lists[..i + 1][..i] == lists[..i];
  }

  lemma {:induction false} SinglesAtMost(lists: seq<seq<RawPoint>>)
    ensures Singles(lists) <= |lists|
    ensures (forall c :: 0 <= c < |lists| ==> |lists[c]| != 1) ==> Singles(lists) == 0
  {
    if lists != [] {
      SinglesAtMost(lists[..|lists| - 1]);
    }
  }

  /** Guarantee every child that contributed points keeps at least one. A child without a returned
      point gets exactly one back. */
  method GiveBack(cell: RawPoint -> nat, ghost pts: seq<Tagged>, childHasPts: seq<bool>,
                  kept0: seq<Tagged>, remaining0: seq<seq<RawPoint>>)
    returns (kept: seq<Tagged>, remaining: seq<seq<RawPoint>>)
    requires |childHasPts| == |remaining0| && Partition(pts, kept0, remaining0)
    requires forall c :: 0 <= c < |childHasPts| ==> (childHasPts[c] <==> Contributes(pts, c))
    requires OnePerCell(cell, kept0)
    ensures |remaining| == |remaining0| && Partition(pts, kept, remaining)
    ensures OnePerCell(cell, kept) && |kept0| <= |kept| + Singles(remaining)
    ensures forall c :: 0 <= c < |remaining| && Contributes(pts, c) ==> remaining[c] != []
  {
    kept, remaining := kept0, remaining0;
    for ci := 0 to |remaining0|
      invariant |remaining| == |remaining0| && Partition(pts, kept, remaining)
      invariant OnePerCell(cell, kept) && |kept0| <= |kept| + Singles(remaining[..ci])
      invariant forall c :: 0 <= c < ci && childHasPts[c] ==> remaining[c] != []
    {
      ghost var was := remaining[..ci];
      if childHasPts[ci] && remaining[ci] == [] {
        ContributorKept(pts, kept, remaining, ci);
        var pos := LastOf(kept, ci);
        if pos >= 0 {
          PartitionGiveBack(pts, kept, remaining, pos);
          OnePerCellDropped(cell, kept, pos);
          remaining := Pushed(remaining, ci, kept[pos].p);
          kept := DropAt(kept, pos);
        }
      }
      assert remaining[..ci] == was;
      SinglesTake(remaining, ci);
    }
    assert remaining[..|remaining|] == remaining;
  }

  /** Which children the gathered points come from. */
  method Contributors(pts: seq<Tagged>, nChildren: nat) returns (has: seq<bool>)
    requires forall t :: t in pts ==> t.child < nChildren
    ensures |has| == nChildren
    ensures forall c :: 0 <= c < nChildren ==> (has[c] <==> Contributes(pts, c))
  {
    has := seq(nChildren, _ => false);
    for i := 0 to |pts|
      invariant |has| == nChildren
      invariant forall c :: 0 <= c < nChildren ==> (has[c] <==> exists j :: 0 <= j < i && pts[j].child == c)
    {
      has := has[pts[i].child := true];
    }
    forall c | 0 <= c < nChildren ensures has[c] <==> Contributes(pts, c) {
      if has[c] {
        var j :| 0 <= j < |pts| && pts[j].child == c;
        assert pts[j] in pts;
      }
    }
  }

  /** `grid_sample`. The gathered points are partitioned between the parent and the child
      each came from. A set that fits one leaf collapses into the parent; otherwise the
      parent takes at most one point per grid cell, every contributing child keeps a point,
      and a cell loses its representative only to a child that ends with that single point. */
  method GridSample(f: Frame, parent: VoxelKey, pts: seq<Tagged>, nChildren: nat)
    returns (parentPts: seq<RawPoint>, remaining: seq<seq<RawPoint>>, ghost kept: seq<Tagged>)
    requires forall t :: t in pts ==> t.child < nChildren
    ensures |remaining| == nChildren && parentPts == Untag(kept) && Partition(pts, kept, remaining)
    ensures |pts| <= MAX_LEAF_POINTS ==> parentPts == Untag(pts) && AllEmpty(remaining)
    ensures |pts| > MAX_LEAF_POINTS ==>
              OnePerCell(CellOf(f, parent), kept) && |Cells(CellOf(f, parent), pts)| <= |parentPts| + Singles(remaining) <= |parentPts| + nChildren
    ensures |pts| > MAX_LEAF_POINTS ==>
              forall c :: 0 <= c < nChildren && Contributes(pts, c) ==> remaining[c] != []
    ensures AllInBox(f, parent, pts) && NoSingles(remaining) ==> AllNear(f, parent, pts, parentPts)
  {
    if |pts| <= MAX_LEAF_POINTS {
      parentPts, remaining, kept := Untag(pts), seq(nChildren, _ => []), pts;
      TagAllEmpty(remaining);
      KeptNear(f, parent, pts, pts);
      return;
    }
    var cell := CellOf(f, parent);
    var childHasPts := Contributors(pts, nChildren);
    var scanned, rest := Scan(cell, pts, nChildren);
    OnePerCellCount(cell, scanned);
    var chosen;
    chosen, remaining := GiveBack(cell, pts, childHasPts, scanned, rest);
    kept := chosen;
    parentPts := Untag(chosen);
    SinglesAtMost(remaining);
    CellsNear(f, parent, pts, kept, remaining);
  }

  /** No child ended with a single point. */
  ghost predicate NoSingles(lists: seq<seq<RawPoint>>) {
    forall c :: 0 <= c < |lists| ==> |lists[c]| != 1
  }

  /** Some point of the list is within a cell edge. */
  ghost predicate HasNear(f: Frame, v: VoxelKey, p: RawPoint, s: seq<RawPoint>) {
    exists i :: 0 <= i < |s| && Near(f, v, p, s[i])
  }

  /** With no representative given back, every occupied cell keeps one. */
  lemma AllCellsKept(cell: RawPoint -> nat, pts: seq<Tagged>, kept: seq<Tagged>, remaining: seq<seq<RawPoint>>)
    requires Partition(pts, kept, remaining) && OnePerCell(cell, kept) && |Cells(cell, pts)| <= |kept|
    ensures Cells(cell, kept) == Cells(cell, pts)
  {
    PartitionMembers(pts, kept, remaining);
    OnePerCellCount(cell, kept);
    assert Cells(cell, kept) <= Cells(cell, pts);
    SameSizeSubset(Cells(cell, kept), Cells(cell, pts));
  }

  lemma SameSizeSubset<T>(a: set<T>, b: set<T>)
    requires a <= b && |b| <= |a|
    ensures a == b
  {
    assert b == a + (b - a);
  }

  lemma CellsNear(f: Frame, parent: VoxelKey, pts: seq<Tagged>, kept: seq<Tagged>, remaining: seq<seq<RawPoint>>)
    requires Partition(pts, kept, remaining) && OnePerCell(CellOf(f, parent), kept)
    requires |Cells(CellOf(f, parent), pts)| <= |kept| + Singles(remaining)
    ensures AllInBox(f, parent, pts) && NoSingles(remaining) ==> AllNear(f, parent, pts, Untag(kept))
  {
    if NoSingles(remaining) {
      SinglesAtMost(remaining);
      PartitionMembers(pts, kept, remaining);
      AllCellsKept(CellOf(f, parent), pts, kept, remaining);
      KeptNear(f, parent, pts, kept);
    }
  }

  ghost predicate AllInBox(f: Frame, v: VoxelKey, pts: seq<Tagged>) {
    forall t :: t in pts ==> InVoxelBox(f, t.p, v)
  }

  ghost predicate AllNear(f: Frame, v: VoxelKey, pts: seq<Tagged>, s: seq<RawPoint>) {
    forall t :: t in pts ==> HasNear(f, v, t.p, s)
  }

  /** Then every gathered point has a kept one nearby. */
  lemma KeptNear(f: Frame, parent: VoxelKey, pts: seq<Tagged>, kept: seq<Tagged>)
    requires Cells(CellOf(f, parent), kept) == Cells(CellOf(f, parent), pts) && forall t :: t in kept ==> t in pts
    ensures AllInBox(f, parent, pts) ==> AllNear(f, parent, pts, Untag(kept))
  {
    var cell := CellOf(f, parent);
    if AllInBox(f, parent, pts) {
      forall t | t in pts ensures HasNear(f, parent, t.p, Untag(kept)) {
        assert cell(t.p) in Cells(cell, pts);
        var u :| u in kept && cell(u.p) == cell(t.p);
        var i :| 0 <= i < |kept| && kept[i] == u;
        SameCellIsNear(f, parent, t.p, u.p);
        assert Untag(kept)[i] == u.p;
      }
    }
  }

  /** Consequences of a partition for single points: kept points were gathered, and a
      returned point came from the list it returns to. */
  lemma PartitionMembers(pts: seq<Tagged>, kept: seq<Tagged>, lists: seq<seq<RawPoint>>)
    requires Partition(pts, kept, lists)
    ensures forall t :: t in kept ==> t in pts
    ensures forall c, p :: 0 <= c < |lists| && p in lists[c] ==> Tagged(c, p) in pts
  {
    forall t | t in kept ensures t in pts {
      assert t in multiset(kept);
      assert t in multiset(pts);
    }
    forall c, p | 0 <= c < |lists| && p in lists[c] ensures Tagged(c, p) in pts {
      TagAllMember(lists, Tagged(c, p));
      assert Tagged(c, p) in multiset(pts);
    }
  }
}
