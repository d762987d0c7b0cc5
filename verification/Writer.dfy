/** The point-writing part of `write_copc` (src/writer.rs): nodes are compressed window by window
    in order, the chunk table is walked to give every node its byte range, and the ranges go
    into the hierarchy. */
module Writer {
  import opened Arith
  import opened Bytes
  import opened Voxel
  import opened PagedLayout
  import opened HierarchyFormat
  import opened Hierarchy

  const WRITER_WINDOW_POINTS: nat := 4_000_000

  datatype NodeCount = NodeCount(key: VoxelKey, count: nat)

  /** Nodes that have points, in order. */
  function DataOf(ordered: seq<NodeCount>): seq<NodeCount> {
    if ordered == [] then []
    else
      var n := |ordered| - 1;
      DataOf(ordered[..n]) + (if ordered[n].count > 0 then [ordered[n]] else [])
  }

  /** Points of the nodes `from` up to `to`. */
  function PointsIn(data: seq<NodeCount>, from: nat, to: nat): nat
    requires from <= to <= |data|
  {
    if from == to then 0 else PointsIn(data, from, to - 1) + data[to - 1].count
  }

  /** One window: at least one node, within the point cap unless it is a single node, and as long
      as the cap allows. */
  ghost predicate Window(data: seq<NodeCount>, from: nat, to: nat) {
    from < to <= |data| && (to == from + 1 || PointsIn(data, from, to) <= WRITER_WINDOW_POINTS) &&
    (to < |data| ==> PointsIn(data, from, to + 1) > WRITER_WINDOW_POINTS)
  }

  method PackWindow(data: seq<NodeCount>, winStart: nat) returns (winEnd: nat)
    requires winStart < |data|
    ensures Window(data, winStart, winEnd)
  {
    var winPoints := 0;
    winEnd := winStart;
    while winEnd < |data|
      invariant winStart <= winEnd <= |data| && winPoints == PointsIn(data, winStart, winEnd)
      invariant winEnd > winStart + 1 ==> winPoints <= WRITER_WINDOW_POINTS
      decreases |data| - winEnd
    {
      var nodePoints := data[winEnd].count;
      if winEnd > winStart && winPoints + nodePoints > WRITER_WINDOW_POINTS {
        break;
      }
      winPoints := winPoints + nodePoints;
      winEnd := winEnd + 1;
    }
  }

  /** Window bounds, from the first node to the last, each ending where the next begins. */
  ghost predicate Windows(data: seq<NodeCount>, bounds: seq<nat>) {
    |bounds| > 0 && bounds[0] == 0 && forall i :: 0 <= i < |bounds| - 1 ==> Window(data, bounds[i], bounds[i + 1])
  }

  lemma WindowsStep(data: seq<NodeCount>, bounds: seq<nat>, to: nat)
    requires Windows(data, bounds) && Window(data, bounds[|bounds| - 1], to)
    ensures Windows(data, bounds + [to])
  {
    forall i | 0 <= i < |bounds| ensures Window(data, (bounds + [to])[i], (bounds + [to])[i + 1]) {
      if i < |bounds| - 1 {
        assert Window(data, bounds[i], bounds[i + 1]);
      }
    }
  }

  /** Compress every window in order. The windows partition the nodes, and the chunk table's
      `i`-th size belongs to the `i`-th node with points. */
  method CompressAll(data: seq<NodeCount>, sizeOf: VoxelKey -> nat) returns (table: seq<nat>, ghost bounds: seq<nat>)
    ensures Windows(data, bounds) && bounds[|bounds| - 1] == |data|
    ensures |table| == |data| && forall i :: 0 <= i < |data| ==> table[i] == sizeOf(data[i].key)
  {
    table, bounds := [], [0];
    var winStart := 0;
    while winStart < |data|
      invariant Windows(data, bounds) && bounds[|bounds| - 1] == winStart <= |data|
      invariant |table| == winStart && forall i :: 0 <= i < winStart ==> table[i] == sizeOf(data[i].key)
      decreases |data| - winStart
    {
      var winEnd := PackWindow(data, winStart);
      WindowsStep(data, bounds, winEnd);
      for i := winStart to winEnd
        invariant |table| == i && forall j :: 0 <= j < i ==> table[j] == sizeOf(data[j].key)
      {
        table := table + [sizeOf(data[i].key)];
      }
      winStart, bounds := winEnd, bounds + [winEnd];
    }
  }

  /** Bytes of the first `n` chunks. */
  function SizeSum(table: seq<nat>, n: nat): nat
    requires n <= |table|
  {
    if n == 0 then 0 else SizeSum(table, n - 1) + table[n - 1]
  }

  lemma {:induction false} SizeSumMonotone(table: seq<nat>, a: nat, b: nat)
    requires a <= b <= |table|
    ensures SizeSum(table, a) <= SizeSum(table, b)
  {
    if a < b {
      SizeSumMonotone(table, a, b - 1);
    }
  }

  /** Compressed bytes of all nodes with points. */
  function DataBytes(ordered: seq<NodeCount>, sizeOf: VoxelKey -> nat): nat {
    if ordered == [] then 0
    else
      var n := |ordered| - 1;
      DataBytes(ordered[..n], sizeOf) + (if ordered[n].count > 0 then sizeOf(ordered[n].key) else 0)
  }

  lemma {:induction false} SizeSumPrefix(a: seq<nat>, b: seq<nat>, n: nat)
    requires n <= |a| && n <= |b| && a[..n] == b[..n]
    ensures SizeSum(a, n) == SizeSum(b, n)
  {
    if n > 0 {
      assert a[..n - 1] == a[..n][..n - 1] && b[..n - 1] == b[..n][..n - 1];
      SizeSumPrefix(a, b, n - 1);
      assert a[..n][n - 1] == b[..n][n - 1];
    }
  }

  lemma {:induction false} TableBytes(ordered: seq<NodeCount>, table: seq<nat>, sizeOf: VoxelKey -> nat)
    requires |table| == |DataOf(ordered)| && forall i :: 0 <= i < |table| ==> table[i] == sizeOf(DataOf(ordered)[i].key)
    ensures SizeSum(table, |table|) == DataBytes(ordered, sizeOf)
  {
    if ordered != [] {
      var before := ordered[..|ordered| - 1];
      var n := |DataOf(before)|;
      TableBytes(before, table[..n], sizeOf);
      SizeSumPrefix(table, table[..n], n);
    }
  }

  /** Every node with points has at least one. */
  lemma {:induction false} BytesWithin(ordered: seq<NodeCount>, sizeOf: VoxelKey -> nat, sizeMax: nat)
    requires forall k :: sizeOf(k) <= sizeMax
    ensures DataBytes(ordered, sizeOf) <= sizeMax * TotalPoints(ordered)
  {
    if ordered != [] {
      var before, last := ordered[..|ordered| - 1], ordered[|ordered| - 1];
      BytesWithin(before, sizeOf, sizeMax);
      BytesStep(sizeMax, TotalPoints(before), last.count);
    }
  }

  lemma BytesStep(a: nat, b: nat, c: nat)
    ensures a * (b + c) == a * b + a * c && (c > 0 ==> a * c >= a)
  {
    MulAtLeast(c, a);
  }

  /** Byte ranges of the entries that have points, in order. */
  function Ranges(info: seq<Entry>): seq<Place> {
    if info == [] then []
    else
      var n := |info| - 1;
      Ranges(info[..n]) + (if info[n].pointCount > 0 && info[n].byteSize >= 0 then [Place(info[n].offset, info[n].byteSize)] else [])
  }

  function TotalPoints(ordered: seq<NodeCount>): nat {
    if ordered == [] then 0 else TotalPoints(ordered[..|ordered| - 1]) + ordered[|ordered| - 1].count
  }

  function PointCountSum(info: seq<Entry>): int {
    if info == [] then 0 else PointCountSum(info[..|info| - 1]) + info[|info| - 1].pointCount
  }

  /** The chunk ranges laid back to back from the first chunk. */
  function Chunks(table: seq<nat>, n: nat, first: nat): seq<Place>
    requires n <= |table|
  {
    if n == 0 then [] else Chunks(table, n - 1, first) + [Place(first + SizeSum(table, n - 1), table[n - 1])]
  }

  /** The entry of a node: empty ancestors have no range. */
  ghost predicate Describes(node: NodeCount, e: Entry) {
    e.key == node.key && e.pointCount == node.count && (node.count == 0 ==> e.offset == 0 && e.byteSize == 0)
  }

  /** The walk over the chunk table after `i` nodes. */
  ghost predicate Walked(ordered: seq<NodeCount>, i: nat, table: seq<nat>, first: nat, info: seq<Entry>, chunk: nat, offset: nat)
    requires i <= |ordered|
  {
    |info| == i && (forall j :: 0 <= j < i ==> Describes(ordered[j], info[j])) &&
    chunk == |DataOf(ordered[..i])| <= |table| && offset == first + SizeSum(table, chunk) &&
    Ranges(info) == Chunks(table, chunk, first) && PointCountSum(info) == TotalPoints(ordered[..i])
  }

  lemma WalkStep(ordered: seq<NodeCount>, i: nat, table: seq<nat>, first: nat, info: seq<Entry>, chunk: nat, offset: nat, e: Entry)
    requires i < |ordered| && Walked(ordered, i, table, first, info, chunk, offset) && Describes(ordered[i], e)
    requires ordered[i].count > 0 ==> chunk < |table| && e.offset == offset && e.byteSize == table[chunk]
    ensures ordered[i].count == 0 ==> Walked(ordered, i + 1, table, first, info + [e], chunk, offset)
    ensures ordered[i].count > 0 ==> Walked(ordered, i + 1, table, first, info + [e], chunk + 1, offset + table[chunk])
  {
    assert (info + [e])[..i] == info;
    assert ordered[..i + 1][..i] == ordered[..i];
  }

  lemma {:induction false} DataPrefix(ordered: seq<NodeCount>, i: nat)
    requires i <= |ordered|
    ensures |DataOf(ordered[..i])| <= |DataOf(ordered)|
    ensures i < |ordered| && ordered[i].count > 0 ==> |DataOf(ordered[..i])| < |DataOf(ordered)|
    decreases |ordered| - i
  {
    if i < |ordered| {
      DataPrefix(ordered, i + 1);
      assert ordered[..i + 1][..i] == ordered[..i];
    } else {
      assert ordered[..i] == ordered;
    }
  }

  /** Every field fits its signed or unsigned width. */
  ghost predicate FieldsFit(ordered: seq<NodeCount>, table: seq<nat>, first: nat) {
    (forall i :: 0 <= i < |ordered| ==> ordered[i].count < 0x8000_0000) &&
    (forall i :: 0 <= i < |table| ==> table[i] < 0x8000_0000) &&
    first + SizeSum(table, |table|) < 0x1_0000_0000_0000_0000
  }

  /** The chunk-offset walk. */
  method ChunkInfo(ordered: seq<NodeCount>, table: seq<nat>, first: nat) returns (info: seq<Entry>)
    requires |table| == |DataOf(ordered)| && FieldsFit(ordered, table, first)
    ensures Walked(ordered, |ordered|, table, first, info, |table|, first + SizeSum(table, |table|))
  {
    info := [];
    var offset, chunk := first, 0;
    for i := 0 to |ordered|
      invariant Walked(ordered, i, table, first, info, chunk, offset)
    {
      DataPrefix(ordered, i);
      SizeSumMonotone(table, chunk, |table|);
      var node := ordered[i];
      if node.count == 0 {
        WalkStep(ordered, i, table, first, info, chunk, offset, Entry(node.key, 0, 0, 0));
        info := info + [Entry(node.key, 0, 0, 0)];
      } else {
        var byteSize := table[chunk];
        WalkStep(ordered, i, table, first, info, chunk, offset, Entry(node.key, offset, byteSize, node.count));
        info := info + [Entry(node.key, offset, byteSize, node.count)];
        offset, chunk := offset + byteSize, chunk + 1;
      }
    }
    assert ordered[..|ordered|] == ordered;
  }

  lemma {:induction false} ChunksAt(table: seq<nat>, n: nat, first: nat)
    requires n <= |table|
    ensures |Chunks(table, n, first)| == n
    ensures forall i :: 0 <= i < n ==> Chunks(table, n, first)[i] == Place(first + SizeSum(table, i), table[i])
  {
    if n > 0 {
      ChunksAt(table, n - 1, first);
      var before, last := Chunks(table, n - 1, first), Place(first + SizeSum(table, n - 1), table[n - 1]);
      assert Chunks(table, n, first) == before + [last];
    }
  }

  lemma TilesByOffsets(places: seq<Place>, table: seq<nat>, n: nat, first: nat)
    requires |places| == n <= |table|
    requires forall i :: 0 <= i < n ==> places[i] == Place(first + SizeSum(table, i), table[i])
    ensures Tiles(places, first, SizeSum(table, n))
  {
    forall i | 0 <= i < n ensures places[i].offset + places[i].size == first + SizeSum(table, i + 1) {
    }
    assert SizeSum(table, 0) == 0;
  }

  /** Chunk ranges tile the point data from the first chunk: no gap, no overlap. */
  lemma ChunksTile(table: seq<nat>, n: nat, first: nat)
    requires n <= |table|
    ensures |Chunks(table, n, first)| == n && Tiles(Chunks(table, n, first), first, SizeSum(table, n))
    ensures forall i :: 0 <= i < n ==> Chunks(table, n, first)[i] == Place(first + SizeSum(table, i), table[i])
  {
    ChunksAt(table, n, first);
    TilesByOffsets(Chunks(table, n, first), table, n, first);
  }

  /** What the hierarchy input promises. */
  ghost predicate Ranged(ordered: seq<NodeCount>, table: seq<nat>, first: nat, info: seq<Entry>) {
    |info| == |ordered| && (forall i :: 0 <= i < |info| ==> Describes(ordered[i], info[i])) &&
    Ranges(info) == Chunks(table, |table|, first) && Tiles(Ranges(info), first, SizeSum(table, |table|)) &&
    PointCountSum(info) == TotalPoints(ordered)
  }

  ghost predicate DistinctNodes(ordered: seq<NodeCount>) {
    (forall i, j :: 0 <= i < j < |ordered| ==> ordered[i].key != ordered[j].key) &&
    forall i :: 0 <= i < |ordered| ==> KeyOk(ordered[i].key)
  }

  lemma InfoValid(ordered: seq<NodeCount>, info: seq<Entry>)
    requires DistinctNodes(ordered) && |info| == |ordered| && forall i :: 0 <= i < |info| ==> Describes(ordered[i], info[i])
    ensures Hierarchy.Valid(info)
  {
    forall i, j | 0 <= i < j < |info| ensures Hierarchy.KeyOf(info[i]) != Hierarchy.KeyOf(info[j]) {
      assert Describes(ordered[i], info[i]) && Describes(ordered[j], info[j]);
    }
    forall e | e in info ensures KeyOk(e.key) && e.pointCount != -1 {
      var i :| 0 <= i < |info| && info[i] == e;
      assert Describes(ordered[i], info[i]);
    }
  }

  /** From node counts and compressed sizes to the hierarchy: windows partition the nodes, the
      byte ranges of the nodes with points tile the point data, the counts add up to the header
      total, and a reader recovers every node's range and count exactly once. */
  method WriteNodes(ordered: seq<NodeCount>, sizeOf: VoxelKey -> nat, offsetToPointData: nat, hierStart: nat)
    returns (table: seq<nat>, info: seq<Entry>, payload: seq<U8>, root: Place, total: nat)
    requires DistinctNodes(ordered) && forall k :: sizeOf(k) < 0x8000_0000
    requires forall i :: 0 <= i < |ordered| ==> ordered[i].count < 0x8000_0000
    requires offsetToPointData + 8 + DataBytes(ordered, sizeOf) < 0x1_0000_0000_0000_0000
    ensures |table| == |DataOf(ordered)| && SizeSum(table, |table|) == DataBytes(ordered, sizeOf)
    ensures Ranged(ordered, table, offsetToPointData + 8, info)
    ensures forall i :: 0 <= i < |table| ==> table[i] == sizeOf(DataOf(ordered)[i].key)
    ensures total == TotalPoints(ordered) == PointCountSum(info)
    ensures hierStart + |payload| < 0x1_0000_0000_0000_0000 ==> RoundTrips(info, payload, hierStart, root)
  {
    total := TotalCount(ordered);
    var data := DataOf(ordered);
    ghost var bounds: seq<nat>;
    table, bounds := CompressAll(data, sizeOf);
    var first := offsetToPointData + 8;
    TableBytes(ordered, table, sizeOf);
    info := ChunkInfo(ordered, table, first);
    ChunksTile(table, |table|, first);
    assert ordered[..|ordered|] == ordered;
    InfoValid(ordered, info);
    payload, root := BuildHierarchyPayload(info, hierStart);
  }

  method TotalCount(ordered: seq<NodeCount>) returns (total: nat)
    ensures total == TotalPoints(ordered)
  {
    total := 0;
    for i := 0 to |ordered|
      invariant total == TotalPoints(ordered[..i])
    {
      assert ordered[..i + 1][..i] == ordered[..i];
      total := total + ordered[i].count;
    }
    assert ordered[..|ordered|] == ordered;
  }
}
