/** The whole path from input points to the finished octree: count, plan, distribute, build. */
module Pipeline {
  import opened Arith
  import opened Bytes
  import opened Voxel
  import opened Points
  import opened Framing
  import opened NodeMap
  import opened NodeStorage
  import opened PlanGrid
  import opened SubSplit
  import opened Planner
  import opened PlanFacts
  import opened PlanBounds
  import opened Routing
  import opened ChunkBuild
  import opened Build
  import opened Distribute
  import opened PagedLayout
  import opened HierarchyFormat
  import Hierarchy
  import opened Writer

  /** The plan computed for the points routes every one of them. */
  lemma PlanRoutes(f: Frame, pts: seq<RawPoint>, nxb: nat, g: Grid, target: nat, cells: seq<VoxelKey>, chunks: seq<Chunk>,
                   cap: nat)
    requires CellsTallied(f, pts, g) && AllPlanned(f, pts, g.depth, target) && Plan(g, target, cells, chunks)
    requires Uniform(pts, nxb) && |chunks| <= SUBSPLIT_MARKER && g.depth <= MAX_LEVEL && PartsFit(f, pts, chunks, cap)
    ensures Routable(f, g.depth, chunks, pts, nxb)
  {
    PlanShape(g, target, cells, chunks);
    forall i | 0 <= i < |pts| ensures CoversPoint(f, chunks, pts[i]) {
      PlanCovers(f, g, target, cells, chunks, pts[i]);
    }
  }

  /** One plan of the many that fit. */
  lemma PlanFits(f: Frame, pts: seq<RawPoint>, g: Grid, target: nat, cells: seq<VoxelKey>, chunks: seq<Chunk>, cap: nat)
    requires CellsTallied(f, pts, g) && Plan(g, target, cells, chunks) && PlansFit(f, pts, g.depth, target, cap)
    ensures g.depth <= MAX_LEVEL && |chunks| <= SUBSPLIT_MARKER && PartsFit(f, pts, chunks, cap)
  {
  }

  /** The sizes of a plan. */
  lemma PlanSizes(f: Frame, pts: seq<RawPoint>, g: Grid, target: nat, cells: seq<VoxelKey>, chunks: seq<Chunk>)
    requires CellsTallied(f, pts, g) && Plan(g, target, cells, chunks)
    ensures NoneWraps(f, pts, g.depth) ==> Estimates(chunks) == |pts|
    ensures PerTarget(target, |chunks|, g.depth, |pts|)
  {
    ChunksPerTarget(f, pts, g, target, cells, chunks, ROOT);
    if NoneWraps(f, pts, g.depth) {
      EstimatesCountPoints(f, pts, g, target, cells, chunks, ROOT);
    }
  }

  /** `analyze_chunking`: count, then plan. */
  method MakePlan(f: Frame, pts: seq<RawPoint>, depth: nat, target: nat, nxb: nat, ghost cap: nat)
    returns (chunks: seq<Chunk>)
    requires Uniform(pts, nxb) && PlansFit(f, pts, depth, target, cap) && AllPlanned(f, pts, depth, target)
    ensures Routable(f, depth, chunks, pts, nxb) && PartsFit(f, pts, chunks, cap)
    ensures NoneWraps(f, pts, depth) ==> Estimates(chunks) == |pts|
    ensures PerTarget(target, |chunks|, depth, |pts|)
  {
    var grid := CountPoints(f, pts, depth);
    ghost var g := Grid(depth, grid[..]);
    chunks := MergeSparseCells(grid, depth, target);
    ghost var cells :| Plan(g, target, cells, chunks);
    PlanFits(f, pts, g, target, cells, chunks, cap);
    PlanRoutes(f, pts, nxb, g, target, cells, chunks, cap);
    PlanSizes(f, pts, g, target, cells, chunks);
  }

  /** Main theorem. For any input points split over any workers and read batches, any plan the
      planner makes and any mix of in-memory and spilled chunks, a successful run stores every
      input point exactly once, under its own voxel, subdivides no voxel whose points fit one
      leaf, and lists exactly the populated nodes and their ancestors with their true counts. It
      succeeds at least whenever all points together fit the memory limit of one merge parent.
      What is asked is what the 32-bit words of the program ask, `cap` standing for the largest
      chunk: read batches and chunks below `2^32` points, chunk indices beside the two sentinels,
      no key of the build deeper than level 31, and every point counted by the plan's grid.
      `PlanBounds.FitsWhenExact` gives a check on the input alone. */
  method BuildOctree(f: Frame, workers: seq<seq<seq<RawPoint>>>, depth: nat, target: nat, nxb: nat, capacity: nat, limits: Limits,
                     ghost cap: nat)
    returns (ok: bool, store: NodeStore, counts: Counts)
    requires Uniform(Concat(Streams(workers)), nxb) && forall w :: 0 <= w < |workers| ==> SmallBatches(workers[w])
    requires PlansFit(f, Concat(Streams(workers)), depth, target, cap) && AllPlanned(f, Concat(Streams(workers)), depth, target)
    ensures ok ==> BuiltFrom(f, multiset(Concat(Streams(workers))), store.contents, counts)
    ensures ok ==> forall k :: k in counts ==> k.level <= MAX_LEVEL && counts[k] <= cap
    ensures |Concat(Streams(workers))| * limits.memPerPoint <= limits.oomThreshold ==> ok
  {
    store := new NodeStore();
    var pts := Concat(Streams(workers));
    var chunks := MakePlan(f, pts, depth, target, nxb, cap);
    var files, actual := DistributePoints(f, depth, chunks, workers, nxb, capacity, cap);
    ghost var parts := Parts(f, pts, chunks);
    PartsConserve(f, depth, chunks, pts, nxb);
    ok, counts := BuildNodeMap(f, Roots(chunks), files, actual, nxb, limits, store, parts, cap);
    if ok {
      ListBounded(store.contents, counts, cap);
    }
  }

  /** Listed nodes are no deeper and no larger than the stored ones. */
  lemma ListBounded(m: Nodes, counts: Counts, cap: nat)
    requires NodeList(m, counts) && Bounded(m, cap)
    ensures forall k :: k in counts ==> k.level <= MAX_LEVEL && counts[k] <= cap
  {
    forall k | k in counts ensures k.level <= MAX_LEVEL && counts[k] <= cap {
      var d :| Populated(m, d) && Under(d, k);
      assert d in m;
      assert counts[k] == |Get(m, k)|;
    }
  }

  /** In the finished octree every stored point lies inside the box a reader reconstructs for its
      node. */
  lemma StoredInBounds(f: Frame, input: multiset<RawPoint>, m: Nodes, counts: Counts, k: VoxelKey, p: RawPoint)
    requires BuiltFrom(f, input, m, counts) && p in Get(m, k) && InCube(f, p)
    ensures InVoxelBox(f, p, k) && k in counts
  {
    KeyBounds(f, p, k);
    assert Populated(m, k) && Under(k, k);
  }

  /** What the contract of `NodeStorage.NodeStore.Write` asks of every write of the build is what
      `PackedStore.PackedNodeStore.Write` asks: points of one record width, fewer than `2^32`. */
  lemma WritesFitPack(all: multiset<RawPoint>, points: seq<RawPoint>, nxb: nat, cap: nat)
    requires multiset(points) <= all && |points| <= cap < 0x1_0000_0000 && forall p :: p in all ==> |p.extras| == nxb
    ensures Uniform(points, nxb) && |points| < 0x1_0000_0000
  {
    forall i | 0 <= i < |points| ensures |points[i].extras| == nxb {
      assert points[i] in multiset(points);
    }
  }

  /** The node list as the writer takes it, in any order. */
  ghost predicate Lists(counts: Counts, ordered: seq<NodeCount>) {
    (forall i, j :: 0 <= i < j < |ordered| ==> ordered[i].key != ordered[j].key) &&
    (forall i :: 0 <= i < |ordered| ==> ordered[i].key in counts && counts[ordered[i].key] == ordered[i].count) &&
    (forall k :: k in counts ==> InList(ordered, k)) && TotalPoints(ordered) == CountsTotal(counts)
  }

  ghost predicate InList(ordered: seq<NodeCount>, k: VoxelKey) {
    exists i :: 0 <= i < |ordered| && ordered[i].key == k
  }

  lemma ListsStep(counts: Counts, ordered: seq<NodeCount>, k: VoxelKey, n: nat)
    requires Lists(counts, ordered) && k !in counts
    ensures Lists(counts[k := n], ordered + [NodeCount(k, n)])
  {
    ListTotal(counts, ordered, k, n);
    forall j | j in counts[k := n] ensures InList(ordered + [NodeCount(k, n)], j) {
      ListMore(ordered, NodeCount(k, n), j);
    }
  }

  lemma ListTotal(counts: Counts, ordered: seq<NodeCount>, k: VoxelKey, n: nat)
    requires TotalPoints(ordered) == CountsTotal(counts) && k !in counts
    ensures TotalPoints(ordered + [NodeCount(k, n)]) == CountsTotal(counts[k := n])
  {
    assert (ordered + [NodeCount(k, n)])[..|ordered|] == ordered;
    CountsRemove(counts[k := n], k);
    assert counts[k := n] - {k} == counts;
  }

  lemma ListMore(ordered: seq<NodeCount>, last: NodeCount, j: VoxelKey)
    requires InList(ordered, j) || last.key == j
    ensures InList(ordered + [last], j)
  {
    var ordered' := ordered + [last];
    if last.key == j {
      assert ordered'[|ordered|].key == j;
    } else {
      var i :| 0 <= i < |ordered| && ordered[i].key == j;
      assert ordered'[i].key == j;
    }
  }

  method ListNodes(counts: Counts) returns (ordered: seq<NodeCount>)
    ensures Lists(counts, ordered)
  {
    ordered := [];
    var todo := counts.Keys;
    ghost var done: Counts := map[];
    while todo != {}
      invariant todo <= counts.Keys && done == (map k | k in counts && k !in todo :: counts[k])
      invariant Lists(done, ordered)
      decreases todo
    {
      var k :| k in todo;
      ListsStep(done, ordered, k, counts[k]);
      ordered, todo, done := ordered + [NodeCount(k, counts[k])], todo - {k}, done[k := counts[k]];
    }
    assert done == counts;
  }

  lemma BelowRootInRange(k: VoxelKey)
    requires Under(k, ROOT)
    ensures InRange(k)
  {
    AncestorByShift(k, 0);
    ShrZero(k.x, k.level);
    ShrZero(k.y, k.level);
    ShrZero(k.z, k.level);
  }

  lemma ShrZero(v: nat, e: nat)
    requires Shr(v, e) == 0
    ensures v < Pow2(e)
  {
    assert v == (v / Pow2(e)) * Pow2(e) + v % Pow2(e);
  }

  lemma ListedAreValid(f: Frame, input: multiset<RawPoint>, m: Nodes, counts: Counts, ordered: seq<NodeCount>)
    requires BuiltFrom(f, input, m, counts) && Lists(counts, ordered)
    requires forall k :: k in counts ==> k.level <= MAX_LEVEL
    ensures DistinctNodes(ordered) && TotalPoints(ordered) == |input|
  {
    forall i | 0 <= i < |ordered| ensures KeyOk(ordered[i].key) {
      BelowRootInRange(ordered[i].key);
    }
  }

  /** The compressed nodes end within a 64-bit offset. */
  ghost predicate DataFits(counts: Counts, sizeOf: VoxelKey -> nat, offsetToPointData: nat) {
    forall ordered :: Lists(counts, ordered) ==> offsetToPointData + 8 + DataBytes(ordered, sizeOf) < 0x1_0000_0000_0000_0000
  }

  /** What the file says of the octree: the header total and the hierarchy counts are those of the
      input, every listed node has its entry, the byte ranges of the populated nodes tile the point
      data, and a reader of the hierarchy recovers every entry exactly once. */
  ghost predicate Recovered(input: multiset<RawPoint>, counts: Counts, offsetToPointData: nat, hierStart: nat,
                            info: seq<Entry>, payload: seq<U8>, root: Place, total: nat, pointBytes: nat) {
    total == |input| == PointCountSum(info) &&
    (forall e :: e in info ==> e.key in counts && e.pointCount == counts[e.key]) &&
    (forall k :: k in counts ==> HasEntry(info, k)) &&
    Tiles(Ranges(info), offsetToPointData + 8, pointBytes) &&
    (hierStart + |payload| < 0x1_0000_0000_0000_0000 ==> Hierarchy.RoundTrips(info, payload, hierStart, root))
  }

  ghost predicate HasEntry(info: seq<Entry>, k: VoxelKey) {
    exists e :: e in info && e.key == k
  }

  /** From the finished octree to the file's hierarchy: the header total and the hierarchy counts
      are the number of input points, the byte ranges of the populated nodes tile the point data,
      and a reader of the hierarchy recovers every node with its range and count exactly once. */
  method WriteOctree(f: Frame, ghost input: multiset<RawPoint>, ghost m: Nodes, counts: Counts, sizeOf: VoxelKey -> nat,
                     offsetToPointData: nat, hierStart: nat)
    returns (info: seq<Entry>, payload: seq<U8>, root: Place, total: nat, pointBytes: nat)
    requires BuiltFrom(f, input, m, counts)
    requires (forall k :: k in counts ==> k.level <= MAX_LEVEL && counts[k] < 0x8000_0000) && forall k :: sizeOf(k) < 0x8000_0000
    requires DataFits(counts, sizeOf, offsetToPointData)
    ensures Recovered(input, counts, offsetToPointData, hierStart, info, payload, root, total, pointBytes)
  {
    var ordered := ListNodes(counts);
    ListedAreValid(f, input, m, counts, ordered);
    var table: seq<nat>;
    table, info, payload, root, total := WriteNodes(ordered, sizeOf, offsetToPointData, hierStart);
    pointBytes := SizeSum(table, |table|);
    InfoOfCounts(counts, ordered, info);
  }

  lemma InfoOfCounts(counts: Counts, ordered: seq<NodeCount>, info: seq<Entry>)
    requires Lists(counts, ordered) && |info| == |ordered|
    requires forall i :: 0 <= i < |info| ==> Describes(ordered[i], info[i])
    ensures forall e :: e in info ==> e.key in counts && e.pointCount == counts[e.key]
    ensures forall k :: k in counts ==> HasEntry(info, k)
  {
    forall e | e in info ensures e.key in counts && e.pointCount == counts[e.key] {
      var i :| 0 <= i < |info| && info[i] == e;
      assert Describes(ordered[i], info[i]);
    }
    forall k | k in counts ensures HasEntry(info, k) {
      assert InList(ordered, k);
      var i :| 0 <= i < |ordered| && ordered[i].key == k;
      assert Describes(ordered[i], info[i]) && info[i] in info;
    }
  }

  lemma DataFitsByPoints(f: Frame, input: multiset<RawPoint>, m: Nodes, counts: Counts, sizeOf: VoxelKey -> nat, sizeMax: nat, offset: nat)
    requires BuiltFrom(f, input, m, counts) && forall k :: sizeOf(k) <= sizeMax
    requires offset + 8 + sizeMax * |input| < 0x1_0000_0000_0000_0000
    ensures DataFits(counts, sizeOf, offset)
  {
    forall ordered | Lists(counts, ordered) ensures offset + 8 + DataBytes(ordered, sizeOf) < 0x1_0000_0000_0000_0000 {
      BytesWithin(ordered, sizeOf, sizeMax);
    }
  }

  /** From input points to the file: the two theorems together. A successful run stores exactly the
      input, every point under its own key, and following the pointers of the written hierarchy
      recovers every node of that octree, with its true count and its byte range, exactly once. The
      signed words of a hierarchy record ask for chunks and compressed nodes below `2^31`. */
  method Convert(f: Frame, workers: seq<seq<seq<RawPoint>>>, depth: nat, target: nat, nxb: nat, capacity: nat, limits: Limits,
                 sizeOf: VoxelKey -> nat, offsetToPointData: nat, hierStart: nat, ghost cap: nat, ghost sizeMax: nat)
    returns (ok: bool, store: NodeStore, counts: Counts, info: seq<Entry>, payload: seq<U8>, root: Place, total: nat, pointBytes: nat)
    requires Uniform(Concat(Streams(workers)), nxb) && forall w :: 0 <= w < |workers| ==> SmallBatches(workers[w])
    requires PlansFit(f, Concat(Streams(workers)), depth, target, cap) && AllPlanned(f, Concat(Streams(workers)), depth, target)
    requires cap < 0x8000_0000 && sizeMax < 0x8000_0000 && forall k :: sizeOf(k) <= sizeMax
    requires offsetToPointData + 8 + sizeMax * |Concat(Streams(workers))| < 0x1_0000_0000_0000_0000
    ensures ok ==> BuiltFrom(f, multiset(Concat(Streams(workers))), store.contents, counts)
    ensures ok ==> Recovered(multiset(Concat(Streams(workers))), counts, offsetToPointData, hierStart, info, payload, root, total, pointBytes)
    ensures |Concat(Streams(workers))| * limits.memPerPoint <= limits.oomThreshold ==> ok
  {
    ghost var input := multiset(Concat(Streams(workers)));
    ok, store, counts := BuildOctree(f, workers, depth, target, nxb, capacity, limits, cap);
    info, payload, root, total, pointBytes := [], [], Place(0, 0), 0, 0;
    if ok {
      DataFitsByPoints(f, input, store.contents, counts, sizeOf, sizeMax, offsetToPointData);
      info, payload, root, total, pointBytes :=
        WriteOctree(f, input, store.contents, counts, sizeOf, offsetToPointData, hierStart);
    }
  }
}
