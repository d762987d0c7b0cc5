/** Distributing the input over per-chunk files (`distribute` and `merge_chunk_shards` of
    src/octree.rs): every worker routes its points through its own bounded writer cache, then
    the per-worker shards are merged. */
module Distribute {
  import opened Bytes
  import opened Voxel
  import opened Points
  import opened Framing
  import opened NodeMap
  import opened Levels
  import opened WriterCache
  import opened SplitLevel
  import opened Spill
  import opened Leaves
  import opened ChunkBuild
  import opened Build
  import opened SubSplit
  import opened PlanFacts
  import opened PlanBounds
  import opened Routing

  function Roots(chunks: seq<Chunk>): (r: seq<VoxelKey>)
    ensures |r| == |chunks| && forall i :: 0 <= i < |r| ==> r[i] == chunks[i].root
  {
    seq(|chunks|, i requires 0 <= i < |chunks| => chunks[i].root)
  }

  /** A point belongs to the chunk it was routed to and to no other. */
  lemma RoutedOnce(f: Frame, depth: nat, chunks: seq<Chunk>, p: RawPoint, at: nat)
    requires Shape(depth, chunks) && at < |chunks| && chunks[at].root == KeyAt(f, p, chunks[at].root.level)
    ensures BelongsAt(f, p, Roots(chunks), at)
  {
    forall j: nat | j < |chunks| && j != at ensures KeyAt(f, p, chunks[j].root.level) != chunks[j].root {
      var a, b := chunks[at].root, chunks[j].root;
      if a.level <= b.level {
        DescentRefines(f, p, a.level, b.level);
      } else {
        DescentRefines(f, p, b.level, a.level);
      }
    }
  }

  ghost predicate UsedBelow(used: set<nat>, n: nat) {
    forall c :: c in used ==> c < n
  }

  /** Every point seen is in its chunk's log or group, in order; nothing else is. */
  ghost predicate Holding(f: Frame, roots: seq<VoxelKey>, pts: seq<RawPoint>, nxb: nat, log: Log, groups: Pending) {
    WellFormed(log, groups, nxb) &&
    AllHeld(f, pts, roots, log, groups) &&
    UsedBelow(log.Keys + groups.Keys, |roots|)
  }

  lemma HoldingPush(f: Frame, roots: seq<VoxelKey>, pts: seq<RawPoint>, nxb: nat, log: Log, groups: Pending,
                    p: RawPoint, at: nat, group: seq<RawPoint>)
    requires Holding(f, roots, pts, nxb, log, groups) && BelongsAt(f, p, roots, at) && at < |roots|
    requires |p.extras| == nxb && |PendOf(groups, at)| + 1 < 0x1_0000_0000 && group == PendOf(groups, at) + [p]
    ensures Holding(f, roots, pts + [p], nxb, log, groups[at := group])
  {
    PushWellFormed(log, groups, nxb, at, p);
    forall c: nat | c < |roots| ensures Held(log, groups[at := group], c) == Inside(f, pts + [p], roots[c]) {
      HeldPush(log, groups, at, p, c);
      HeldStep(f, pts, p, roots[c], Held(log, groups, c), Held(log, groups[at := group], c));
    }
    PutKeys(log, groups, at, group);
  }

  lemma HoldingDrained(f: Frame, roots: seq<VoxelKey>, pts: seq<RawPoint>, nxb: nat, log: Log, groups: Pending, log': Log)
    requires Holding(f, roots, pts, nxb, log, groups)
    requires SameHeld(log, groups, log', map[]) && WellFormed(log', map[], nxb)
    ensures Holding(f, roots, pts, nxb, log', map[])
  {
    forall c: nat | c < |roots| ensures Held(log', map[], c) == Inside(f, pts, roots[c]) {
      assert Held(log', map[], c) == Held(log, groups, c);
    }
    var none: Pending := map[];
    assert log'.Keys + none.Keys == log.Keys + groups.Keys;
  }

  /** `counts` is `base` plus the lengths of the groups already written. */
  ghost predicate Tallied(base: seq<nat>, groups: Pending, counts: seq<nat>, left: Pending) {
    |counts| == |base| &&
    forall c: nat :: c < |base| ==> counts[c] + |PendOf(left, c)| == base[c] + |PendOf(groups, c)|
  }

  lemma TallyStep(base: seq<nat>, groups: Pending, counts: seq<nat>, left: Pending, c: nat)
    requires Tallied(base, groups, counts, left) && c in left && c < |counts|
    ensures Tallied(base, groups, counts[c := counts[c] + |left[c]|], left - {c})
  {
    var counts', left' := counts[c := counts[c] + |left[c]|], left - {c};
    forall d: nat | d < |base| ensures counts'[d] + |PendOf(left', d)| == base[d] + |PendOf(groups, d)| {
      assert counts[d] + |PendOf(left, d)| == base[d] + |PendOf(groups, d)|;
    }
  }

  /** Flush the groups of one read batch, in any order, tallying as it goes. */
  method DrainGroups(cache: ChunkWriterCache, groups: Pending, counts0: seq<nat>, nxb: nat) returns (counts: seq<nat>)
    requires cache.Valid() && WellFormed(cache.log, groups, nxb) && forall c :: c in groups ==> c < |counts0|
    modifies cache, cache.dir
    ensures cache.Valid() && WellFormed(cache.log, map[], nxb)
    ensures SameHeld(old(cache.log), groups, cache.log, map[])
    ensures Tallied(counts0, groups, counts, map[])
  {
    counts := counts0;
    var left := groups;
    while left != map[]
      invariant cache.Valid() && WellFormed(cache.log, left, nxb) && left.Keys <= groups.Keys
      invariant SameHeld(old(cache.log), groups, cache.log, left)
      invariant Tallied(counts0, groups, counts, left)
      decreases |left|
    {
      var c :| c in left;
      DrainKeeps(old(cache.log), groups, nxb, cache.log, left, c, left[c]);
      TallyStep(counts0, groups, counts, left, c);
      cache.Append(c, left[c]);
      counts, left := counts[c := counts[c] + |left[c]|], left - {c};
    }
  }

  /** The tally is the number of points logged per chunk, on top of `base`. */
  ghost predicate CountsLog(base: seq<nat>, counts: seq<nat>, log: Log) {
    |counts| == |base| && forall c: nat :: c < |base| ==> counts[c] == base[c] + |Concat(Batches(log, c))|
  }

  lemma CountsAfterDrain(base: seq<nat>, counts: seq<nat>, log: Log, groups: Pending, counts': seq<nat>, log': Log)
    requires CountsLog(base, counts, log) && SameHeld(log, groups, log', map[]) && Tallied(counts, groups, counts', map[])
    ensures CountsLog(base, counts', log')
  {
    forall c: nat | c < |base| ensures counts'[c] == base[c] + |Concat(Batches(log', c))| {
      assert Held(log', map[], c) == Held(log, groups, c);
      assert counts'[c] + |PendOf(map[], c)| == counts[c] + |PendOf(groups, c)|;
    }
  }

  /** Routing is available for every point of the sequence. */
  ghost predicate Routable(f: Frame, depth: nat, chunks: seq<Chunk>, pts: seq<RawPoint>, nxb: nat) {
    Shape(depth, chunks) && Reachable(depth, chunks) && |chunks| <= SUBSPLIT_MARKER && Uniform(pts, nxb) &&
    forall i :: 0 <= i < |pts| ==> CoversPoint(f, chunks, pts[i])
  }

  /** The routing table of a plan. */
  datatype Lut = Lut(cells: array<nat>, sub: SubTable)

  /** No pending group is longer than `n` points. */
  ghost predicate GroupsWithin(groups: Pending, n: nat) {
    forall c :: c in groups ==> |groups[c]| <= n
  }

  method GroupPoint(f: Frame, depth: nat, chunks: seq<Chunk>, lut: Lut, p: RawPoint, nxb: nat, groups: Pending,
                    ghost pts: seq<RawPoint>, ghost log: Log, ghost n: nat)
    returns (groups': Pending)
    requires Shape(depth, chunks) && |chunks| <= SUBSPLIT_MARKER && CoversPoint(f, chunks, p) && |p.extras| == nxb
    requires Reachable(depth, chunks)
    requires Table(depth, chunks, |chunks|, lut.cells[..], lut.sub)
    requires Holding(f, Roots(chunks), pts, nxb, log, groups) && GroupsWithin(groups, n) && n + 1 < 0x1_0000_0000
    ensures Holding(f, Roots(chunks), pts + [p], nxb, log, groups') && GroupsWithin(groups', n + 1)
  {
    var at := Route(f, p, depth, chunks, lut.cells, lut.sub);
    RoutedOnce(f, depth, chunks, p, at);
    var group := PendOf(groups, at) + [p];
    HoldingPush(f, Roots(chunks), pts, nxb, log, groups, p, at, group);
    groups' := groups[at := group];
  }

  lemma PrefixSnoc<T>(a: seq<T>, b: seq<T>, i: nat)
    requires i < |b|
    ensures a + b[..i + 1] == a + b[..i] + [b[i]]
  {
  }

  /** Group the points of one read batch by chunk. */
  method GroupBatch(f: Frame, depth: nat, chunks: seq<Chunk>, lut: Lut, batch: seq<RawPoint>, nxb: nat,
                    ghost pts: seq<RawPoint>, ghost log: Log)
    returns (groups: Pending)
    requires Routable(f, depth, chunks, batch, nxb) && Table(depth, chunks, |chunks|, lut.cells[..], lut.sub)
    requires Holding(f, Roots(chunks), pts, nxb, log, map[]) && |batch| < 0x1_0000_0000
    ensures Holding(f, Roots(chunks), pts + batch, nxb, log, groups)
  {
    groups := map[];
    assert pts + batch[..0] == pts;
    for i := 0 to |batch|
      invariant Holding(f, Roots(chunks), pts + batch[..i], nxb, log, groups) && GroupsWithin(groups, i)
    {
      PrefixSnoc(pts, batch, i);
      groups := GroupPoint(f, depth, chunks, lut, batch[i], nxb, groups, pts + batch[..i], log, i);
    }
    assert batch[..|batch|] == batch;
  }

  /** One worker's state after some of its points: its log holds them and the tally counts them. */
  ghost predicate WorkerHolds(f: Frame, roots: seq<VoxelKey>, pts: seq<RawPoint>, nxb: nat, log: Log,
                              base: seq<nat>, counts: seq<nat>) {
    |base| == |roots| && Holding(f, roots, pts, nxb, log, map[]) && CountsLog(base, counts, log)
  }

  lemma GroupsInRange(f: Frame, roots: seq<VoxelKey>, pts: seq<RawPoint>, nxb: nat, log: Log, groups: Pending)
    requires Holding(f, roots, pts, nxb, log, groups)
    ensures WellFormed(log, groups, nxb) && forall c :: c in groups ==> c < |roots|
  {
    forall c | c in groups ensures c < |roots| {
      assert c in log.Keys + groups.Keys;
    }
  }

  method DistributeBatch(f: Frame, depth: nat, chunks: seq<Chunk>, lut: Lut, batch: seq<RawPoint>, nxb: nat,
                         cache: ChunkWriterCache, counts0: seq<nat>, ghost pts: seq<RawPoint>, ghost base: seq<nat>)
    returns (counts: seq<nat>)
    requires cache.Valid() && Routable(f, depth, chunks, batch, nxb)
    requires Table(depth, chunks, |chunks|, lut.cells[..], lut.sub)
    requires WorkerHolds(f, Roots(chunks), pts, nxb, cache.log, base, counts0) && |batch| < 0x1_0000_0000
    modifies cache, cache.dir
    ensures cache.Valid() && WorkerHolds(f, Roots(chunks), pts + batch, nxb, cache.log, base, counts)
  {
    ghost var log := cache.log;
    var groups := GroupBatch(f, depth, chunks, lut, batch, nxb, pts, log);
    GroupsInRange(f, Roots(chunks), pts + batch, nxb, log, groups);
    counts := DrainGroups(cache, groups, counts0, nxb);
    HoldingDrained(f, Roots(chunks), pts + batch, nxb, log, groups, cache.log);
    CountsAfterDrain(base, counts0, log, groups, counts, cache.log);
  }

  /** What one worker leaves behind: a shard file per chunk it met, holding that chunk's points
      of this worker's input, in order. */
  ghost predicate ShardOf(f: Frame, roots: seq<VoxelKey>, pts: seq<RawPoint>, nxb: nat, files: Files, log: Log) {
    FilesHold(files, log) && Holding(f, roots, pts, nxb, log, map[])
  }

  lemma {:induction false} ConcatHas<T>(lists: seq<seq<T>>, i: nat, j: nat)
    requires i < |lists| && j < |lists[i]|
    ensures lists[i][j] in Concat(lists)
  {
    if i > 0 {
      ConcatHas(lists[1..], i - 1, j);
    }
  }

  /** Every batch of a worker is routable. */
  lemma BatchRoutable(f: Frame, depth: nat, chunks: seq<Chunk>, batches: seq<seq<RawPoint>>, nxb: nat, i: nat)
    requires Routable(f, depth, chunks, Concat(batches), nxb) && i < |batches|
    ensures Routable(f, depth, chunks, batches[i], nxb)
  {
    forall j | 0 <= j < |batches[i]| ensures |batches[i][j].extras| == nxb && CoversPoint(f, chunks, batches[i][j]) {
      ConcatHas(batches, i, j);
      var n: nat :| n < |Concat(batches)| && Concat(batches)[n] == batches[i][j];
    }
  }

  /** Each read batch fits a 32-bit count; their total need not. */
  ghost predicate SmallBatches(batches: seq<seq<RawPoint>>) {
    forall i :: 0 <= i < |batches| ==> |batches[i]| < 0x1_0000_0000
  }

  method NextBatch(f: Frame, depth: nat, chunks: seq<Chunk>, lut: Lut, batches: seq<seq<RawPoint>>, i: nat, nxb: nat,
                   cache: ChunkWriterCache, counts0: seq<nat>, ghost base: seq<nat>)
    returns (counts: seq<nat>)
    requires cache.Valid() && i < |batches|
    requires Routable(f, depth, chunks, Concat(batches), nxb) && SmallBatches(batches)
    requires Table(depth, chunks, |chunks|, lut.cells[..], lut.sub)
    requires WorkerHolds(f, Roots(chunks), Concat(batches[..i]), nxb, cache.log, base, counts0)
    modifies cache, cache.dir
    ensures cache.Valid() && WorkerHolds(f, Roots(chunks), Concat(batches[..i + 1]), nxb, cache.log, base, counts)
  {
    BatchRoutable(f, depth, chunks, batches, nxb, i);
    ConcatTake(batches, i);
    counts := DistributeBatch(f, depth, chunks, lut, batches[i], nxb, cache, counts0, Concat(batches[..i]), base);
  }

  /** All read batches of a worker, in order. */
  method DistributeBatches(f: Frame, depth: nat, chunks: seq<Chunk>, lut: Lut, batches: seq<seq<RawPoint>>, nxb: nat,
                           cache: ChunkWriterCache, counts0: seq<nat>)
    returns (counts: seq<nat>)
    requires cache.Valid() && cache.log == map[] && |counts0| == |chunks|
    requires Routable(f, depth, chunks, Concat(batches), nxb) && SmallBatches(batches)
    requires Table(depth, chunks, |chunks|, lut.cells[..], lut.sub)
    modifies cache, cache.dir
    ensures cache.Valid() && WorkerHolds(f, Roots(chunks), Concat(batches), nxb, cache.log, counts0, counts)
  {
    counts := counts0;
    assert batches[..0] == [];
    for i := 0 to |batches|
      invariant cache.Valid()
      invariant WorkerHolds(f, Roots(chunks), Concat(batches[..i]), nxb, cache.log, counts0, counts)
    {
      counts := NextBatch(f, depth, chunks, lut, batches, i, nxb, cache, counts, counts0);
    }
    assert batches[..|batches|] == batches;
  }

  /** One worker: its read batches in order, then `flush_all`. */
  method DistributeWorker(f: Frame, depth: nat, chunks: seq<Chunk>, lut: Lut, batches: seq<seq<RawPoint>>, nxb: nat,
                          capacity: nat, counts0: seq<nat>)
    returns (files: Files, counts: seq<nat>, ghost log: Log)
    requires Routable(f, depth, chunks, Concat(batches), nxb) && SmallBatches(batches)
    requires Table(depth, chunks, |chunks|, lut.cells[..], lut.sub) && |counts0| == |chunks|
    ensures ShardOf(f, Roots(chunks), Concat(batches), nxb, files, log) && CountsLog(counts0, counts, log)
  {
    var dir := new Directory();
    var cache := new ChunkWriterCache(capacity, dir);
    counts := DistributeBatches(f, depth, chunks, lut, batches, nxb, cache, counts0);
    cache.FlushAll();
    files, log := cache.dir.files, cache.log;
  }

  /** Shards of the workers so far, with a tally over all of them. */
  ghost predicate ShardsOf(f: Frame, roots: seq<VoxelKey>, streams: seq<seq<RawPoint>>, nxb: nat,
                           shards: seq<Files>, logs: seq<Log>) {
    |shards| == |streams| == |logs| &&
    forall w :: 0 <= w < |shards| ==> ShardOf(f, roots, streams[w], nxb, shards[w], logs[w])
  }

  /** A chunk's bytes, and its logged batches, per worker. */
  function Pieces(shards: seq<Files>, c: nat): (p: seq<seq<U8>>)
    ensures |p| == |shards| && forall w :: 0 <= w < |p| ==> p[w] == BytesOf(shards[w], c)
  {
    seq(|shards|, w requires 0 <= w < |shards| => BytesOf(shards[w], c))
  }

  function Lists(logs: seq<Log>, c: nat): (p: seq<seq<Batch>>)
    ensures |p| == |logs| && forall w :: 0 <= w < |p| ==> p[w] == Batches(logs[w], c)
  {
    seq(|logs|, w requires 0 <= w < |logs| => Batches(logs[w], c))
  }

  lemma {:induction false} InsideAppend(f: Frame, a: seq<RawPoint>, b: seq<RawPoint>, k: VoxelKey)
    ensures Inside(f, a + b, k) == Inside(f, a, k) + Inside(f, b, k)
  {
    if b == [] {
      assert a + b == a;
    } else {
      var n := |b| - 1;
      InsideAppend(f, a, b[..n], k);
      InsideSnoc(f, a + b[..n], b[n], k);
      assert a + b == (a + b[..n]) + [b[n]];
      Regroup(Inside(f, a, k), Inside(f, b[..n], k), if KeyAt(f, b[n], k.level) == k then [b[n]] else []);
    }
  }

  /** A shard holds the encoding of its log, or no file when it met no point of the chunk. */
  lemma ShardBytes(f: Frame, roots: seq<VoxelKey>, pts: seq<RawPoint>, nxb: nat, files: Files, log: Log, c: nat)
    requires ShardOf(f, roots, pts, nxb, files, log) && c < |roots|
    ensures BytesOf(files, c) == EncodeBatches(Batches(log, c)) && Concat(Batches(log, c)) == Inside(f, pts, roots[c])
    ensures AllUniform(Batches(log, c), nxb)
  {
    assert Held(log, map[], c) == Concat(Batches(log, c)) + [];
  }

  ghost predicate AllUniform(batches: seq<Batch>, nxb: nat) {
    forall i :: 0 <= i < |batches| ==> Uniform(batches[i], nxb)
  }

  /** One chunk over all workers: each piece encodes its list, which holds the worker's points of
      the voxel. */
  ghost predicate Rows(f: Frame, k: VoxelKey, streams: seq<seq<RawPoint>>, nxb: nat,
                       pieces: seq<seq<U8>>, lists: seq<seq<Batch>>) {
    |pieces| == |streams| == |lists| &&
    forall w :: 0 <= w < |streams| ==>
      pieces[w] == EncodeBatches(lists[w]) && Concat(lists[w]) == Inside(f, streams[w], k) && AllUniform(lists[w], nxb)
  }

  lemma ShardRows(f: Frame, roots: seq<VoxelKey>, streams: seq<seq<RawPoint>>, nxb: nat,
                  shards: seq<Files>, logs: seq<Log>, c: nat)
    requires ShardsOf(f, roots, streams, nxb, shards, logs) && c < |roots|
    ensures Rows(f, roots[c], streams, nxb, Pieces(shards, c), Lists(logs, c))
  {
    forall w | 0 <= w < |streams|
      ensures BytesOf(shards[w], c) == EncodeBatches(Batches(logs[w], c))
      ensures Concat(Batches(logs[w], c)) == Inside(f, streams[w], roots[c]) && AllUniform(Batches(logs[w], c), nxb)
    {
      ShardBytes(f, roots, streams[w], nxb, shards[w], logs[w], c);
    }
  }

  /** Joined pieces are one list of batches that decodes to the workers' points, in worker order. */
  lemma {:induction false} RowsJoin(f: Frame, k: VoxelKey, streams: seq<seq<RawPoint>>, nxb: nat,
                                    pieces: seq<seq<U8>>, lists: seq<seq<Batch>>)
    requires Rows(f, k, streams, nxb, pieces, lists)
    ensures Concat(pieces) == EncodeBatches(Concat(lists)) && AllUniform(Concat(lists), nxb)
    ensures Concat(Concat(lists)) == Inside(f, Concat(streams), k)
  {
    if streams != [] {
      RowsJoin(f, k, streams[1..], nxb, pieces[1..], lists[1..]);
      JoinStep(f, k, streams[0], Concat(streams[1..]), lists[0], Concat(lists[1..]), nxb);
    }
  }

  lemma JoinStep(f: Frame, k: VoxelKey, a: seq<RawPoint>, b: seq<RawPoint>, first: seq<Batch>, rest: seq<Batch>, nxb: nat)
    requires Concat(first) == Inside(f, a, k) && Concat(rest) == Inside(f, b, k)
    requires AllUniform(first, nxb) && AllUniform(rest, nxb)
    ensures EncodeBatches(first + rest) == EncodeBatches(first) + EncodeBatches(rest)
    ensures Concat(first + rest) == Inside(f, a + b, k) && AllUniform(first + rest, nxb)
  {
    EncodeBatchesAppend(first, rest);
    ConcatAppend(first, rest);
    InsideAppend(f, a, b, k);
  }

  /** One chunk of `merge_chunk_shards`: no shard gives an empty file, one is renamed, several are
      appended to the first. */
  method MergeChunkShards(shards: seq<Files>, c: nat) returns (canonical: seq<U8>)
    ensures canonical == Concat(Pieces(shards, c))
  {
    ghost var pieces := Pieces(shards, c);
    assert pieces[..0] == [];
    var paths: seq<seq<U8>> := [];
    for w := 0 to |shards|
      invariant Concat(paths) == Concat(pieces[..w])
    {
      ConcatTake(pieces, w);
      if c in shards[w] {
        ConcatSnoc(paths, shards[w][c]);
        paths := paths + [shards[w][c]];
      }
    }
    assert pieces[..|shards|] == pieces;
    if |paths| == 0 {
      canonical := [];
    } else if |paths| == 1 {
      assert paths[1..] == [];
      canonical := paths[0];
    } else {
      canonical := AppendRest(paths);
    }
  }

  method AppendRest(paths: seq<seq<U8>>) returns (out: seq<U8>)
    requires paths != []
    ensures out == Concat(paths)
  {
    out := paths[0];
    ConcatTake(paths, 0);
    for i := 1 to |paths|
      invariant out == Concat(paths[..i])
    {
      ConcatTake(paths, i);
      out := out + paths[i];
    }
    assert paths[..|paths|] == paths;
  }

  /** Number of logged points of a chunk over all workers. */
  ghost function Logged(logs: seq<Log>, c: nat): nat {
    |Concat(Concat(Lists(logs, c)))|
  }

  lemma LoggedSnoc(logs: seq<Log>, log: Log, c: nat)
    ensures Logged(logs + [log], c) == Logged(logs, c) + |Concat(Batches(log, c))|
  {
    assert Lists(logs + [log], c) == Lists(logs, c) + [Batches(log, c)];
    ConcatSnoc(Lists(logs, c), Batches(log, c));
    ConcatAppend(Concat(Lists(logs, c)), Batches(log, c));
  }

  ghost predicate TallyOf(logs: seq<Log>, counts: seq<nat>) {
    forall c: nat :: c < |counts| ==> counts[c] == Logged(logs, c)
  }

  lemma TallyNext(logs: seq<Log>, counts: seq<nat>, log: Log, counts': seq<nat>)
    requires TallyOf(logs, counts) && CountsLog(counts, counts', log)
    ensures TallyOf(logs + [log], counts')
  {
    forall c: nat | c < |counts'| ensures counts'[c] == Logged(logs + [log], c) {
      LoggedSnoc(logs, log, c);
    }
  }

  function Streams(workers: seq<seq<seq<RawPoint>>>): (s: seq<seq<RawPoint>>)
    ensures |s| == |workers| && forall w :: 0 <= w < |s| ==> s[w] == Concat(workers[w])
  {
    seq(|workers|, w requires 0 <= w < |workers| => Concat(workers[w]))
  }

  /** The work of one worker and what it leaves. */
  method RunWorker(f: Frame, depth: nat, chunks: seq<Chunk>, lut: Lut, workers: seq<seq<seq<RawPoint>>>, w: nat, nxb: nat,
                   capacity: nat, counts0: seq<nat>, ghost logs: seq<Log>)
    returns (files: Files, counts: seq<nat>, ghost log: Log)
    requires Routable(f, depth, chunks, Concat(Streams(workers)), nxb) && w < |workers| && SmallBatches(workers[w])
    requires Table(depth, chunks, |chunks|, lut.cells[..], lut.sub) && |counts0| == |chunks| && TallyOf(logs, counts0)
    ensures ShardOf(f, Roots(chunks), Concat(workers[w]), nxb, files, log)
    ensures |counts| == |chunks| && TallyOf(logs + [log], counts)
  {
    BatchRoutable(f, depth, chunks, Streams(workers), nxb, w);
    files, counts, log := DistributeWorker(f, depth, chunks, lut, workers[w], nxb, capacity, counts0);
    TallyNext(logs, counts0, log, counts);
  }

  /** All workers. They share nothing but the tally, to which they only add. */
  method RunWorkers(f: Frame, depth: nat, chunks: seq<Chunk>, lut: Lut, workers: seq<seq<seq<RawPoint>>>, nxb: nat, capacity: nat)
    returns (shards: seq<Files>, counts: seq<nat>, ghost logs: seq<Log>)
    requires Routable(f, depth, chunks, Concat(Streams(workers)), nxb)
    requires forall w :: 0 <= w < |workers| ==> SmallBatches(workers[w])
    requires Table(depth, chunks, |chunks|, lut.cells[..], lut.sub)
    ensures ShardsOf(f, Roots(chunks), Streams(workers), nxb, shards, logs)
    ensures |counts| == |chunks| && TallyOf(logs, counts)
  {
    shards, logs, counts := [], [], seq(|chunks|, _ => 0);
    ghost var streams := Streams(workers);
    for w := 0 to |workers|
      invariant ShardsOf(f, Roots(chunks), streams[..w], nxb, shards, logs)
      invariant |counts| == |chunks| && TallyOf(logs, counts)
    {
      var files: Files;
      ghost var log: Log;
      files, counts, log := RunWorker(f, depth, chunks, lut, workers, w, nxb, capacity, counts, logs);
      ShardsSnoc(f, Roots(chunks), streams, w, nxb, shards, logs, files, log);
      shards, logs := shards + [files], logs + [log];
    }
    assert streams[..|workers|] == streams;
  }

  lemma ShardsSnoc(f: Frame, roots: seq<VoxelKey>, streams: seq<seq<RawPoint>>, w: nat, nxb: nat,
                   shards: seq<Files>, logs: seq<Log>, files: Files, log: Log)
    requires w < |streams| && ShardsOf(f, roots, streams[..w], nxb, shards, logs)
    requires ShardOf(f, roots, streams[w], nxb, files, log)
    ensures ShardsOf(f, roots, streams[..w + 1], nxb, shards + [files], logs + [log])
  {
    var shards', logs', streams' := shards + [files], logs + [log], streams[..w + 1];
    SnocAt(streams[..w], streams[w]);
    SnocAt(shards, files);
    SnocAt(logs, log);
    assert streams' == streams[..w] + [streams[w]];
    forall v | 0 <= v < |shards'| ensures ShardOf(f, roots, streams'[v], nxb, shards'[v], logs'[v]) {
      if v < w {
        assert ShardOf(f, roots, streams[..w][v], nxb, shards[v], logs[v]);
      } else {
        assert v == w;
      }
    }
  }

  lemma SnocAt<T>(s: seq<T>, x: T)
    ensures forall v :: 0 <= v < |s| ==> (s + [x])[v] == s[v]
    ensures (s + [x])[|s|] == x
  {
  }

  /** The points of every chunk. */
  function Parts(f: Frame, pts: seq<RawPoint>, chunks: seq<Chunk>): (parts: seq<seq<RawPoint>>)
    ensures |parts| == |chunks| && forall i :: 0 <= i < |parts| ==> parts[i] == Inside(f, pts, chunks[i].root)
  {
    seq(|chunks|, i requires 0 <= i < |chunks| => Inside(f, pts, chunks[i].root))
  }

  lemma {:induction false} PartsSorted(f: Frame, pts: seq<RawPoint>, chunks: seq<Chunk>, n: nat)
    requires n <= |chunks|
    ensures multiset(Concat(Parts(f, pts, chunks)[..n])) == Sorted(f, pts, Roots(chunks)[..n])
  {
    if n > 0 {
      PartsSorted(f, pts, chunks, n - 1);
      ConcatTake(Parts(f, pts, chunks), n - 1);
      assert Roots(chunks)[..n][..n - 1] == Roots(chunks)[..n - 1];
    }
  }

  /** Distribution loses and duplicates nothing. */
  lemma PartsConserve(f: Frame, depth: nat, chunks: seq<Chunk>, pts: seq<RawPoint>, nxb: nat)
    requires Routable(f, depth, chunks, pts, nxb)
    ensures multiset(Concat(Parts(f, pts, chunks))) == multiset(pts)
  {
    forall i | 0 <= i < |pts| ensures BelongsOnce(f, pts[i], Roots(chunks)) {
      assert CoversPoint(f, chunks, pts[i]);
      var at: nat :| at < |chunks| && KeyAt(f, pts[i], chunks[at].root.level) == chunks[at].root;
      RoutedOnce(f, depth, chunks, pts[i], at);
    }
    SortedIsAll(f, pts, Roots(chunks));
    PartsSorted(f, pts, chunks, |chunks|);
    assert Roots(chunks)[..|chunks|] == Roots(chunks);
    assert Parts(f, pts, chunks)[..|chunks|] == Parts(f, pts, chunks);
  }

  lemma RootsApart(depth: nat, chunks: seq<Chunk>)
    requires Shape(depth, chunks)
    ensures Distinct(Roots(chunks)) && Antichain(Elems(Roots(chunks)))
    ensures forall i :: 0 <= i < |chunks| ==> Under(Roots(chunks)[i], ROOT)
  {
    var roots := Roots(chunks);
    forall a, b | a in Elems(roots) && b in Elems(roots) && Under(a, b) ensures a == b {
      var i: nat :| i < |roots| && roots[i] == a;
      var j: nat :| j < |roots| && roots[j] == b;
    }
    forall i | 0 <= i < |chunks| ensures Under(roots[i], ROOT) {
      InRangeUnderRoot(roots[i]);
    }
    forall i, j | 0 <= i < j < |roots| ensures roots[i] != roots[j] {
      assert Under(chunks[i].root, chunks[i].root);
    }
  }

  lemma PartFacts(f: Frame, pts: seq<RawPoint>, k: VoxelKey, nxb: nat)
    requires Uniform(pts, nxb)
    ensures AllIn(f, Inside(f, pts, k), k) && Uniform(Inside(f, pts, k), nxb)
  {
    InsideFacts(f, pts, k);
    forall i | 0 <= i < |Inside(f, pts, k)| ensures |Inside(f, pts, k)[i].extras| == nxb {
      assert Inside(f, pts, k)[i] in pts;
    }
  }

  /** One chunk's canonical file decodes to the chunk's points of the whole input. */
  ghost predicate HoldsChunk(f: Frame, root: VoxelKey, pts: seq<RawPoint>, nxb: nat, file: seq<U8>) {
    DecodeStream(file, nxb) == Some(Inside(f, pts, root))
  }

  lemma {:induction false} InsidePart(f: Frame, pts: seq<RawPoint>, r: VoxelKey, k: VoxelKey)
    ensures |Inside(f, Inside(f, pts, r), k)| <= |Inside(f, pts, k)|
  {
    if pts != [] {
      var n := |pts| - 1;
      InsidePart(f, pts[..n], r, k);
      if KeyAt(f, pts[n], r.level) == r {
        InsideSnoc(f, Inside(f, pts[..n], r), pts[n], k);
      } else {
        assert Inside(f, pts, r) == Inside(f, pts[..n], r);
      }
    }
  }

  /** A chunk of the whole input keeps the room its levels have. */
  lemma PartLevelsFit(f: Frame, pts: seq<RawPoint>, r: VoxelKey)
    requires LevelsFit(f, pts, r)
    ensures LevelsFit(f, Inside(f, pts, r), r)
  {
    forall k | Under(k, r) && k.level <= r.level + SPILL_DEPTH_CAP ensures LevelRoom(k.level, |Inside(f, Inside(f, pts, r), k)|) {
      InsidePart(f, pts, r, k);
    }
  }

  /** What the build starts from. */
  lemma MergedDistributed(f: Frame, depth: nat, chunks: seq<Chunk>, pts: seq<RawPoint>, nxb: nat, files: seq<seq<U8>>, cap: nat)
    requires Routable(f, depth, chunks, pts, nxb) && PartsFit(f, pts, chunks, cap) && |files| == |chunks|
    requires HoldChunks(f, Roots(chunks), pts, nxb, files)
    ensures Distributed(f, Roots(chunks), files, nxb, Parts(f, pts, chunks), cap)
  {
    RootsApart(depth, chunks);
    forall c: nat | c < |chunks|
      ensures AllIn(f, Inside(f, pts, chunks[c].root), chunks[c].root) && Uniform(Inside(f, pts, chunks[c].root), nxb)
      ensures |Inside(f, pts, chunks[c].root)| <= cap && LevelsFit(f, Inside(f, pts, chunks[c].root), chunks[c].root)
    {
      PartFacts(f, pts, chunks[c].root, nxb);
      PartLevelsFit(f, pts, chunks[c].root);
    }
  }

  /** `distribute`: every chunk file decodes to exactly the chunk's points of the whole input, in
      worker order, and the tally is each file's point count. */
  method DistributePoints(f: Frame, depth: nat, chunks: seq<Chunk>, workers: seq<seq<seq<RawPoint>>>, nxb: nat, capacity: nat,
                          ghost cap: nat)
    returns (files: seq<seq<U8>>, counts: seq<nat>)
    requires Routable(f, depth, chunks, Concat(Streams(workers)), nxb) && PartsFit(f, Concat(Streams(workers)), chunks, cap)
    requires forall w :: 0 <= w < |workers| ==> SmallBatches(workers[w])
    ensures Distributed(f, Roots(chunks), files, nxb, Parts(f, Concat(Streams(workers)), chunks), cap)
    ensures TallyMatches(counts, Parts(f, Concat(Streams(workers)), chunks))
  {
    ghost var pts := Concat(Streams(workers));
    var cells, sub := BuildChunkLut(depth, chunks);
    var shards: seq<Files>;
    ghost var logs: seq<Log>;
    shards, counts, logs := RunWorkers(f, depth, chunks, Lut(cells, sub), workers, nxb, capacity);
    files := MergeAll(f, Roots(chunks), shards, Streams(workers), logs, pts, nxb);
    MergedDistributed(f, depth, chunks, pts, nxb, files, cap);
    forall c: nat | c < |chunks| ensures counts[c] == |Inside(f, pts, chunks[c].root)| {
      ShardRows(f, Roots(chunks), Streams(workers), nxb, shards, logs, c);
      RowsJoin(f, chunks[c].root, Streams(workers), nxb, Pieces(shards, c), Lists(logs, c));
    }
  }

  /** The canonical files of the first chunks. */
  ghost predicate HoldChunks(f: Frame, roots: seq<VoxelKey>, pts: seq<RawPoint>, nxb: nat, files: seq<seq<U8>>) {
    |files| <= |roots| && forall c: nat :: c < |files| ==> HoldsChunk(f, roots[c], pts, nxb, files[c])
  }

  /** `merge_chunk_shards` for the next chunk. */
  method MergeNext(f: Frame, roots: seq<VoxelKey>, shards: seq<Files>, ghost streams: seq<seq<RawPoint>>, ghost logs: seq<Log>,
                   ghost pts: seq<RawPoint>, nxb: nat, files: seq<seq<U8>>) returns (more: seq<seq<U8>>)
    requires ShardsOf(f, roots, streams, nxb, shards, logs) && pts == Concat(streams)
    requires |files| < |roots| && HoldChunks(f, roots, pts, nxb, files)
    ensures |more| == |files| + 1 && HoldChunks(f, roots, pts, nxb, more)
  {
    var c := |files|;
    var file := MergeChunkShards(shards, c);
    ShardRows(f, roots, streams, nxb, shards, logs, c);
    RowsJoin(f, roots[c], streams, nxb, Pieces(shards, c), Lists(logs, c));
    BatchesRoundTrip(Concat(Lists(logs, c)), nxb);
    assert HoldsChunk(f, roots[c], pts, nxb, file);
    more := files + [file];
  }

  /** `merge_chunk_shards` over all chunks. */
  method MergeAll(f: Frame, roots: seq<VoxelKey>, shards: seq<Files>, ghost streams: seq<seq<RawPoint>>, ghost logs: seq<Log>,
                  ghost pts: seq<RawPoint>, nxb: nat) returns (files: seq<seq<U8>>)
    requires ShardsOf(f, roots, streams, nxb, shards, logs) && pts == Concat(streams)
    ensures |files| == |roots| && HoldChunks(f, roots, pts, nxb, files)
  {
    files := [];
    for c := 0 to |roots|
      invariant |files| == c && HoldChunks(f, roots, pts, nxb, files)
    {
      files := MergeNext(f, roots, shards, streams, logs, pts, nxb, files);
    }
  }
}
