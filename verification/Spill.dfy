/** Routing an oversized chunk into one scratch file per sub-octant (the streaming pass of
    `build_chunk_spilled` in src/octree.rs). */
module Spill {
  import opened Voxel
  import opened Points
  import opened NodeMap
  import opened Framing
  import opened Sampling
  import opened Levels
  import opened WriterCache

  /** The points of a voxel, in input order. */
  function Inside(f: Frame, pts: seq<RawPoint>, k: VoxelKey): seq<RawPoint> {
    if pts == [] then []
    else
      var n := |pts| - 1;
      Inside(f, pts[..n], k) + (if KeyAt(f, pts[n], k.level) == k then [pts[n]] else [])
  }

  lemma InsideSnoc(f: Frame, pts: seq<RawPoint>, p: RawPoint, k: VoxelKey)
    ensures Inside(f, pts + [p], k) == Inside(f, pts, k) + (if KeyAt(f, p, k.level) == k then [p] else [])
  {
    assert (pts + [p])[..|pts|] == pts;
  }

  lemma {:induction false} InsideFacts(f: Frame, pts: seq<RawPoint>, k: VoxelKey)
    ensures AllIn(f, Inside(f, pts, k), k) && |Inside(f, pts, k)| <= |pts|
    ensures forall p :: p in Inside(f, pts, k) ==> p in pts
  {
    if pts != [] {
      InsideFacts(f, pts[..|pts| - 1], k);
    }
  }

  /** Points sorted into the voxels of a list, voxel by voxel. */
  ghost function Sorted(f: Frame, pts: seq<RawPoint>, roots: seq<VoxelKey>): multiset<RawPoint> {
    if roots == [] then multiset{}
    else Sorted(f, pts, roots[..|roots| - 1]) + multiset(Inside(f, pts, roots[|roots| - 1]))
  }

  /** The point belongs to the voxel at position `at` of the list and to no other. */
  ghost predicate BelongsAt(f: Frame, p: RawPoint, roots: seq<VoxelKey>, at: nat) {
    forall j: nat :: j < |roots| ==> (KeyAt(f, p, roots[j].level) == roots[j] <==> j == at)
  }

  lemma {:induction false} SortedSnoc(f: Frame, pts: seq<RawPoint>, p: RawPoint, roots: seq<VoxelKey>, at: nat)
    requires BelongsAt(f, p, roots, at)
    ensures Sorted(f, pts + [p], roots) == Sorted(f, pts, roots) + (if at < |roots| then multiset{p} else multiset{})
  {
    if roots != [] {
      var n := |roots| - 1;
      assert BelongsAt(f, p, roots[..n], at);
      SortedSnoc(f, pts, p, roots[..n], at);
      InsideSnoc(f, pts, p, roots[n]);
      Snoc(Inside(f, pts, roots[n]), p);
    }
  }

  lemma {:induction false} SortedNothing(f: Frame, roots: seq<VoxelKey>)
    ensures Sorted(f, [], roots) == multiset{}
  {
    if roots != [] {
      SortedNothing(f, roots[..|roots| - 1]);
    }
  }

  ghost predicate BelongsOnce(f: Frame, p: RawPoint, roots: seq<VoxelKey>) {
    exists at :: 0 <= at < |roots| && BelongsAt(f, p, roots, at)
  }

  /** Distributing points over all their voxels loses none and duplicates none. */
  lemma {:induction false} SortedIsAll(f: Frame, pts: seq<RawPoint>, roots: seq<VoxelKey>)
    requires forall i :: 0 <= i < |pts| ==> BelongsOnce(f, pts[i], roots)
    ensures Sorted(f, pts, roots) == multiset(pts)
  {
    if pts == [] {
      SortedNothing(f, roots);
    } else {
      var n := |pts| - 1;
      SortedIsAll(f, pts[..n], roots);
      assert BelongsOnce(f, pts[n], roots);
      var at: nat :| at < |roots| && BelongsAt(f, pts[n], roots, at);
      SortedSnoc(f, pts[..n], pts[n], roots, at);
      assert pts[..n] + [pts[n]] == pts;
      Snoc(pts[..n], pts[n]);
    }
  }

  type Pending = map<nat, seq<RawPoint>>

  function PendOf(pending: Pending, c: nat): seq<RawPoint> {
    if c in pending then pending[c] else []
  }

  /** Points sent to a file so far, written or still pending. */
  function Held(log: Log, pending: Pending, c: nat): seq<RawPoint> {
    Concat(Batches(log, c)) + PendOf(pending, c)
  }

  /** Writing one pending group keeps what every file holds. */
  lemma DrainStep(log: Log, pending: Pending, c: nat, d: nat, pts: Batch)
    requires c in pending && pts == pending[c]
    ensures Held(log[c := Batches(log, c) + [pts]], pending - {c}, d) == Held(log, pending, d)
  {
    if c == d {
      ConcatSnoc(Batches(log, c), pts);
    }
  }

  /** Every appended batch and pending group is non-empty, fits its header and carries `nxb`
      extra bytes per point. */
  ghost predicate WellFormed(log: Log, pending: Pending, nxb: nat) {
    (forall c :: c in log ==> UniformBatches(log[c], nxb)) &&
    (forall c :: c in pending ==> pending[c] != [] && Uniform(pending[c], nxb) && |pending[c]| < 0x1_0000_0000)
  }

  ghost predicate UniformBatches(batches: seq<Batch>, nxb: nat) {
    batches != [] && forall i :: 0 <= i < |batches| ==> batches[i] != [] && Uniform(batches[i], nxb)
  }

  /** The same points per file, over the same files. */
  ghost predicate SameHeld(log: Log, pending: Pending, log': Log, pending': Pending) {
    log.Keys + pending.Keys == log'.Keys + pending'.Keys &&
    forall c :: Held(log', pending', c) == Held(log, pending, c)
  }

  lemma DrainKeeps(log0: Log, pending0: Pending, nxb: nat, log: Log, pending: Pending, c: nat, pts: Batch)
    requires WellFormed(log, pending, nxb) && c in pending && pts == pending[c]
    requires SameHeld(log0, pending0, log, pending)
    ensures var log' := log[c := Batches(log, c) + [pts]];
            WellFormed(log', pending - {c}, nxb) && SameHeld(log0, pending0, log', pending - {c})
  {
    var log' := log[c := Batches(log, c) + [pts]];
    forall d ensures Held(log', pending - {c}, d) == Held(log0, pending0, d) {
      DrainStep(log, pending, c, d, pts);
    }
    SameFiles(log, pending, c, Batches(log, c) + [pts]);
  }

  lemma SameFiles(log: Log, pending: Pending, c: nat, v: seq<Batch>)
    requires c in pending
    ensures log[c := v].Keys + (pending - {c}).Keys == log.Keys + pending.Keys
  {
  }

  /** Append every pending group, in any order. */
  method DrainPending(cache: ChunkWriterCache, pending0: Pending, nxb: nat)
    requires cache.Valid() && WellFormed(cache.log, pending0, nxb)
    modifies cache, cache.dir
    ensures cache.Valid() && WellFormed(cache.log, map[], nxb)
    ensures SameHeld(old(cache.log), pending0, cache.log, map[])
  {
    var pending := pending0;
    while pending != map[]
      invariant cache.Valid() && WellFormed(cache.log, pending, nxb)
      invariant SameHeld(old(cache.log), pending0, cache.log, pending)
      decreases |pending|
    {
      var c :| c in pending;
      DrainKeeps(old(cache.log), pending0, nxb, cache.log, pending, c, pending[c]);
      cache.Append(c, pending[c]);
      pending := pending - {c};
    }
  }

  /** `subIndex` numbers the voxels of `roots`. */
  ghost predicate Numbered(subIndex: map<VoxelKey, nat>, roots: seq<VoxelKey>, level: nat) {
    (forall k :: k in subIndex ==> subIndex[k] < |roots| && roots[subIndex[k]] == k) &&
    (forall i :: 0 <= i < |roots| ==> roots[i].level == level && roots[i] in subIndex && subIndex[roots[i]] == i)
  }

  lemma NumberedDistinct(subIndex: map<VoxelKey, nat>, roots: seq<VoxelKey>, level: nat)
    requires Numbered(subIndex, roots, level)
    ensures Distinct(roots)
  {
  }

  /** Exactly the files numbered below `n` are in use. */
  ghost predicate FilesAre(used: set<nat>, n: nat) {
    forall c: nat :: c in used <==> c < n
  }

  /** The points seen so far are in their sub-octants' files or pending, in order. */
  ghost predicate Routed(f: Frame, pts: seq<RawPoint>, subIndex: map<VoxelKey, nat>, roots: seq<VoxelKey>,
                         level: nat, log: Log, pending: Pending) {
    Numbered(subIndex, roots, level) &&
    (forall i :: 0 <= i < |pts| ==> KeyAt(f, pts[i], level) in subIndex) &&
    AllHeld(f, pts, roots, log, pending) &&
    FilesAre(log.Keys + pending.Keys, |roots|)
  }

  lemma {:induction false} InsideAbsent(f: Frame, pts: seq<RawPoint>, k: VoxelKey)
    requires forall i :: 0 <= i < |pts| ==> KeyAt(f, pts[i], k.level) != k
    ensures Inside(f, pts, k) == []
  {
    if pts != [] {
      InsideAbsent(f, pts[..|pts| - 1], k);
    }
  }

  /** A sub-octant seen for the first time starts an empty file. */
  ghost predicate Ready(f: Frame, pts: seq<RawPoint>, subIndex: map<VoxelKey, nat>, roots: seq<VoxelKey>,
                        level: nat, log: Log, pending: Pending, k: VoxelKey) {
    Numbered(subIndex, roots, level) && k in subIndex &&
    (forall i :: 0 <= i < |pts| ==> KeyAt(f, pts[i], level) in subIndex) &&
    AllHeld(f, pts, roots, log, pending) &&
    FilesAre(log.Keys + pending.Keys + {subIndex[k]}, |roots|)
  }

  lemma ReadyKnown(f: Frame, pts: seq<RawPoint>, subIndex: map<VoxelKey, nat>, roots: seq<VoxelKey>,
                   level: nat, log: Log, pending: Pending, k: VoxelKey)
    requires Routed(f, pts, subIndex, roots, level, log, pending) && k in subIndex
    ensures Ready(f, pts, subIndex, roots, level, log, pending, k)
  {
  }

  lemma HeldNothing(log: Log, pending: Pending, c: nat)
    requires c !in log.Keys + pending.Keys
    ensures Held(log, pending, c) == []
  {
    assert c !in log && c !in pending;
    assert Batches(log, c) == [];
  }

  lemma HeldNewAt(f: Frame, pts: seq<RawPoint>, roots: seq<VoxelKey>, log: Log, pending: Pending, k: VoxelKey, c: nat)
    requires AllHeld(f, pts, roots, log, pending) && Inside(f, pts, k) == [] == Held(log, pending, |roots|)
    requires c <= |roots|
    ensures Held(log, pending, c) == Inside(f, pts, (roots + [k])[c])
  {
    if c < |roots| {
      assert (roots + [k])[c] == roots[c];
    }
  }

  lemma AllHeldNew(f: Frame, pts: seq<RawPoint>, roots: seq<VoxelKey>, log: Log, pending: Pending, k: VoxelKey)
    requires AllHeld(f, pts, roots, log, pending) && Inside(f, pts, k) == [] == Held(log, pending, |roots|)
    ensures AllHeld(f, pts, roots + [k], log, pending)
  {
    forall c: nat | c < |roots + [k]| ensures Held(log, pending, c) == Inside(f, pts, (roots + [k])[c]) {
      HeldNewAt(f, pts, roots, log, pending, k, c);
    }
  }

  lemma ReadyNew(f: Frame, pts: seq<RawPoint>, subIndex: map<VoxelKey, nat>, roots: seq<VoxelKey>,
                 level: nat, log: Log, pending: Pending, k: VoxelKey)
    requires Routed(f, pts, subIndex, roots, level, log, pending) && k !in subIndex && k.level == level
    ensures Ready(f, pts, subIndex[k := |roots|], roots + [k], level, log, pending, k)
  {
    InsideAbsent(f, pts, k);
    HeldNothing(log, pending, |roots|);
    AllHeldNew(f, pts, roots, log, pending, k);
    NumberedSnoc(subIndex, roots, level, k);
  }

  lemma NumberedSnoc(subIndex: map<VoxelKey, nat>, roots: seq<VoxelKey>, level: nat, k: VoxelKey)
    requires Numbered(subIndex, roots, level) && k !in subIndex && k.level == level
    ensures Numbered(subIndex[k := |roots|], roots + [k], level)
  {
  }

  lemma HeldPush(log: Log, pending: Pending, idx: nat, p: RawPoint, c: nat)
    ensures Held(log, pending[idx := PendOf(pending, idx) + [p]], c) ==
            Held(log, pending, c) + (if c == idx then [p] else [])
  {
  }

  lemma HeldStep(f: Frame, pts: seq<RawPoint>, p: RawPoint, root: VoxelKey, held: seq<RawPoint>, held': seq<RawPoint>)
    requires held == Inside(f, pts, root)
    requires held' == held + (if KeyAt(f, p, root.level) == root then [p] else [])
    ensures held' == Inside(f, pts + [p], root)
  {
    InsideSnoc(f, pts, p, root);
  }

  lemma RoutedKeys(f: Frame, pts: seq<RawPoint>, p: RawPoint, subIndex: map<VoxelKey, nat>, level: nat)
    requires forall i :: 0 <= i < |pts| ==> KeyAt(f, pts[i], level) in subIndex
    requires KeyAt(f, p, level) in subIndex
    ensures forall i :: 0 <= i < |pts + [p]| ==> KeyAt(f, (pts + [p])[i], level) in subIndex
  {
  }

  lemma HeldAfter(f: Frame, pts: seq<RawPoint>, p: RawPoint, subIndex: map<VoxelKey, nat>, roots: seq<VoxelKey>,
                  level: nat, log: Log, pending: Pending, k: VoxelKey, idx: nat, group: seq<RawPoint>, c: nat)
    requires Numbered(subIndex, roots, level) && k in subIndex && c < |roots|
    requires Held(log, pending, c) == Inside(f, pts, roots[c])
    requires k == KeyAt(f, p, level) && idx == subIndex[k] && group == PendOf(pending, idx) + [p]
    ensures Held(log, pending[idx := group], c) == Inside(f, pts + [p], roots[c])
  {
    HeldPush(log, pending, idx, p, c);
    assert roots[c] == k <==> c == idx;
    HeldStep(f, pts, p, roots[c], Held(log, pending, c), Held(log, pending[idx := group], c));
  }

  lemma PutKeys(log: Log, pending: Pending, idx: nat, group: seq<RawPoint>)
    ensures log.Keys + pending[idx := group].Keys == log.Keys + pending.Keys + {idx}
  {
  }

  /** Every file holds the points of its sub-octant, in order. */
  ghost predicate AllHeld(f: Frame, pts: seq<RawPoint>, roots: seq<VoxelKey>, log: Log, pending: Pending) {
    forall c: nat :: c < |roots| ==> Held(log, pending, c) == Inside(f, pts, roots[c])
  }

  lemma AllHeldAfter(f: Frame, pts: seq<RawPoint>, p: RawPoint, subIndex: map<VoxelKey, nat>, roots: seq<VoxelKey>,
                     level: nat, log: Log, pending: Pending, k: VoxelKey, idx: nat, group: seq<RawPoint>)
    requires Numbered(subIndex, roots, level) && k in subIndex && AllHeld(f, pts, roots, log, pending)
    requires k == KeyAt(f, p, level) && idx == subIndex[k] && group == PendOf(pending, idx) + [p]
    ensures AllHeld(f, pts + [p], roots, log, pending[idx := group])
  {
    forall c: nat | c < |roots| ensures Held(log, pending[idx := group], c) == Inside(f, pts + [p], roots[c]) {
      HeldAfter(f, pts, p, subIndex, roots, level, log, pending, k, idx, group, c);
    }
  }

  lemma RoutedStep(f: Frame, pts: seq<RawPoint>, p: RawPoint, subIndex: map<VoxelKey, nat>, roots: seq<VoxelKey>,
                   level: nat, log: Log, pending: Pending, k: VoxelKey, idx: nat, group: seq<RawPoint>)
    requires Ready(f, pts, subIndex, roots, level, log, pending, k)
    requires k == KeyAt(f, p, level) && idx == subIndex[k] && group == PendOf(pending, idx) + [p]
    ensures Routed(f, pts + [p], subIndex, roots, level, log, pending[idx := group])
  {
    AllHeldAfter(f, pts, p, subIndex, roots, level, log, pending, k, idx, group);
    RoutedKeys(f, pts, p, subIndex, level);
    PutKeys(log, pending, idx, group);
  }

  lemma RoutedDrained(f: Frame, pts: seq<RawPoint>, subIndex: map<VoxelKey, nat>, roots: seq<VoxelKey>,
                      level: nat, log: Log, pending: Pending, log': Log)
    requires Routed(f, pts, subIndex, roots, level, log, pending) && SameHeld(log, pending, log', map[])
    ensures Routed(f, pts, subIndex, roots, level, log', map[])
  {
    var none: Pending := map[];
    assert log'.Keys + none.Keys == log'.Keys;
  }

  lemma PushWellFormed(log: Log, pending: Pending, nxb: nat, idx: nat, p: RawPoint)
    requires WellFormed(log, pending, nxb) && |p.extras| == nxb && |PendOf(pending, idx)| + 1 < 0x1_0000_0000
    ensures WellFormed(log, pending[idx := PendOf(pending, idx) + [p]], nxb)
  {
  }

  /** A pending group is no longer than the points seen so far. */
  lemma PendingBound(f: Frame, pts: seq<RawPoint>, subIndex: map<VoxelKey, nat>, roots: seq<VoxelKey>,
                     level: nat, log: Log, pending: Pending, k: VoxelKey)
    requires Ready(f, pts, subIndex, roots, level, log, pending, k)
    ensures |PendOf(pending, subIndex[k])| <= |pts|
  {
    var c := subIndex[k];
    InsideFacts(f, pts, roots[c]);
    assert |Held(log, pending, c)| >= |PendOf(pending, c)|;
  }

  /** Every sub-octant's file decodes to that sub-octant's points in order, and the
      sub-octants are exactly the ones that occur. */
  ghost predicate Sharded(f: Frame, points: seq<RawPoint>, level: nat, roots: seq<VoxelKey>, files: Files, nxb: nat) {
    Distinct(roots) &&
    (forall i :: 0 <= i < |roots| ==> roots[i].level == level) &&
    (forall i :: 0 <= i < |points| ==> KeyAt(f, points[i], level) in roots) &&
    (forall c: nat :: c < |roots| ==> Inside(f, points, roots[c]) != []) &&
    (forall c: nat :: c < |roots| ==> c in files && DecodeStream(files[c], nxb) == Some(Inside(f, points, roots[c])))
  }

  lemma FilesDecode(files: Files, log: Log, nxb: nat, c: nat)
    requires FilesHold(files, log) && WellFormed(log, map[], nxb) && c in log
    ensures c in files && DecodeStream(files[c], nxb) == Some(Held(log, map[], c)) && Held(log, map[], c) != []
  {
    BatchesRoundTrip(log[c], nxb);
    assert Concat(log[c]) + [] == Concat(log[c]);
  }

  lemma ShardedDone(f: Frame, points: seq<RawPoint>, subIndex: map<VoxelKey, nat>, roots: seq<VoxelKey>,
                    level: nat, log: Log, files: Files, nxb: nat)
    requires Routed(f, points, subIndex, roots, level, log, map[])
    requires FilesHold(files, log) && WellFormed(log, map[], nxb)
    ensures Sharded(f, points, level, roots, files, nxb)
  {
    NumberedDistinct(subIndex, roots, level);
    forall c: nat | c < |roots|
      ensures c in files && DecodeStream(files[c], nxb) == Some(Inside(f, points, roots[c])) && Inside(f, points, roots[c]) != []
    {
      var none: Pending := map[];
      assert c in log.Keys + none.Keys;
      FilesDecode(files, log, nxb, c);
    }
    forall i | 0 <= i < |points| ensures KeyAt(f, points[i], level) in roots {
      assert roots[subIndex[KeyAt(f, points[i], level)]] == KeyAt(f, points[i], level);
    }
  }

  /** Route one point: number its sub-octant on first sight and add it to the pending group. */
  method RouteOne(f: Frame, ghost pts: seq<RawPoint>, p: RawPoint, subIndex: map<VoxelKey, nat>, roots: seq<VoxelKey>,
                  level: nat, ghost log: Log, pending: Pending, ghost nxb: nat)
    returns (subIndex': map<VoxelKey, nat>, roots': seq<VoxelKey>, pending': Pending)
    requires InFlight(f, pts, subIndex, roots, level, nxb, log, pending)
    requires |p.extras| == nxb && |pts| + 1 < 0x1_0000_0000 && level <= MAX_LEVEL
    ensures InFlight(f, pts + [p], subIndex', roots', level, nxb, log, pending')
  {
    var sub := Classify(f, p, level);
    subIndex', roots' := subIndex, roots;
    if sub !in subIndex {
      ReadyNew(f, pts, subIndex, roots, level, log, pending, sub);
      subIndex', roots' := subIndex[sub := |roots|], roots + [sub];
    } else {
      ReadyKnown(f, pts, subIndex, roots, level, log, pending, sub);
    }
    var idx := subIndex'[sub];
    PendingBound(f, pts, subIndex', roots', level, log, pending, sub);
    PushWellFormed(log, pending, nxb, idx, p);
    var group := PendOf(pending, idx) + [p];
    RoutedStep(f, pts, p, subIndex', roots', level, log, pending, sub, idx, group);
    pending' := pending[idx := group];
  }

  /** The state of the routing pass between two points. */
  ghost predicate InFlight(f: Frame, pts: seq<RawPoint>, subIndex: map<VoxelKey, nat>, roots: seq<VoxelKey>,
                           level: nat, nxb: nat, log: Log, pending: Pending) {
    Routed(f, pts, subIndex, roots, level, log, pending) && WellFormed(log, pending, nxb)
  }

  method FlushPending(f: Frame, ghost pts: seq<RawPoint>, ghost subIndex: map<VoxelKey, nat>, ghost roots: seq<VoxelKey>,
                      level: nat, nxb: nat, cache: ChunkWriterCache, pending: Pending)
    requires cache.Valid() && InFlight(f, pts, subIndex, roots, level, nxb, cache.log, pending)
    modifies cache, cache.dir
    ensures cache.Valid() && InFlight(f, pts, subIndex, roots, level, nxb, cache.log, map[])
  {
    ghost var log := cache.log;
    DrainPending(cache, pending, nxb);
    RoutedDrained(f, pts, subIndex, roots, level, log, pending, cache.log);
  }

  /** One point of the routing pass, with the flush it may trigger. */
  method RouteAndFlush(f: Frame, ghost pts: seq<RawPoint>, p: RawPoint, subIndex: map<VoxelKey, nat>, roots: seq<VoxelKey>,
                       level: nat, nxb: nat, cache: ChunkWriterCache, pending: Pending, pendingPoints: nat, flushThreshold: nat)
    returns (subIndex': map<VoxelKey, nat>, roots': seq<VoxelKey>, pending': Pending, pendingPoints': nat)
    requires cache.Valid() && InFlight(f, pts, subIndex, roots, level, nxb, cache.log, pending)
    requires |p.extras| == nxb && |pts| + 1 < 0x1_0000_0000 && level <= MAX_LEVEL
    modifies cache, cache.dir
    ensures cache.Valid() && InFlight(f, pts + [p], subIndex', roots', level, nxb, cache.log, pending')
  {
    subIndex', roots', pending' := RouteOne(f, pts, p, subIndex, roots, level, cache.log, pending, nxb);
    pendingPoints' := pendingPoints + 1;
    if pendingPoints' >= flushThreshold {
      FlushPending(f, pts + [p], subIndex', roots', level, nxb, cache, pending');
      pending', pendingPoints' := map[], 0;
    }
  }

  /** The routing pass: one pass over the chunk, grouping points and flushing the groups whenever
      `flushThreshold` points are pending. */
  method RouteToSubOctants(f: Frame, points: seq<RawPoint>, level: nat, nxb: nat, flushThreshold: nat,
                           cache: ChunkWriterCache)
    returns (roots: seq<VoxelKey>)
    requires cache.Valid() && cache.log == map[]
    requires Uniform(points, nxb) && |points| < 0x1_0000_0000 && level <= MAX_LEVEL
    modifies cache, cache.dir
    ensures Sharded(f, points, level, roots, cache.dir.files, nxb)
  {
    var subIndex: map<VoxelKey, nat>, pending: Pending := map[], map[];
    var pendingPoints := 0;
    roots := [];
    assert points[..0] == [];
    NothingInFlight(f, level, nxb, cache.log);
    for i := 0 to |points|
      invariant cache.Valid() && InFlight(f, points[..i], subIndex, roots, level, nxb, cache.log, pending)
    {
      assert points[..i + 1] == points[..i] + [points[i]];
      subIndex, roots, pending, pendingPoints :=
        RouteAndFlush(f, points[..i], points[i], subIndex, roots, level, nxb, cache, pending, pendingPoints, flushThreshold);
    }
    assert points[..|points|] == points;
    FinishRouting(f, points, subIndex, roots, level, nxb, cache, pending);
  }

  lemma NothingInFlight(f: Frame, level: nat, nxb: nat, log: Log)
    requires log == map[]
    ensures InFlight(f, [], map[], [], level, nxb, log, map[])
  {
  }

  method FinishRouting(f: Frame, ghost points: seq<RawPoint>, ghost subIndex: map<VoxelKey, nat>, ghost roots: seq<VoxelKey>,
                       level: nat, nxb: nat, cache: ChunkWriterCache, pending: Pending)
    requires cache.Valid() && InFlight(f, points, subIndex, roots, level, nxb, cache.log, pending)
    modifies cache, cache.dir
    ensures Sharded(f, points, level, roots, cache.dir.files, nxb)
  {
    FlushPending(f, points, subIndex, roots, level, nxb, cache, pending);
    cache.FlushAll();
    ShardedDone(f, points, subIndex, roots, level, cache.log, cache.dir.files, nxb);
  }
}
