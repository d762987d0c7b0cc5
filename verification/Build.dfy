/** `build_node_map` of src/octree.rs: every chunk built on one store, the chunk roots merged to
    the global root, and the node list assembled. */
module Build {
  import opened Bytes
  import opened Voxel
  import opened Points
  import opened Framing
  import opened NodeMap
  import opened NodeStorage
  import opened Sampling
  import opened Levels
  import opened Growth
  import opened Merge
  import opened MergeTops
  import opened Regions
  import opened ChunkBuild

  ghost function CountsTotal(c: Counts): nat
    decreases |c|
  {
    if c == map[] then 0
    else
      var k :| k in c;
      c[k] + CountsTotal(c - {k})
  }

  lemma {:induction false} CountsRemove(c: Counts, k: VoxelKey)
    requires k in c
    ensures CountsTotal(c) == c[k] + CountsTotal(c - {k})
    decreases |c|
  {
    var j :| j in c && CountsTotal(c) == c[j] + CountsTotal(c - {j});
    if j != k {
      CountsRemove(c - {j}, k);
      CountsRemove(c - {k}, j);
      assert c - {j} - {k} == c - {k} - {j};
    }
  }

  /** The lengths of the non-empty nodes. */
  function Lengths(m: Nodes): Counts {
    map k | k in m && m[k] != [] :: |m[k]|
  }

  lemma {:induction false} LengthsTotal(m: Nodes)
    ensures CountsTotal(Lengths(m)) == |Total(m)|
    decreases |m|
  {
    if m != map[] {
      var k :| k in m;
      LengthsTotal(m - {k});
      TotalRemove(m, k);
      LengthsWithout(m, k);
      if m[k] != [] {
        CountsRemove(Lengths(m), k);
      }
    }
  }

  lemma LengthsWithout(m: Nodes, k: VoxelKey)
    requires k in m
    ensures Lengths(m - {k}) == if m[k] == [] then Lengths(m) else Lengths(m) - {k}
  {
  }

  /** The points of each chunk, by chunk root. */
  function PartMap(chunks: seq<VoxelKey>, parts: seq<seq<RawPoint>>): Nodes
    requires |chunks| == |parts|
  {
    if chunks == [] then map[]
    else
      var n := |chunks| - 1;
      PartMap(chunks[..n], parts[..n])[chunks[n] := parts[n]]
  }

  lemma {:induction false} PartMapReads(chunks: seq<VoxelKey>, parts: seq<seq<RawPoint>>, i: nat)
    requires |chunks| == |parts| && Distinct(chunks) && i < |chunks|
    ensures chunks[i] in PartMap(chunks, parts) && PartMap(chunks, parts)[chunks[i]] == parts[i]
  {
    var n := |chunks| - 1;
    if i < n {
      PartMapReads(chunks[..n], parts[..n], i);
      assert chunks[i] != chunks[n];
    }
  }

  lemma {:induction false} PartMapTotal(chunks: seq<VoxelKey>, parts: seq<seq<RawPoint>>)
    requires |chunks| == |parts| && Distinct(chunks)
    ensures Total(PartMap(chunks, parts)) == multiset(Concat(parts)) && PartMap(chunks, parts).Keys == Elems(chunks)
  {
    if chunks != [] {
      var n := |chunks| - 1;
      PartMapTotal(chunks[..n], parts[..n]);
      DistinctNotBefore(chunks, n);
      TotalInsert(PartMap(chunks[..n], parts[..n]), chunks[n], parts[n]);
      ElemsTake(chunks, n);
      assert chunks[..n + 1] == chunks;
      ConcatTake(parts, n);
      assert parts[..n + 1] == parts;
    }
  }

  /** The chunks `done` have been built, whichever they are. */
  ghost predicate ChunksBuilt(f: Frame, all: multiset<RawPoint>, pm: Nodes, done: set<VoxelKey>,
                              m: Nodes, keys: set<VoxelKey>, roots: set<VoxelKey>)
  {
    Accumulated(f, all, done, Total(Restricted(pm, done)), map[], m, keys) && roots == keys * done
  }

  /** A plan and the points distributed by it: un-nested roots inside the root cube, and one file
      per chunk that decodes to points of that chunk. */
  ghost predicate Distributed(f: Frame, chunks: seq<VoxelKey>, files: seq<seq<U8>>, nxb: nat, parts: seq<seq<RawPoint>>, cap: nat) {
    GRID_CELLS <= cap < 0x1_0000_0000 && |files| == |chunks| && |parts| == |chunks| && Distinct(chunks) && Antichain(Elems(chunks)) &&
    forall i :: 0 <= i < |chunks| ==>
      Under(chunks[i], ROOT) && DecodeStream(files[i], nxb) == Some(parts[i]) &&
      AllIn(f, parts[i], chunks[i]) && Uniform(parts[i], nxb) && |parts[i]| <= cap && LevelsFit(f, parts[i], chunks[i])
  }

  lemma RestrictedWithin(pm: Nodes, keys: set<VoxelKey>)
    ensures Total(Restricted(pm, keys)) <= Total(pm)
  {
    TotalWithin(pm, pm.Keys - keys);
    assert pm - (pm.Keys - keys) == Restricted(pm, keys);
  }

  lemma ChunkReady(f: Frame, all: multiset<RawPoint>, chunks: seq<VoxelKey>, files: seq<seq<U8>>, nxb: nat,
                   parts: seq<seq<RawPoint>>, cap: nat, pm: Nodes, done: set<VoxelKey>, i: nat, m: Nodes, keys: set<VoxelKey>,
                   roots: set<VoxelKey>)
    requires Distributed(f, chunks, files, nxb, parts, cap) && i < |chunks| && pm == PartMap(chunks, parts) && all == Total(pm)
    requires done <= Elems(chunks) && chunks[i] !in done && ChunksBuilt(f, all, pm, done, m, keys, roots)
    ensures Placed(f, m) && Vacant(m, chunks[i]) && Total(m) + multiset(parts[i]) <= all
    ensures Apart(done, chunks[i])
  {
    PartMapReads(chunks, parts, i);
    RestrictedPlus(pm, done, chunks[i]);
    RestrictedWithin(pm, done + {chunks[i]});
    assert chunks[i] in Elems(chunks);
    StillVacant(f, all, done, Total(Restricted(pm, done)), map[], m, keys, chunks[i]);
  }

  lemma ChunkDone(f: Frame, all: multiset<RawPoint>, pm: Nodes, done: set<VoxelKey>, r: VoxelKey,
                  m: Nodes, keys: set<VoxelKey>, roots: set<VoxelKey>, m': Nodes, built: set<VoxelKey>)
    requires ChunksBuilt(f, all, pm, done, m, keys, roots) && r !in done && Apart(done, r)
    requires RegionBuilt(f, all, r, multiset(Get(pm, r)), m, m', built)
    ensures ChunksBuilt(f, all, pm, done + {r}, m', keys + built, roots + set k | k in built && k.level == r.level)
  {
    RestrictedPlus(pm, done, r);
    AccumulateStep(f, all, done, Total(Restricted(pm, done)), map[], m, keys, r, multiset(Get(pm, r)), m', built);
    NewRoots(done, keys, r, built);
  }

  lemma NewRoots(done: set<VoxelKey>, keys: set<VoxelKey>, r: VoxelKey, built: set<VoxelKey>)
    requires Apart(done, r) && (forall k :: k in built ==> Under(k, r))
    requires forall k :: k in keys ==> InRegions(done, k)
    ensures (keys + built) * (done + {r}) == keys * done + set k | k in built && k.level == r.level
  {
    forall k | k in keys ensures k != r {
      var d :| d in done && Under(k, d);
    }
    forall k | k in built ensures k !in done {
    }
  }

  /** Count every listed key, dropping the empty ones. */
  method CountNodes(store: NodeStore, keys: set<VoxelKey>) returns (counts: Counts)
    requires forall k :: Populated(store.contents, k) ==> k in keys
    ensures counts == Lengths(store.contents)
  {
    counts := map[];
    var todo := keys;
    while todo != {}
      invariant todo <= keys
      invariant forall k :: k in counts <==> k in keys && k !in todo && Populated(store.contents, k)
      invariant forall k :: k in counts ==> counts[k] == |Get(store.contents, k)|
      decreases todo
    {
      var k :| k in todo;
      var n := store.Count(k);
      if n > 0 {
        counts := counts[k := n];
      }
      todo := todo - {k};
    }
  }

  /** `k` is listed when it holds points or lies above a node that does. */
  ghost predicate HasStored(data: Counts, k: VoxelKey) {
    exists d :: d in data && Under(d, k)
  }

  /** Adding zero-count ancestors: what has been added so far. */
  ghost predicate Extended(data: Counts, counts: Counts) {
    (forall k :: k in data ==> k in counts && counts[k] == data[k]) &&
    (forall k :: k in counts && k !in data ==> counts[k] == 0 && HasStored(data, k)) &&
    CountsTotal(counts) == CountsTotal(data)
  }

  lemma ExtendStep(data: Counts, counts: Counts, k: VoxelKey, p: VoxelKey)
    requires Extended(data, counts) && k in counts && Parent(k) == Some(p) && p !in counts
    ensures Extended(data, counts[p := 0])
  {
    CountsRemove(counts[p := 0], p);
    assert counts[p := 0] - {p} == counts;
    var d :| d in data && Under(d, k) && (k in data ==> d == k);
    UnderTransitive(d, k, p);
  }

  /** `key` and its ancestors down from `k` are listed. */
  ghost predicate Climbed(counts: Counts, key: VoxelKey, k: VoxelKey) {
    Under(key, k) && forall a :: Under(key, a) && k.level <= a.level ==> a in counts
  }

  lemma ClimbStep(counts: Counts, key: VoxelKey, k: VoxelKey, p: VoxelKey, counts': Counts)
    requires Climbed(counts, key, k) && Parent(k) == Some(p) && counts.Keys + {p} == counts'.Keys
    ensures Climbed(counts', key, p)
  {
    UnderTransitive(key, k, p);
    forall a | Under(key, a) && p.level <= a.level ensures a in counts' {
      if a.level == p.level {
        assert a == p;
      } else {
        assert a in counts.Keys;
      }
    }
  }

  /** The walk from one node up to the root. */
  method AddAncestors(ghost data: Counts, counts0: Counts, key: VoxelKey) returns (counts: Counts)
    requires Extended(data, counts0) && key in counts0
    ensures Extended(data, counts) && counts0.Keys <= counts.Keys
    ensures forall a :: Under(key, a) ==> a in counts
  {
    counts := counts0;
    var k := key;
    while k.level > 0
      invariant Extended(data, counts) && counts0.Keys <= counts.Keys
      invariant Climbed(counts, key, k) && k in counts
      decreases k.level
    {
      var p := Parent(k).value;
      ghost var was := counts;
      if p !in counts {
        ExtendStep(data, counts, k, p);
        counts := counts[p := 0];
      }
      ClimbStep(was, key, k, p, counts);
      k := p;
    }
  }

  /** The keys whose ancestors have all been listed. */
  ghost predicate AncestorsOf(done: set<VoxelKey>, counts: Counts) {
    forall d, a :: d in done && Under(d, a) ==> a in counts
  }

  method AddAllAncestors(data: Counts) returns (counts: Counts)
    ensures Extended(data, counts) && AncestorsOf(data.Keys, counts)
  {
    counts := data;
    var todo := data.Keys;
    while todo != {}
      invariant todo <= data.Keys && Extended(data, counts) && AncestorsOf(data.Keys - todo, counts)
      decreases todo
    {
      var k :| k in todo;
      counts := AddAncestors(data, counts, k);
      todo := todo - {k};
    }
    assert data.Keys - todo == data.Keys;
  }

  /** The node list: populated nodes and all their ancestors, each with its stored length. */
  ghost predicate NodeList(m: Nodes, counts: Counts) {
    (forall k :: k in counts <==> exists d :: Populated(m, d) && Under(d, k)) &&
    (forall k :: k in counts ==> counts[k] == |Get(m, k)|) &&
    CountsTotal(counts) == |Total(m)|
  }

  lemma ListComplete(m: Nodes, data: Counts, counts: Counts)
    requires data == Lengths(m) && Extended(data, counts) && AncestorsOf(data.Keys, counts)
    ensures NodeList(m, counts)
  {
    LengthsTotal(m);
    forall k | k in counts ensures (exists d :: Populated(m, d) && Under(d, k)) && counts[k] == |Get(m, k)| {
      if k in data {
        assert Populated(m, k) && Under(k, k);
      } else {
        var d :| d in data && Under(d, k);
        assert Populated(m, d);
      }
    }
    forall k, d | Populated(m, d) && Under(d, k) ensures k in counts {
      assert d in data.Keys;
    }
  }

  /** Main theorem of the build. Every input point ends up in exactly one node, under its own
      key; a voxel holding at most one leaf's worth of points is never subdivided; the list holds
      exactly the populated nodes and their ancestors, with their final counts; and the tree is the
      input sorted into leaves with every family sampled from there up to the root. */
  ghost predicate BuiltFrom(f: Frame, input: multiset<RawPoint>, m: Nodes, counts: Counts) {
    Total(m) == input && Placed(f, m) && NodeList(m, counts) &&
    (forall k :: k in counts ==> Under(k, ROOT)) &&
    (forall v :: Under(v, ROOT) ==> Dense(f, input, m, v)) && Grown(f, input, {ROOT}, m)
  }

  /** One chunk build, keeping the accumulated guarantees. */
  method BuildOne(f: Frame, chunks: seq<VoxelKey>, files: seq<seq<U8>>, count: nat, nxb: nat, limits: Limits,
                  store: NodeStore, i: nat, keys: set<VoxelKey>, roots: set<VoxelKey>,
                  ghost parts: seq<seq<RawPoint>>, ghost all: multiset<RawPoint>, ghost cap: nat, ghost pm: Nodes, ghost done: set<VoxelKey>)
    returns (ok: bool, keys': set<VoxelKey>, roots': set<VoxelKey>)
    requires Distributed(f, chunks, files, nxb, parts, cap) && i < |chunks| && pm == PartMap(chunks, parts) && all == Total(pm)
    requires done <= Elems(chunks) && chunks[i] !in done && ChunksBuilt(f, all, pm, done, store.contents, keys, roots)
    requires count == |parts[i]| && Bounded(store.contents, cap)
    modifies store
    ensures Bounded(store.contents, cap)
    ensures ok ==> ChunksBuilt(f, all, pm, done + {chunks[i]}, store.contents, keys', roots')
    ensures Roomy(all, limits.memPerPoint, limits.oomThreshold) ==> ok
  {
    ghost var m := store.contents;
    ChunkReady(f, all, chunks, files, nxb, parts, cap, pm, done, i, m, keys, roots);
    PartMapReads(chunks, parts, i);
    var built: set<VoxelKey>;
    ok, built := BuildChunk(f, chunks[i], files[i], count, nxb, limits, store, parts[i], all, cap);
    if ok {
      ChunkDone(f, all, pm, done, chunks[i], m, keys, roots, store.contents, built);
    }
    keys', roots' := keys + built, roots + set k | k in built && k.level == chunks[i].level;
  }

  lemma NothingBuilt(f: Frame, all: multiset<RawPoint>, pm: Nodes)
    ensures ChunksBuilt(f, all, pm, {}, map[], {}, {})
  {
    AccumulateStart(f, all, map[]);
    assert Restricted(pm, {}) == map[];
  }

  lemma AllChunksMergeable(f: Frame, all: multiset<RawPoint>, chunks: seq<VoxelKey>, parts: seq<seq<RawPoint>>,
                           pm: Nodes, m: Nodes, keys: set<VoxelKey>, roots: set<VoxelKey>)
    requires |parts| == |chunks| && Distinct(chunks) && Antichain(Elems(chunks)) && AllUnderRoot(chunks)
    requires pm == PartMap(chunks, parts) && all == Total(pm) && ChunksBuilt(f, all, pm, Elems(chunks), m, keys, roots)
    ensures Accumulated(f, all, Elems(chunks), all, map[], m, keys) && roots == keys * Elems(chunks)
    ensures (forall r :: r in Elems(chunks) ==> Under(r, ROOT)) && Vacant(map[], ROOT)
    ensures Mergeable(f, all, m, ROOT, Elems(chunks), roots)
  {
    PartMapTotal(chunks, parts);
    assert Restricted(pm, Elems(chunks)) == pm;
    AccumulatedMergeable(f, all, ROOT, Elems(chunks), all, map[], m, keys, roots);
  }

  ghost predicate AllUnderRoot(chunks: seq<VoxelKey>) {
    forall r :: r in Elems(chunks) ==> Under(r, ROOT)
  }

  lemma ChunksBelowRoot(f: Frame, chunks: seq<VoxelKey>, files: seq<seq<U8>>, nxb: nat, parts: seq<seq<RawPoint>>, cap: nat)
    requires Distributed(f, chunks, files, nxb, parts, cap)
    ensures |parts| == |chunks| && Distinct(chunks) && Antichain(Elems(chunks)) && AllUnderRoot(chunks)
  {
    forall r | r in Elems(chunks) ensures Under(r, ROOT) {
      var i :| 0 <= i < |chunks| && chunks[i] == r;
    }
  }

  lemma WholeTree(f: Frame, all: multiset<RawPoint>, m: Nodes, keys: set<VoxelKey>, counts: Counts)
    requires RegionBuilt(f, all, ROOT, all, map[], m, keys) && NodeList(m, counts)
    ensures BuiltFrom(f, all, m, counts)
  {
    forall k | k in counts ensures Under(k, ROOT) {
      var d :| Populated(m, d) && Under(d, k);
      assert !Under(d, ROOT) ==> Get(m, d) == Get(map[], d);
      AncestorsComparable(d, k, ROOT);
    }
  }

  lemma EverythingBelowRoot(f: Frame, all: multiset<RawPoint>, m: Nodes, keys: set<VoxelKey>)
    requires RegionBuilt(f, all, ROOT, all, map[], m, keys)
    ensures forall k :: Populated(m, k) ==> k in keys
  {
    forall k | Populated(m, k) ensures Under(k, ROOT) {
      assert !Under(k, ROOT) ==> Get(m, k) == Get(map[], k);
    }
  }

  /** The chunks still to build are those not done. */
  ghost predicate Remaining(chunks: seq<VoxelKey>, todo: set<nat>, done: set<VoxelKey>) {
    done <= Elems(chunks) && (forall i: nat :: i in todo ==> i < |chunks|) &&
    forall i: nat :: i < |chunks| ==> (i in todo <==> chunks[i] !in done)
  }

  lemma RemainingStep(chunks: seq<VoxelKey>, todo: set<nat>, done: set<VoxelKey>, i: nat)
    requires Distinct(chunks) && Remaining(chunks, todo, done) && i in todo
    ensures Remaining(chunks, todo - {i}, done + {chunks[i]})
  {
  }

  /** The tally of a distribution: every chunk's number of points. */
  ghost predicate TallyMatches(actual: seq<nat>, parts: seq<seq<RawPoint>>) {
    |actual| == |parts| && forall i :: 0 <= i < |actual| ==> actual[i] == |parts[i]|
  }

  /** Between two chunk builds: `todo` are the indices still to build. */
  ghost predicate Building(f: Frame, all: multiset<RawPoint>, pm: Nodes, chunks: seq<VoxelKey>, cap: nat, todo: set<nat>,
                           m: Nodes, keys: set<VoxelKey>, roots: set<VoxelKey>)
  {
    Bounded(m, cap) && exists done :: Remaining(chunks, todo, done) && ChunksBuilt(f, all, pm, done, m, keys, roots)
  }

  lemma BuildingStart(f: Frame, all: multiset<RawPoint>, pm: Nodes, chunks: seq<VoxelKey>, cap: nat)
    ensures Building(f, all, pm, chunks, cap, Upto(|chunks|), map[], {}, {})
  {
    NothingBuilt(f, all, pm);
    assert Remaining(chunks, Upto(|chunks|), {});
  }

  lemma BuildingDone(f: Frame, all: multiset<RawPoint>, pm: Nodes, chunks: seq<VoxelKey>, cap: nat,
                     m: Nodes, keys: set<VoxelKey>, roots: set<VoxelKey>)
    requires Building(f, all, pm, chunks, cap, {}, m, keys, roots)
    ensures ChunksBuilt(f, all, pm, Elems(chunks), m, keys, roots)
  {
    var done :| Remaining(chunks, {}, done) && ChunksBuilt(f, all, pm, done, m, keys, roots);
    forall r | r in Elems(chunks) ensures r in done {
      var i: nat :| i < |chunks| && chunks[i] == r;
      assert i !in {};
    }
    assert done == Elems(chunks);
  }

  /** Build chunk `i`, one of those still to build. */
  method BuildNext(f: Frame, chunks: seq<VoxelKey>, files: seq<seq<U8>>, count: nat, nxb: nat, limits: Limits,
                   store: NodeStore, i: nat, todo: set<nat>, keys: set<VoxelKey>, roots: set<VoxelKey>,
                   ghost parts: seq<seq<RawPoint>>, ghost all: multiset<RawPoint>, ghost cap: nat, ghost pm: Nodes)
    returns (ok: bool, keys': set<VoxelKey>, roots': set<VoxelKey>)
    requires Distributed(f, chunks, files, nxb, parts, cap) && pm == PartMap(chunks, parts) && all == Total(pm)
    requires i in todo && i < |chunks| && count == |parts[i]| && Building(f, all, pm, chunks, cap, todo, store.contents, keys, roots)
    modifies store
    ensures Bounded(store.contents, cap)
    ensures ok ==> Building(f, all, pm, chunks, cap, todo - {i}, store.contents, keys', roots')
    ensures Roomy(all, limits.memPerPoint, limits.oomThreshold) ==> ok
  {
    ghost var done :| Remaining(chunks, todo, done) && ChunksBuilt(f, all, pm, done, store.contents, keys, roots);
    ok, keys', roots' := BuildOne(f, chunks, files, count, nxb, limits, store, i, keys, roots, parts, all, cap, pm, done);
    RemainingStep(chunks, todo, done, i);
  }

  /** The chunk builds, finishing in any order. */
  method BuildChunks(f: Frame, chunks: seq<VoxelKey>, files: seq<seq<U8>>, actual: seq<nat>, nxb: nat, limits: Limits,
                     store: NodeStore, ghost parts: seq<seq<RawPoint>>, ghost all: multiset<RawPoint>, ghost cap: nat, ghost pm: Nodes)
    returns (ok: bool, keys: set<VoxelKey>, roots: set<VoxelKey>)
    requires Distributed(f, chunks, files, nxb, parts, cap) && TallyMatches(actual, parts) && store.contents == map[]
    requires pm == PartMap(chunks, parts) && all == Total(pm)
    modifies store
    ensures Bounded(store.contents, cap)
    ensures ok ==> ChunksBuilt(f, all, pm, Elems(chunks), store.contents, keys, roots)
    ensures Roomy(all, limits.memPerPoint, limits.oomThreshold) ==> ok
  {
    ok, keys, roots := true, {}, {};
    var todo := Upto(|chunks|);
    BuildingStart(f, all, pm, chunks, cap);
    while ok && todo != {}
      invariant todo <= Upto(|chunks|) && Bounded(store.contents, cap)
      invariant ok ==> Building(f, all, pm, chunks, cap, todo, store.contents, keys, roots)
      invariant Roomy(all, limits.memPerPoint, limits.oomThreshold) ==> ok
      decreases todo
    {
      var i :| i in todo;
      ok, keys, roots := BuildNext(f, chunks, files, actual[i], nxb, limits, store, i, todo, keys, roots, parts, all, cap, pm);
      todo := todo - {i};
    }
    if ok {
      BuildingDone(f, all, pm, chunks, cap, store.contents, keys, roots);
    }
  }

  /** `build_node_map`. `ok` is false only when a merge exceeds the memory limit. */
  method BuildNodeMap(f: Frame, chunks: seq<VoxelKey>, files: seq<seq<U8>>, actual: seq<nat>, nxb: nat, limits: Limits,
                      store: NodeStore, ghost parts: seq<seq<RawPoint>>, ghost cap: nat)
    returns (ok: bool, counts: Counts)
    requires Distributed(f, chunks, files, nxb, parts, cap) && TallyMatches(actual, parts) && store.contents == map[]
    modifies store
    ensures Bounded(store.contents, cap)
    ensures ok ==> BuiltFrom(f, multiset(Concat(parts)), store.contents, counts)
    ensures Roomy(multiset(Concat(parts)), limits.memPerPoint, limits.oomThreshold) ==> ok
  {
    ghost var pm := PartMap(chunks, parts);
    PartMapTotal(chunks, parts);
    var keys: set<VoxelKey>, roots: set<VoxelKey>;
    ok, keys, roots := BuildChunks(f, chunks, files, actual, nxb, limits, store, parts, Total(pm), cap, pm);
    if !ok {
      return false, map[];
    }
    ok, counts := MergeAndList(f, chunks, files, nxb, limits, store, keys, roots, parts, Total(pm), cap, pm);
  }

  /** The global merge and the node list. */
  method MergeAndList(f: Frame, chunks: seq<VoxelKey>, ghost files: seq<seq<U8>>, ghost nxb: nat, limits: Limits,
                      store: NodeStore, keys: set<VoxelKey>, roots: set<VoxelKey>,
                      ghost parts: seq<seq<RawPoint>>, ghost all: multiset<RawPoint>, ghost cap: nat, ghost pm: Nodes)
    returns (ok: bool, counts: Counts)
    requires Distributed(f, chunks, files, nxb, parts, cap) && pm == PartMap(chunks, parts) && all == Total(pm)
    requires ChunksBuilt(f, all, pm, Elems(chunks), store.contents, keys, roots) && Bounded(store.contents, cap)
    modifies store
    ensures Bounded(store.contents, cap)
    ensures ok ==> BuiltFrom(f, all, store.contents, counts)
    ensures Roomy(all, limits.memPerPoint, limits.oomThreshold) ==> ok
  {
    ghost var m := store.contents;
    ChunksBelowRoot(f, chunks, files, nxb, parts, cap);
    AllChunksMergeable(f, all, chunks, parts, pm, m, keys, roots);
    var parents: set<VoxelKey>;
    ok, parents := MergeChunkTops(f, store, roots, 0, limits.memPerPoint, limits.oomThreshold, ROOT, Elems(chunks), all, all, cap);
    if !ok {
      return false, map[];
    }
    MergedIsRegion(f, all, ROOT, Elems(chunks), all, map[], m, keys, roots, store.contents, parents);
    EverythingBelowRoot(f, all, store.contents, keys + parents);
    var data := CountNodes(store, keys + parents);
    counts := AddAllAncestors(data);
    ListComplete(store.contents, data, counts);
    WholeTree(f, all, store.contents, keys + parents, counts);
  }
}
