/** Leaf classification and adaptive leaf subdivision (`push_into_leaf` and the first half of
    `finish_subtree` in src/octree.rs), and the in-memory subtree builds that use them. */
module Leaves {
  import opened Arith
  import opened Voxel
  import opened Points
  import opened NodeMap
  import opened NodeStorage
  import opened Sampling
  import opened Families
  import opened Growth
  import opened Subtree

  /** `chunk_local_extra_levels`: enough levels that the average leaf holds at most
      MAX_LEAF_POINTS, capped at 13. */
  method ExtraLevels(pointCount: nat) returns (d: nat)
    ensures IsExtra(pointCount, d) && (d == 0 <==> pointCount <= MAX_LEAF_POINTS)
  {
    if pointCount <= MAX_LEAF_POINTS {
      return 0;
    }
    d := 0;
    while pointCount as real / Pow8(d) as real > MAX_LEAF_POINTS as real
      invariant d <= 12
      invariant d > 0 ==> pointCount > MAX_LEAF_POINTS * Pow8(d - 1)
      decreases 13 - d
    {
      QuotientExceeds(pointCount, Pow8(d), MAX_LEAF_POINTS);
      d := d + 1;
      if d > 12 {
        return;
      }
    }
    QuotientExceeds(pointCount, Pow8(d), MAX_LEAF_POINTS);
  }

  /** The leaves of a subtree rooted at level `l` and built for `n` points have coordinates that
      fit their 32-bit words. */
  predicate LevelRoom(l: nat, n: nat) {
    l <= MAX_LEVEL && (l + 13 <= MAX_LEVEL || n <= MAX_LEAF_POINTS * Pow8(MAX_LEVEL - l))
  }

  /** What `ExtraLevels` returns for `n` points. */
  ghost predicate IsExtra(n: nat, d: nat) {
    d <= 13 && (d > 0 ==> n > MAX_LEAF_POINTS * Pow8(d - 1)) && (d < 13 ==> n <= MAX_LEAF_POINTS * Pow8(d))
  }

  lemma {:induction false} LeafLimitGrows(a: nat, b: nat)
    requires a <= b
    ensures MAX_LEAF_POINTS * Pow8(a) <= MAX_LEAF_POINTS * Pow8(b)
  {
    if a < b {
      LeafLimitGrows(a, b - 1);
      Pow8Step(b - 1);
    }
  }

  /** The test on the point count alone is exact. */
  lemma LevelRoomExact(l: nat, n: nat, d: nat)
    requires IsExtra(n, d)
    ensures LevelRoom(l, n) <==> l + d <= MAX_LEVEL
  {
    if l <= MAX_LEVEL < l + 13 {
      var j := MAX_LEVEL - l;
      if d <= j { LeafLimitGrows(d, j); } else { LeafLimitGrows(j, d - 1); }
    }
  }

  lemma QuotientExceeds(n: nat, q: nat, m: nat)
    requires q > 0
    ensures n as real / q as real > m as real <==> n > m * q
  {
    var r := n as real / q as real;
    assert r * q as real == n as real;
    if r > m as real {
      assert (r - m as real) * q as real > 0.0;
    } else {
      assert (m as real - r) * q as real >= 0.0;
    }
  }

  /** The test `n / q > m` in floating point, for exact division. */
  method AverageExceeds(n: nat, q: nat, m: nat) returns (b: bool)
    requires q > 0
    ensures b <==> n > m * q
  {
    QuotientExceeds(n, q, m);
    b := n as real / q as real > m as real;
  }

  /** Push a point onto a leaf, creating the leaf on first use. */
  function Push(m: Nodes, k: VoxelKey, p: RawPoint): Nodes {
    m[k := Get(m, k) + [p]]
  }

  lemma PushFacts(f: Frame, m: Nodes, k: VoxelKey, p: RawPoint)
    requires Sound(f, m) && KeyAt(f, p, k.level) == k
    ensures Sound(f, Push(m, k, p)) && Total(Push(m, k, p)) == Total(m) + multiset{p}
  {
    var v := Get(m, k);
    TotalPut(m, k, v + [p]);
    Snoc(v, p);
    CancelPut(Total(Push(m, k, p)), multiset(v), Total(m), p);
  }

  lemma CancelPut<T>(t': multiset<T>, v: multiset<T>, t: multiset<T>, p: T)
    requires t' + v == t + (v + multiset{p})
    ensures t' == t + multiset{p}
  {
    forall x: T ensures t'[x] == (t + multiset{p})[x] {
      assert (t' + v)[x] == t'[x] + v[x];
      assert (t + (v + multiset{p}))[x] == t[x] + v[x] + multiset{p}[x];
    }
  }

  ghost predicate Collected(f: Frame, pts: seq<RawPoint>, depth: nat, m: Nodes) {
    Sound(f, m) && Total(m) == multiset(pts) && forall k :: k in m ==> k.level == depth
  }

  lemma CollectedStep(f: Frame, pts: seq<RawPoint>, depth: nat, m: Nodes, p: RawPoint, key: VoxelKey)
    requires Collected(f, pts, depth, m) && key == KeyAt(f, p, depth)
    ensures Collected(f, pts + [p], depth, Push(m, key, p))
  {
    PushFacts(f, m, key, p);
    Snoc(pts, p);
  }

  /** Classify every point at one depth. */
  method CollectLeaves(f: Frame, points: seq<RawPoint>, depth: nat) returns (leaves: Nodes)
    requires depth <= MAX_LEVEL
    ensures Sound(f, leaves) && Total(leaves) == multiset(points)
    ensures forall k :: k in leaves ==> k.level == depth
  {
    leaves := map[];
    for i := 0 to |points|
      invariant Collected(f, points[..i], depth, leaves)
    {
      var key := Classify(f, points[i], depth);
      CollectedStep(f, points[..i], depth, leaves, points[i], key);
      assert points[..i + 1] == points[..i] + [points[i]];
      leaves := Push(leaves, key, points[i]);
    }
    assert points[..|points|] == points;
  }

  lemma LeavesUnderRoot(f: Frame, leaves: Nodes, root: VoxelKey)
    requires Sound(f, leaves) && forall k :: k in leaves ==> root.level <= k.level
    requires InVoxel(f, Total(leaves), root)
    ensures KeysUnder(leaves, root)
  {
    forall k | k in leaves ensures Under(k, root) {
      var p := leaves[k][0];
      assert p in leaves[k];
      TotalContains(leaves, k);
      assert p in multiset(leaves[k]);
      DescentRefines(f, p, root.level, k.level);
    }
  }

  predicate Oversized(m: Nodes, k: VoxelKey) {
    k in m && |m[k]| > MAX_LEAF_POINTS
  }

  /** Children of `key` have taken over its points; every other entry is as before. */
  ghost predicate SplitInto(f: Frame, m: Nodes, key: VoxelKey, m': Nodes) {
    Sound(f, m') && key !in m' && Total(m') == Total(m) &&
    (forall k :: k in m && k != key && Parent(k) != Some(key) ==> k in m' && m'[k] == m[k]) &&
    (forall k :: k in m' && k !in m ==> Parent(k) == Some(key))
  }

  /** Progress of splitting one leaf: `rest` without `key`, plus its first `i` points one level deeper. */
  ghost predicate Splitting(f: Frame, rest: Nodes, key: VoxelKey, pts: seq<RawPoint>, m: Nodes) {
    Sound(f, m) && key !in m && Total(m) == Total(rest) + multiset(pts) &&
    (forall k :: k in rest && Parent(k) != Some(key) ==> k in m && m[k] == rest[k]) &&
    (forall k :: k in m && k !in rest ==> Parent(k) == Some(key))
  }

  lemma SplittingStep(f: Frame, rest: Nodes, key: VoxelKey, pts: seq<RawPoint>, m: Nodes, p: RawPoint, nk: VoxelKey)
    requires Splitting(f, rest, key, pts, m)
    requires nk == KeyAt(f, p, nk.level) && Parent(nk) == Some(key)
    ensures Splitting(f, rest, key, pts + [p], Push(m, nk, p))
  {
    PushFacts(f, m, nk, p);
    Snoc(pts, p);
    AddToSum(Total(m), Total(rest), multiset(pts), p);
    SplittingFrame(f, rest, key, pts, m, p, nk);
  }

  lemma SplittingFrame(f: Frame, rest: Nodes, key: VoxelKey, pts: seq<RawPoint>, m: Nodes, p: RawPoint, nk: VoxelKey)
    requires Splitting(f, rest, key, pts, m) && Parent(nk) == Some(key)
    ensures var m' := Push(m, nk, p);
            key !in m' &&
            (forall k :: k in rest && Parent(k) != Some(key) ==> k in m' && m'[k] == rest[k]) &&
            (forall k :: k in m' && k !in rest ==> Parent(k) == Some(key))
  {
  }

  lemma SplittingStart(f: Frame, rest: Nodes, key: VoxelKey, pts: seq<RawPoint>)
    requires Sound(f, rest) && key !in rest
    ensures Splitting(f, rest, key, pts[..0], rest)
  {
    assert pts[..0] == [];
  }

  lemma SplittingNext(f: Frame, rest: Nodes, key: VoxelKey, pts: seq<RawPoint>, i: nat, m: Nodes, nk: VoxelKey)
    requires i < |pts| && Splitting(f, rest, key, pts[..i], m)
    requires nk == KeyAt(f, pts[i], nk.level) && Parent(nk) == Some(key)
    ensures Splitting(f, rest, key, pts[..i + 1], Push(m, nk, pts[i]))
  {
    SplittingStep(f, rest, key, pts[..i], m, pts[i], nk);
    assert pts[..i + 1] == pts[..i] + [pts[i]];
  }

  lemma MemberIn(f: Frame, pts: seq<RawPoint>, key: VoxelKey, i: nat)
    requires i < |pts| && AllIn(f, pts, key)
    ensures KeyAt(f, pts[i], key.level) == key
  {
    assert pts[i] in pts;
  }

  /** The child of `key` one level deeper that holds the point. */
  method ClassifyBelow(f: Frame, p: RawPoint, key: VoxelKey) returns (child: VoxelKey)
    requires KeyAt(f, p, key.level) == key && key.level < MAX_LEVEL
    ensures child == KeyAt(f, p, child.level) && child.level == key.level + 1 && Parent(child) == Some(key)
  {
    child := Classify(f, p, key.level + 1);
    ParentOfDescent(f, p, key.level + 1);
  }

  /** Move points of `key` to its children one level deeper. */
  method MovePoints(f: Frame, rest: Nodes, key: VoxelKey, pts: seq<RawPoint>) returns (m: Nodes)
    requires Sound(f, rest) && key !in rest && AllIn(f, pts, key) && key.level < MAX_LEVEL
    ensures Splitting(f, rest, key, pts, m)
  {
    m := rest;
    SplittingStart(f, rest, key, pts);
    for i := 0 to |pts|
      invariant Splitting(f, rest, key, pts[..i], m)
    {
      MemberIn(f, pts, key, i);
      var newKey := ClassifyBelow(f, pts[i], key);
      SplittingNext(f, rest, key, pts, i, m, newKey);
      m := Push(m, newKey, pts[i]);
    }
    assert pts[..|pts|] == pts;
  }

  lemma SplitDone(f: Frame, leaves: Nodes, key: VoxelKey, m: Nodes)
    requires key in leaves && Splitting(f, leaves - {key}, key, leaves[key], m)
    ensures SplitInto(f, leaves, key, m)
  {
    TotalRemove(leaves, key);
    var rest := leaves - {key};
    assert forall k :: k in leaves && k != key ==> k in rest && rest[k] == leaves[k];
  }

  /** Split one leaf into its children one level deeper. */
  method SplitLeaf(f: Frame, leaves: Nodes, key: VoxelKey) returns (leaves': Nodes)
    requires Sound(f, leaves) && key in leaves && key.level < MAX_LEVEL
    ensures SplitInto(f, leaves, key, leaves')
  {
    leaves' := MovePoints(f, leaves - {key}, key, leaves[key]);
    SplitDone(f, leaves, key, leaves');
  }

  /** State of one subdivision round at level `c`: the leaves in `done` have been split. */
  ghost predicate Round(f: Frame, before: Nodes, c: nat, done: set<VoxelKey>, m: Nodes) {
    Sound(f, m) && Total(m) == Total(before) &&
    (forall k :: k in m && k.level <= c ==> k in before && k !in done) &&
    (forall k :: k in before && k !in done ==> k in m && m[k] == before[k]) &&
    (forall k :: k in m && k.level > c ==> k.level == c + 1 && Parent(k).value in done)
  }

  /** Between rounds: leaves no deeper than `c`, none below another, oversized ones all at `c`. */
  ghost predicate Rounded(f: Frame, m: Nodes, c: nat) {
    Sound(f, m) && LiveAbove(m, c) &&
    (forall k :: k in m ==> k.level <= c) &&
    (forall k :: Oversized(m, k) ==> k.level == c)
  }

  lemma RoundStep(f: Frame, before: Nodes, c: nat, done: set<VoxelKey>, m: Nodes, key: VoxelKey, m': Nodes)
    requires Rounded(f, before, c) && Round(f, before, c, done, m)
    requires Oversized(before, key) && key !in done && SplitInto(f, m, key, m')
    ensures Round(f, before, c, done + {key}, m')
  {
    forall k | k in m' && k.level > c
      ensures k.level == c + 1 && Parent(k).value in done + {key}
    {
      if k in m { assert Parent(k).value in done; }
    }
  }

  lemma RoundDone(f: Frame, before: Nodes, c: nat, done: set<VoxelKey>, m: Nodes)
    requires Rounded(f, before, c) && Round(f, before, c, done, m)
    requires forall k :: k in done <==> Oversized(before, k)
    ensures Rounded(f, m, c + 1)
  {
    forall a, b | a in m && b in m && b.level <= c + 1 ensures !StrictlyUnder(b, a) {
      if a.level <= c && b.level == c + 1 {
        var q := Parent(b).value;
        assert q in done && q in before && a in before && a !in done;
        assert AncestorAt(b, a.level) == AncestorAt(q, a.level);
        assert !StrictlyUnder(q, a);
      }
    }
  }

  lemma RoundKeepsUnder(f: Frame, before: Nodes, c: nat, done: set<VoxelKey>, m: Nodes, root: VoxelKey)
    requires Round(f, before, c, done, m) && KeysUnder(before, root) && done <= before.Keys
    requires forall k :: k in done ==> k.level == c
    ensures KeysUnder(m, root)
  {
    forall k | k in m ensures Under(k, root) {
      if k.level > c {
        var q := Parent(k).value;
        assert q in before && Under(q, root);
      }
    }
  }

  /** A round with the oversized leaves of `todo` still to split. */
  ghost predicate Pending(f: Frame, before: Nodes, c: nat, oversized: set<VoxelKey>, todo: set<VoxelKey>, m: Nodes) {
    todo <= oversized && Round(f, before, c, oversized - todo, m)
  }

  lemma PendingStart(f: Frame, m: Nodes, c: nat, oversized: set<VoxelKey>)
    requires Rounded(f, m, c)
    ensures Pending(f, m, c, oversized, oversized, m)
  {
    assert oversized - oversized == {};
  }

  lemma PendingKey(f: Frame, before: Nodes, c: nat, oversized: set<VoxelKey>, todo: set<VoxelKey>, m: Nodes, key: VoxelKey)
    requires Pending(f, before, c, oversized, todo, m) && key in todo && Oversized(before, key)
    ensures Sound(f, m) && key in m
  {
  }

  lemma PendingStep(f: Frame, before: Nodes, c: nat, oversized: set<VoxelKey>, todo: set<VoxelKey>,
                    m: Nodes, key: VoxelKey, m': Nodes)
    requires Rounded(f, before, c) && Pending(f, before, c, oversized, todo, m)
    requires key in todo && Oversized(before, key) && SplitInto(f, m, key, m')
    ensures Pending(f, before, c, oversized, todo - {key}, m')
  {
    RoundStep(f, before, c, oversized - todo, m, key, m');
    assert oversized - (todo - {key}) == (oversized - todo) + {key};
  }

  lemma AllRound(f: Frame, before: Nodes, c: nat, done: set<VoxelKey>, m: Nodes, root: VoxelKey)
    requires Rounded(f, before, c) && Round(f, before, c, done, m) && KeysUnder(before, root)
    requires forall k :: k in done <==> Oversized(before, k)
    ensures Rounded(f, m, c + 1) && Total(m) == Total(before) && KeysUnder(m, root) && SplitFrom(before, m)
  {
    RoundDone(f, before, c, done, m);
    RoundKeepsUnder(f, before, c, done, m, root);
  }

  /** A leaf is deeper than before only below one that was oversized. */
  ghost predicate SplitFrom(before: Nodes, m: Nodes) {
    forall k :: k in m ==> k in before || (k.level > 0 && Oversized(before, Parent(k).value))
  }

  /** Every leaf is at the seeded depth, or below a voxel that does not fit one leaf. */
  ghost predicate SplitAsNeeded(f: Frame, all: multiset<RawPoint>, leafDepth: nat, m: Nodes) {
    forall k :: k in m ==> k.level == leafDepth || (k.level > leafDepth && !FitsLeaf(f, all, Parent(k).value))
  }

  lemma OversizedIsCrowded(f: Frame, m: Nodes, k: VoxelKey)
    requires Sound(f, m) && Oversized(m, k)
    ensures !FitsLeaf(f, Total(m), k)
  {
    TotalContains(m, k);
    assert InVoxel(f, multiset(m[k]), k);
  }

  lemma SplitNeeded(f: Frame, leafDepth: nat, before: Nodes, m: Nodes)
    requires Sound(f, before) && SplitFrom(before, m) && SplitAsNeeded(f, Total(before), leafDepth, before)
    ensures SplitAsNeeded(f, Total(before), leafDepth, m)
  {
    forall k | k in m && k !in before ensures k.level > leafDepth && !FitsLeaf(f, Total(before), Parent(k).value) {
      OversizedIsCrowded(f, before, Parent(k).value);
    }
  }

  /** One round: split every oversized leaf, in any order. */
  method SplitOversized(f: Frame, leaves: Nodes, c: nat, oversized: set<VoxelKey>, ghost root: VoxelKey)
    returns (leaves': Nodes)
    requires Rounded(f, leaves, c) && KeysUnder(leaves, root) && c < MAX_LEVEL
    requires forall k :: k in oversized <==> Oversized(leaves, k)
    ensures Rounded(f, leaves', c + 1) && Total(leaves') == Total(leaves) && KeysUnder(leaves', root)
    ensures SplitFrom(leaves, leaves')
  {
    leaves' := leaves;
    var todo := oversized;
    PendingStart(f, leaves, c, oversized);
    while todo != {}
      invariant Pending(f, leaves, c, oversized, todo, leaves')
      decreases todo
    {
      var key :| key in todo;
      assert key in oversized;
      PendingKey(f, leaves, c, oversized, todo, leaves', key);
      assert Oversized(leaves, key) && key.level == c;
      var next := SplitLeaf(f, leaves', key);
      PendingStep(f, leaves, c, oversized, todo, leaves', key, next);
      leaves', todo := next, todo - {key};
    }
    assert oversized - todo == oversized;
    AllRound(f, leaves, c, oversized, leaves', root);
  }

  /** Adaptive leaf subdivision. On exit a leaf above MAX_LEAF_POINTS sits at the depth cap or deeper,
      and a leaf below the seeded depth lies in a voxel that does not fit one leaf. */
  method Subdivide(f: Frame, leaves0: Nodes, leafDepth: nat, ghost root: VoxelKey)
    returns (leaves: Nodes, maxDepth: nat)
    requires Sound(f, leaves0) && KeysUnder(leaves0, root)
    requires forall k :: k in leaves0 ==> k.level == leafDepth
    ensures Rounded(f, leaves, maxDepth) && leafDepth <= maxDepth && (maxDepth == leafDepth || maxDepth <= CHUNK_DEPTH_CAP)
    ensures Total(leaves) == Total(leaves0) && KeysUnder(leaves, root)
    ensures forall k :: Oversized(leaves, k) ==> k.level >= CHUNK_DEPTH_CAP
    ensures SplitAsNeeded(f, Total(leaves0), leafDepth, leaves)
  {
    leaves, maxDepth := leaves0, leafDepth;
    while true
      invariant Rounded(f, leaves, maxDepth) && leafDepth <= maxDepth && (maxDepth == leafDepth || maxDepth <= CHUNK_DEPTH_CAP)
      invariant Total(leaves) == Total(leaves0) && KeysUnder(leaves, root)
      invariant SplitAsNeeded(f, Total(leaves0), leafDepth, leaves)
      decreases CHUNK_DEPTH_CAP - maxDepth
    {
      var oversized := set k | k in leaves && |leaves[k]| > MAX_LEAF_POINTS;
      if oversized == {} {
        assert forall k :: Oversized(leaves, k) ==> k in oversized;
        return;
      }
      if exists k :: k in oversized && k.level >= CHUNK_DEPTH_CAP {
        return;
      }
      var key :| key in oversized;
      assert Oversized(leaves, key) && key.level < CHUNK_DEPTH_CAP;
      var next := SplitOversized(f, leaves, maxDepth, oversized, root);
      SplitNeeded(f, leafDepth, leaves, next);
      leaves, maxDepth := next, maxDepth + 1;
    }
  }

  /** Where subdivision stops. */
  lemma SubdividedLeaves(f: Frame, leaves: Nodes, depth: nat)
    requires Rounded(f, leaves, depth) && forall k :: Oversized(leaves, k) ==> k.level >= CHUNK_DEPTH_CAP
    ensures LeavesOf(f, Total(leaves), leaves)
  {
    forall a, b | a in leaves.Keys && b in leaves.Keys && Under(a, b) ensures a == b {
      assert !StrictlyUnder(a, b);
    }
    forall k | k in leaves ensures |leaves[k]| <= MAX_LEAF_POINTS || k.level >= CHUNK_DEPTH_CAP {
      assert |leaves[k]| > MAX_LEAF_POINTS ==> Oversized(leaves, k);
    }
  }

  /** `finish_subtree`. */
  method FinishSubtree(f: Frame, root: VoxelKey, leaves0: Nodes, leafDepth: nat, store: NodeStore,
                       ghost all: multiset<RawPoint>, ghost cap: nat)
    returns (counts: map<VoxelKey, nat>, ghost built: Nodes)
    requires Sound(f, leaves0) && KeysUnder(leaves0, root) && Total(leaves0) <= all && |Total(leaves0)| <= cap
    requires root.level <= leafDepth <= MAX_LEVEL && forall k :: k in leaves0 ==> k.level == leafDepth
    modifies store
    ensures Finished(f, all, root, Total(leaves0), built) && Bounded(built, cap)
    ensures store.contents == old(store.contents) + built
    ensures counts == map k | k in built :: |built[k]|
  {
    if leaves0 == map[] {
      counts, built := map[], map[];
      NothingGrown(f, {root}, built);
      return;
    }
    var leaves, maxDepth := Subdivide(f, leaves0, leafDepth, root);
    SubdividedLeaves(f, leaves, maxDepth);
    counts, built := BottomUpLevels(f, leaves, maxDepth, store, root, all, cap);
  }

  /** Budgeted bytes of one point during an in-memory build. */
  const BYTES_PER_POINT_BUILD: nat := 600

  /** A build of `n` points stays within the budget; a single point always may be built. */
  ghost predicate WithinBudget(n: nat, chunkBudget: nat) {
    n * BYTES_PER_POINT_BUILD <= chunkBudget || n <= 1
  }

  /** `build_subtree_in_memory` and `build_subtree_from_points`: the first seeds the leaf depth
      with the counted points of the chunk file, the second with the length of the vector. What is
      built in memory fits the chunk's budget, unless it lies at the deepest level a chunk is split. */
  method BuildSubtree(f: Frame, root: VoxelKey, points: seq<RawPoint>, estPoints: nat, store: NodeStore,
                      ghost all: multiset<RawPoint>, ghost cap: nat, ghost chunkBudget: nat, ghost deepest: nat)
    returns (counts: map<VoxelKey, nat>, ghost built: Nodes)
    requires AllIn(f, points, root) && multiset(points) <= all && |points| <= cap && LevelRoom(root.level, estPoints)
    requires root.level == deepest || WithinBudget(|points|, chunkBudget)
    modifies store
    ensures Finished(f, all, root, multiset(points), built) && Bounded(built, cap)
    ensures store.contents == old(store.contents) + built
    ensures counts == map k | k in built :: |built[k]|
  {
    var extra := ExtraLevels(estPoints);
    LevelRoomExact(root.level, estPoints, extra);
    var leaves := CollectLeaves(f, points, root.level + extra);
    LeavesUnderRoot(f, leaves, root);
    counts, built := FinishSubtree(f, root, leaves, root.level + extra, store, all, cap);
  }
}
