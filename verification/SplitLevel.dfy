/** `choose_split_level` of src/octree.rs: one counting pass at the deepest candidate level,
    rolled up by right shifts, to find the shallowest level whose densest sub-octant fits. */
module SplitLevel {
  import opened Voxel
  import opened Points
  import opened NodeMap

  /** Extra depth probed below the chunk root. */
  const SPILL_DEPTH_CAP: nat := 12

  function CountOf(c: Counts, k: VoxelKey): nat {
    if k in c then c[k] else 0
  }

  /** Number of points in a voxel, counted directly. */
  function CountIn(f: Frame, pts: seq<RawPoint>, k: VoxelKey): nat {
    if pts == [] then 0
    else
      var n := |pts| - 1;
      CountIn(f, pts[..n], k) + (if KeyAt(f, pts[n], k.level) == k then 1 else 0)
  }

  lemma CountInSnoc(f: Frame, pts: seq<RawPoint>, p: RawPoint, k: VoxelKey)
    ensures CountIn(f, pts + [p], k) == CountIn(f, pts, k) + (if KeyAt(f, p, k.level) == k then 1 else 0)
  {
    assert (pts + [p])[..|pts|] == pts;
  }

  /** The map holds the direct count of every populated voxel of one level, and nothing else. */
  ghost predicate TallyAt(f: Frame, pts: seq<RawPoint>, level: nat, c: Counts) {
    (forall k :: k in c ==> k.level == level && c[k] > 0) &&
    (forall k: VoxelKey :: k.level == level ==> CountOf(c, k) == CountIn(f, pts, k))
  }

  lemma TallySnoc(f: Frame, pts: seq<RawPoint>, level: nat, c: Counts, p: RawPoint, key: VoxelKey)
    requires TallyAt(f, pts, level, c) && key == KeyAt(f, p, level)
    ensures TallyAt(f, pts + [p], level, c[key := CountOf(c, key) + 1])
  {
    forall k: VoxelKey | k.level == level
      ensures CountOf(c[key := CountOf(c, key) + 1], k) == CountIn(f, pts + [p], k)
    {
      CountInSnoc(f, pts, p, k);
    }
  }

  method Tally(f: Frame, pts: seq<RawPoint>, level: nat) returns (c: Counts)
    requires level <= MAX_LEVEL
    ensures TallyAt(f, pts, level, c)
  {
    c := map[];
    assert pts[..0] == [];
    for i := 0 to |pts|
      invariant TallyAt(f, pts[..i], level, c)
    {
      var key := Classify(f, pts[i], level);
      TallySnoc(f, pts[..i], level, c, pts[i], key);
      assert pts[..i + 1] == pts[..i] + [pts[i]];
      c := c[key := CountOf(c, key) + 1];
    }
    assert pts[..|pts|] == pts;
  }

  /** Points of voxel `a` whose deep key lies in `keys`. */
  ghost function CountVia(f: Frame, pts: seq<RawPoint>, deepest: nat, keys: set<VoxelKey>, a: VoxelKey): nat
    requires a.level <= deepest
  {
    if pts == [] then 0
    else
      var n := |pts| - 1;
      var k := KeyAt(f, pts[n], deepest);
      CountVia(f, pts[..n], deepest, keys, a) + (if k in keys && Shifted(k, a.level) == a then 1 else 0)
  }

  lemma {:induction false} CountViaAdd(f: Frame, pts: seq<RawPoint>, deepest: nat, keys: set<VoxelKey>, k: VoxelKey, a: VoxelKey)
    requires a.level <= deepest == k.level && k !in keys
    ensures CountVia(f, pts, deepest, keys + {k}, a) ==
            CountVia(f, pts, deepest, keys, a) + (if Shifted(k, a.level) == a then CountIn(f, pts, k) else 0)
  {
    if pts != [] {
      CountViaAdd(f, pts[..|pts| - 1], deepest, keys, k, a);
    }
  }

  lemma {:induction false} CountViaNone(f: Frame, pts: seq<RawPoint>, deepest: nat, a: VoxelKey)
    requires a.level <= deepest
    ensures CountVia(f, pts, deepest, {}, a) == 0
  {
    if pts != [] {
      CountViaNone(f, pts[..|pts| - 1], deepest, a);
    }
  }

  /** Rolling up every deep key counts every point of the voxel. */
  lemma {:induction false} CountViaAll(f: Frame, pts: seq<RawPoint>, deepest: nat, keys: set<VoxelKey>, a: VoxelKey)
    requires a.level <= deepest
    requires forall k: VoxelKey :: k.level == deepest && CountIn(f, pts, k) > 0 ==> k in keys
    ensures CountVia(f, pts, deepest, keys, a) == CountIn(f, pts, a)
  {
    if pts != [] {
      var n := |pts| - 1;
      assert CountIn(f, pts, KeyAt(f, pts[n], deepest)) > 0;
      DescentRefinesByShift(f, pts[n], a.level, deepest);
      CountViaAll(f, pts[..n], deepest, keys, a);
    }
  }

  /** Progress of rolling the deep counts of `done` up to a level. */
  ghost predicate RolledUp(f: Frame, pts: seq<RawPoint>, deepest: nat, level: nat, done: set<VoxelKey>, c: Counts)
    requires level <= deepest
  {
    (forall k :: k in c ==> k.level == level && c[k] > 0) &&
    (forall a: VoxelKey :: a.level == level ==> CountOf(c, a) == CountVia(f, pts, deepest, done, a))
  }

  lemma RollUpCount(f: Frame, pts: seq<RawPoint>, deepest: nat, level: nat, done: set<VoxelKey>, c: Counts,
                    k: VoxelKey, n: nat, a: VoxelKey)
    requires a.level == level <= deepest == k.level && k !in done && n == CountIn(f, pts, k)
    requires CountOf(c, a) == CountVia(f, pts, deepest, done, a)
    ensures var anc := Shifted(k, level);
            CountOf(c[anc := CountOf(c, anc) + n], a) == CountVia(f, pts, deepest, done + {k}, a)
  {
    CountViaAdd(f, pts, deepest, done, k, a);
  }

  lemma RollUpStep(f: Frame, pts: seq<RawPoint>, deepest: nat, level: nat, done: set<VoxelKey>, c: Counts,
                   k: VoxelKey, n: nat, anc: VoxelKey)
    requires level <= deepest == k.level && k !in done && RolledUp(f, pts, deepest, level, done, c)
    requires n == CountIn(f, pts, k) && n > 0 && anc == Shifted(k, level)
    ensures RolledUp(f, pts, deepest, level, done + {k}, c[anc := CountOf(c, anc) + n])
  {
    forall a: VoxelKey | a.level == level
      ensures CountOf(c[anc := CountOf(c, anc) + n], a) == CountVia(f, pts, deepest, done + {k}, a)
    {
      RollUpCount(f, pts, deepest, level, done, c, k, n, a);
    }
  }

  lemma RollUpStart(f: Frame, pts: seq<RawPoint>, deepest: nat, level: nat, done: set<VoxelKey>)
    requires level <= deepest && done == {}
    ensures RolledUp(f, pts, deepest, level, done, map[])
  {
    forall a: VoxelKey | a.level == level ensures CountVia(f, pts, deepest, {}, a) == 0 {
      CountViaNone(f, pts, deepest, a);
    }
  }

  lemma RollUpDone(f: Frame, pts: seq<RawPoint>, deepest: nat, level: nat, deep: Counts, c: Counts)
    requires level <= deepest && TallyAt(f, pts, deepest, deep)
    requires RolledUp(f, pts, deepest, level, deep.Keys, c)
    ensures TallyAt(f, pts, level, c)
  {
    forall k: VoxelKey | k.level == deepest && CountIn(f, pts, k) > 0 ensures k in deep.Keys {
      assert CountOf(deep, k) == CountIn(f, pts, k);
    }
    forall a: VoxelKey | a.level == level ensures CountOf(c, a) == CountIn(f, pts, a) {
      CountViaAll(f, pts, deepest, deep.Keys, a);
    }
  }

  lemma TallyEntry(f: Frame, pts: seq<RawPoint>, level: nat, c: Counts, k: VoxelKey)
    requires TallyAt(f, pts, level, c) && k in c
    ensures k.level == level && c[k] == CountIn(f, pts, k) > 0
  {
    assert CountOf(c, k) == CountIn(f, pts, k);
  }

  /** Rolling up the deep counts `deep`, with the keys `todo` still to visit. */
  ghost predicate Rolling(f: Frame, pts: seq<RawPoint>, deepest: nat, level: nat, deep: Counts, todo: set<VoxelKey>, c: Counts)
    requires level <= deepest
  {
    todo <= deep.Keys && RolledUp(f, pts, deepest, level, deep.Keys - todo, c)
  }

  lemma RollingStep(f: Frame, pts: seq<RawPoint>, deepest: nat, level: nat, deep: Counts, todo: set<VoxelKey>,
                    c: Counts, k: VoxelKey)
    requires level <= deepest && TallyAt(f, pts, deepest, deep) && Rolling(f, pts, deepest, level, deep, todo, c)
    requires k in todo
    ensures k.level == deepest && k in deep
    ensures var a := Shifted(k, level);
            Rolling(f, pts, deepest, level, deep, todo - {k}, c[a := CountOf(c, a) + deep[k]])
  {
    TallyEntry(f, pts, deepest, deep, k);
    RollUpStep(f, pts, deepest, level, deep.Keys - todo, c, k, deep[k], Shifted(k, level));
    assert deep.Keys - (todo - {k}) == (deep.Keys - todo) + {k};
  }

  lemma RollingEnds(f: Frame, pts: seq<RawPoint>, deepest: nat, level: nat, deep: Counts, c: Counts)
    requires level <= deepest && TallyAt(f, pts, deepest, deep) && Rolling(f, pts, deepest, level, deep, {}, c)
    ensures TallyAt(f, pts, level, c)
  {
    assert deep.Keys - {} == deep.Keys;
    RollUpDone(f, pts, deepest, level, deep, c);
  }

  lemma RollingStart(f: Frame, pts: seq<RawPoint>, deepest: nat, level: nat, deep: Counts)
    requires level <= deepest
    ensures Rolling(f, pts, deepest, level, deep, deep.Keys, map[])
  {
    RollUpStart(f, pts, deepest, level, deep.Keys - deep.Keys);
  }

  /** Roll the deep counts up to a shallower level, visiting them in any order. */
  method RollUp(f: Frame, ghost pts: seq<RawPoint>, deep: Counts, deepest: nat, level: nat) returns (c: Counts)
    requires level <= deepest && TallyAt(f, pts, deepest, deep)
    ensures TallyAt(f, pts, level, c)
  {
    c := map[];
    var todo := deep.Keys;
    RollingStart(f, pts, deepest, level, deep);
    while todo != {}
      invariant Rolling(f, pts, deepest, level, deep, todo, c)
      decreases todo
    {
      var k :| k in todo;
      RollingStep(f, pts, deepest, level, deep, todo, c, k);
      var a := Shifted(k, level);
      c, todo := c[a := CountOf(c, a) + deep[k]], todo - {k};
    }
    RollingEnds(f, pts, deepest, level, deep, c);
  }

  /** No voxel of the level holds more than `n` points. */
  ghost predicate LevelFits(f: Frame, pts: seq<RawPoint>, level: nat, n: nat) {
    forall k: VoxelKey :: k.level == level ==> CountIn(f, pts, k) <= n
  }

  /** `d` is the largest population of a voxel of the level. */
  ghost predicate IsDensest(f: Frame, pts: seq<RawPoint>, level: nat, d: nat) {
    LevelFits(f, pts, level, d) && exists k: VoxelKey :: k.level == level && CountIn(f, pts, k) == d
  }

  method Densest(f: Frame, ghost pts: seq<RawPoint>, level: nat, c: Counts) returns (d: nat)
    requires TallyAt(f, pts, level, c) && c != map[]
    ensures IsDensest(f, pts, level, d)
  {
    var todo := c.Keys;
    var k0 :| k0 in todo;
    d := c[k0];
    ghost var top := k0;
    while todo != {}
      invariant todo <= c.Keys && top in c && c[top] == d
      invariant forall k :: k in c && k !in todo ==> c[k] <= d
      decreases todo
    {
      var k :| k in todo;
      if c[k] > d {
        d, top := c[k], k;
      }
      todo := todo - {k};
    }
    assert CountIn(f, pts, top) == d;
    forall k: VoxelKey | k.level == level ensures CountIn(f, pts, k) <= d {
      assert CountOf(c, k) == CountIn(f, pts, k);
    }
  }

  lemma {:induction false} CountInParent(f: Frame, pts: seq<RawPoint>, k: VoxelKey)
    requires k.level > 0
    ensures CountIn(f, pts, k) <= CountIn(f, pts, Parent(k).value)
  {
    if pts != [] {
      var n := |pts| - 1;
      CountInParent(f, pts[..n], k);
      ParentOfDescent(f, pts[n], k.level);
    }
  }

  /** The densest count never increases with depth. */
  lemma DeeperIsSparser(f: Frame, pts: seq<RawPoint>, level: nat, d: nat, deeper: nat)
    requires IsDensest(f, pts, level, d) && IsDensest(f, pts, level + 1, deeper)
    ensures deeper <= d
  {
    var k: VoxelKey :| k.level == level + 1 && CountIn(f, pts, k) == deeper;
    CountInParent(f, pts, k);
  }

  /** The chosen level is the shallowest probed one that fits, or the deepest one. */
  ghost predicate Chosen(f: Frame, pts: seq<RawPoint>, rootLevel: nat, maxPoints: nat, level: nat) {
    rootLevel < level <= rootLevel + SPILL_DEPTH_CAP &&
    (forall l :: rootLevel < l < level ==> !LevelFits(f, pts, l, maxPoints)) &&
    (level < rootLevel + SPILL_DEPTH_CAP ==> LevelFits(f, pts, level, maxPoints))
  }

  method ChooseSplitLevel(f: Frame, pts: seq<RawPoint>, rootLevel: nat, maxPoints: nat) returns (level: nat, densest: nat)
    requires rootLevel + SPILL_DEPTH_CAP <= MAX_LEVEL
    ensures Chosen(f, pts, rootLevel, maxPoints, level)
    ensures pts != [] ==> IsDensest(f, pts, level, densest)
    ensures pts == [] ==> densest == 0 && level == rootLevel + 1
  {
    var deepest := rootLevel + SPILL_DEPTH_CAP;
    var deep := Tally(f, pts, deepest);
    if pts != [] {
      TallyOfNonEmpty(f, pts, deepest, deep);
    }
    if deep == map[] {
      return rootLevel + 1, 0;
    }
    NonEmptyTally(f, pts, deepest, deep);
    level, densest := rootLevel, 0;
    var s := 1;
    while s <= SPILL_DEPTH_CAP
      invariant 1 <= s <= SPILL_DEPTH_CAP + 1 && level == rootLevel + s - 1
      invariant forall l :: rootLevel < l < rootLevel + s ==> !LevelFits(f, pts, l, maxPoints)
      invariant s > 1 ==> IsDensest(f, pts, level, densest)
    {
      level := rootLevel + s;
      var counts := RollUp(f, pts, deep, deepest, level);
      TallyOfNonEmpty(f, pts, level, counts);
      densest := Densest(f, pts, level, counts);
      if densest <= maxPoints {
        return;
      }
      s := s + 1;
    }
  }

  lemma NonEmptyTally(f: Frame, pts: seq<RawPoint>, level: nat, c: Counts)
    requires TallyAt(f, pts, level, c) && c != map[]
    ensures pts != []
  {
    var k :| k in c;
    assert CountOf(c, k) == CountIn(f, pts, k) > 0;
  }

  lemma TallyOfNonEmpty(f: Frame, pts: seq<RawPoint>, level: nat, c: Counts)
    requires TallyAt(f, pts, level, c) && pts != []
    ensures c != map[]
  {
    var k := KeyAt(f, pts[|pts| - 1], level);
    assert CountIn(f, pts, k) > 0;
    assert CountOf(c, k) > 0;
  }
}
