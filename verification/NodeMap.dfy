/** Facts about a map from node keys to their points: the multiset of all stored points,
    placement, and the leaf-capacity notions used by the build. */
module NodeMap {
  import opened Voxel
  import opened Points
  import opened Buckets

  type Nodes = map<VoxelKey, seq<RawPoint>>

  /** Numbers of points per key. */
  type Counts = map<VoxelKey, nat>

  /** Maximum points per leaf voxel. */
  const MAX_LEAF_POINTS: nat := 100_000

  /** Depth at which subdivision gives up. */
  const CHUNK_DEPTH_CAP: nat := 20

  /** A node that was never written reads as empty. */
  function Get(m: Nodes, k: VoxelKey): seq<RawPoint> {
    if k in m then m[k] else []
  }

  predicate Populated(m: Nodes, k: VoxelKey) {
    Get(m, k) != []
  }

  /** All stored points. */
  ghost function Total(m: Nodes): multiset<RawPoint> {
    Pooled(m)
  }

  lemma TotalRemove(m: Nodes, k: VoxelKey)
    requires k in m
    ensures Total(m) == multiset(m[k]) + Total(m - {k})
  {
    PooledRemove(m, k);
  }

  /** Overwriting a node trades its old points for the new ones. */
  lemma TotalPut(m: Nodes, k: VoxelKey, v: seq<RawPoint>)
    ensures Total(m[k := v]) + multiset(Get(m, k)) == Total(m) + multiset(v)
  {
    var m' := m[k := v];
    TotalRemove(m', k);
    if k in m {
      TotalRemove(m, k);
      assert m' - {k} == m - {k};
    } else {
      assert m' - {k} == m;
    }
  }

  lemma TotalInsert(m: Nodes, k: VoxelKey, v: seq<RawPoint>)
    requires k !in m
    ensures Total(m[k := v]) == Total(m) + multiset(v)
  {
    TotalPut(m, k, v);
  }

  lemma TotalContains(m: Nodes, k: VoxelKey)
    ensures multiset(Get(m, k)) <= Total(m)
  {
    if k in m {
      TotalRemove(m, k);
    }
  }

  /** Adding nodes where nothing is stored adds exactly their points. */
  lemma {:induction false} TotalUnion(a: Nodes, b: Nodes)
    requires forall k :: k in b ==> !Populated(a, k)
    ensures Total(a + b) == Total(a) + Total(b)
    decreases |b|
  {
    if b == map[] {
      assert a + b == a;
    } else {
      var k :| k in b;
      TotalUnion(a, b - {k});
      UnionStep(a, b, k);
    }
  }

  lemma UnionStep(a: Nodes, b: Nodes, k: VoxelKey)
    requires k in b && !Populated(a, k)
    requires Total(a + (b - {k})) == Total(a) + Total(b - {k})
    ensures Total(a + b) == Total(a) + Total(b)
  {
    TotalRemove(b, k);
    UnionByPut(a, b, k);
    TotalPut(a + (b - {k}), k, b[k]);
    var t := Total(b - {k});
    assert Total(a + b) == Total(a) + t + multiset(b[k]);
  }

  lemma UnionByPut(a: Nodes, b: Nodes, k: VoxelKey)
    requires k in b
    ensures a + b == (a + (b - {k}))[k := b[k]]
    ensures Get(a + (b - {k}), k) == Get(a, k)
  {
    assert k !in b - {k};
  }

  /** Nodes shallow and small enough for the words that describe them. */
  ghost predicate Bounded(m: Nodes, cap: nat) {
    forall k :: k in m ==> k.level <= MAX_LEVEL && |m[k]| <= cap
  }

  lemma TotalTake(m: Nodes, k: VoxelKey)
    ensures Total(m) == Total(m - {k}) + multiset(Get(m, k))
  {
    if k in m {
      TotalRemove(m, k);
    } else {
      assert m - {k} == m;
    }
  }

  ghost predicate ReadsAlike(a: Nodes, b: Nodes) {
    forall k :: Get(a, k) == Get(b, k)
  }

  /** The stored points depend only on what every key reads as. */
  lemma TotalByGet(a: Nodes, b: Nodes)
    requires ReadsAlike(a, b)
    ensures Total(a) == Total(b)
  {
    TotalByGetOn(a, b, a.Keys + b.Keys);
  }

  lemma {:induction false} TotalByGetOn(a: Nodes, b: Nodes, keys: set<VoxelKey>)
    requires ReadsAlike(a, b) && a.Keys <= keys && b.Keys <= keys
    ensures Total(a) == Total(b)
    decreases |keys|
  {
    if keys == {} {
      assert a == map[] && b == map[];
    } else {
      var k :| k in keys;
      ReadsAlikeWithout(a, b, k);
      TotalByGetOn(a - {k}, b - {k}, keys - {k});
      assert Get(a, k) == Get(b, k);
      TotalTake(a, k);
      TotalTake(b, k);
    }
  }

  lemma ReadsAlikeWithout(a: Nodes, b: Nodes, k: VoxelKey)
    requires ReadsAlike(a, b)
    ensures ReadsAlike(a - {k}, b - {k})
  {
    forall j ensures Get(a - {k}, j) == Get(b - {k}, j) {
      assert Get(a, j) == Get(b, j);
    }
  }

  lemma {:induction false} TotalWitness(m: Nodes, p: RawPoint) returns (k: VoxelKey)
    requires p in Total(m)
    ensures Populated(m, k) && p in m[k]
    decreases |m|
  {
    k :| k in m;
    TotalRemove(m, k);
    if p !in m[k] {
      k := TotalWitness(m - {k}, p);
    }
  }

  /** Every point of a node belongs to that node's voxel. */
  ghost predicate Placed(f: Frame, m: Nodes) {
    forall k, p :: k in m && p in m[k] ==> KeyAt(f, p, k.level) == k
  }

  /** Every point of the sequence lies in the voxel. */
  ghost predicate AllIn(f: Frame, pts: seq<RawPoint>, v: VoxelKey) {
    forall p :: p in pts ==> KeyAt(f, p, v.level) == v
  }

  ghost predicate InVoxel(f: Frame, s: multiset<RawPoint>, v: VoxelKey) {
    forall p :: p in s ==> KeyAt(f, p, v.level) == v
  }

  /** Among the points `all`, at most one leaf's worth lies in the voxel. */
  ghost predicate FitsLeaf(f: Frame, all: multiset<RawPoint>, v: VoxelKey) {
    forall s: multiset<RawPoint> :: s <= all && InVoxel(f, s, v) ==> |s| <= MAX_LEAF_POINTS
  }

  lemma FitsLeafBelow(f: Frame, all: multiset<RawPoint>, v: VoxelKey, below: VoxelKey)
    requires FitsLeaf(f, all, v) && Under(below, v)
    ensures FitsLeaf(f, all, below)
  {
    forall s: multiset<RawPoint> | s <= all && InVoxel(f, s, below)
      ensures |s| <= MAX_LEAF_POINTS
    {
      forall p | p in s ensures KeyAt(f, p, v.level) == v {
        DescentRefines(f, p, v.level, below.level);
      }
      assert InVoxel(f, s, v);
    }
  }

  /** A voxel whose points fit one leaf is not subdivided: nothing is stored below it. */
  ghost predicate Dense(f: Frame, all: multiset<RawPoint>, m: Nodes, v: VoxelKey) {
    FitsLeaf(f, all, v) ==> forall k :: StrictlyUnder(k, v) ==> !Populated(m, k)
  }
}
