/** Records grouped by voxel: the multiset of all of them. */
module Buckets {
  import opened Voxel

  ghost function Pooled<T>(m: map<VoxelKey, seq<T>>): multiset<T>
    decreases |m|
  {
    if m == map[] then multiset{}
    else
      var k :| k in m;
      multiset(m[k]) + Pooled(m - {k})
  }

  lemma {:induction false} PooledRemove<T>(m: map<VoxelKey, seq<T>>, k: VoxelKey)
    requires k in m
    ensures Pooled(m) == multiset(m[k]) + Pooled(m - {k})
    decreases |m|
  {
    var j :| j in m && Pooled(m) == multiset(m[j]) + Pooled(m - {j});
    if j != k {
      PooledRemove(m - {j}, k);
      PooledRemove(m - {k}, j);
      assert m - {j} - {k} == m - {k} - {j};
    }
  }

  function Bucket<T>(m: map<VoxelKey, seq<T>>, k: VoxelKey): seq<T> {
    if k in m then m[k] else []
  }

  /** Adding one record to its group, creating the group on first use. */
  lemma PooledPush<T>(m: map<VoxelKey, seq<T>>, k: VoxelKey, x: T)
    ensures Pooled(m[k := Bucket(m, k) + [x]]) == Pooled(m) + multiset{x}
  {
    var b := Bucket(m, k);
    var rest := PooledAround(m, k, b + [x]);
    assert multiset(b + [x]) == multiset(b) + multiset{x};
    PushShuffle(multiset(b), rest, x);
  }

  /** The pool around one group, with and without it. */
  lemma PooledAround<T>(m: map<VoxelKey, seq<T>>, k: VoxelKey, v: seq<T>) returns (rest: multiset<T>)
    ensures Pooled(m[k := v]) == multiset(v) + rest && Pooled(m) == multiset(Bucket(m, k)) + rest
  {
    rest := Pooled(m[k := v] - {k});
    PooledRemove(m[k := v], k);
    if k in m {
      PooledRemove(m, k);
      assert m[k := v] - {k} == m - {k};
    } else {
      assert m[k := v] - {k} == m;
    }
  }

  lemma PushShuffle<T>(a: multiset<T>, b: multiset<T>, x: T)
    ensures (a + multiset{x}) + b == (a + b) + multiset{x}
  {
  }
}
