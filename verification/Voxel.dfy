/** Octree node keys (src/copc_types.rs) and the ancestor relation between them. */
module Voxel {
  import opened Arith

  datatype Option<+T> = None | Some(value: T)

  /** A node of the octree; level 0 is the root. */
  datatype VoxelKey = VoxelKey(level: nat, x: nat, y: nat, z: nat)

  const ROOT := VoxelKey(0, 0, 0, 0)

  function Parent(k: VoxelKey): Option<VoxelKey> {
    if k.level == 0 then None
    else Some(VoxelKey(k.level - 1, k.x / 2, k.y / 2, k.z / 2))
  }

  /** The ancestor reached by taking the parent `k.level - level` times. */
  function AncestorAt(k: VoxelKey, level: nat): (a: VoxelKey)
    requires level <= k.level
    ensures a.level == level
    decreases k.level
  {
    if k.level == level then k else AncestorAt(Parent(k).value, level)
  }

  /** `k` is `r` or a descendant of `r`. */
  predicate Under(k: VoxelKey, r: VoxelKey) {
    r.level <= k.level && AncestorAt(k, r.level) == r
  }

  predicate StrictlyUnder(k: VoxelKey, r: VoxelKey) {
    r.level < k.level && Under(k, r)
  }

  /** No key of the set lies below another one. */
  ghost predicate Antichain(s: set<VoxelKey>) {
    forall a, b :: a in s && b in s && Under(a, b) ==> a == b
  }

  /** `k` lies in one of the voxels. */
  ghost predicate InRegions(regions: set<VoxelKey>, k: VoxelKey) {
    exists r :: r in regions && Under(k, r)
  }

  /** Coordinates that a cube subdivided `k.level` times can produce. */
  predicate InRange(k: VoxelKey) {
    k.x < Pow2(k.level) && k.y < Pow2(k.level) && k.z < Pow2(k.level)
  }

  lemma {:induction false} AncestorCompose(k: VoxelKey, mid: nat, top: nat)
    requires top <= mid <= k.level
    ensures AncestorAt(AncestorAt(k, mid), top) == AncestorAt(k, top)
    decreases k.level
  {
    if mid < k.level {
      AncestorCompose(Parent(k).value, mid, top);
    }
  }

  lemma UnderTransitive(a: VoxelKey, b: VoxelKey, c: VoxelKey)
    requires Under(a, b) && Under(b, c)
    ensures Under(a, c)
  {
    AncestorCompose(a, b.level, c.level);
  }

  /** Two ancestors of the same key are comparable: the deeper is below the shallower. */
  lemma AncestorsComparable(k: VoxelKey, a: VoxelKey, b: VoxelKey)
    requires Under(k, a) && Under(k, b) && b.level <= a.level
    ensures Under(a, b)
  {
    AncestorCompose(k, a.level, b.level);
  }

  /** `r` is neither above nor below a region of `done`. */
  ghost predicate Apart(done: set<VoxelKey>, r: VoxelKey) {
    forall d :: d in done ==> !Under(d, r) && !Under(r, d)
  }

  lemma ApartKeys(done: set<VoxelKey>, r: VoxelKey, k: VoxelKey)
    requires Apart(done, r) && Under(k, r)
    ensures !InRegions(done, k)
  {
    forall d | d in done ensures !Under(k, d) {
      if Under(k, d) {
        if d.level <= r.level { AncestorsComparable(k, r, d); } else { AncestorsComparable(k, d, r); }
      }
    }
  }

  lemma RegionsPlusOne(done: set<VoxelKey>, r: VoxelKey, k: VoxelKey)
    ensures InRegions(done + {r}, k) <==> InRegions(done, k) || Under(k, r)
  {
    if InRegions(done, k) {
      var d :| d in done && Under(k, d);
      assert d in done + {r};
    }
    if Under(k, r) {
      assert r in done + {r};
    }
  }

  /** The child of `k` on the path down to `r`. */
  lemma ChildTowards(r: VoxelKey, k: VoxelKey) returns (c: VoxelKey)
    requires StrictlyUnder(r, k)
    ensures c.level == k.level + 1 && Parent(c) == Some(k) && Under(r, c)
  {
    c := AncestorAt(r, k.level + 1);
    AncestorsComparable(r, c, k);
    assert AncestorAt(c, k.level) == AncestorAt(Parent(c).value, k.level);
  }

  /** The key obtained by `>> (k.level - level)` on each coordinate. */
  function Shifted(k: VoxelKey, level: nat): VoxelKey
    requires level <= k.level
  {
    var shift := k.level - level;
    VoxelKey(level, Shr(k.x, shift), Shr(k.y, shift), Shr(k.z, shift))
  }

  /** Right-shifting the coordinates reaches the same ancestor as repeated halving. */
  lemma {:induction false} AncestorByShift(k: VoxelKey, level: nat)
    requires level <= k.level
    ensures AncestorAt(k, level) == Shifted(k, level)
    decreases k.level
  {
    if level < k.level {
      var shift := k.level - 1 - level;
      AncestorByShift(Parent(k).value, level);
      ShrStep(k.x, shift);
      ShrStep(k.y, shift);
      ShrStep(k.z, shift);
    }
  }

  lemma {:induction false} InRangeUnderRoot(k: VoxelKey)
    requires InRange(k)
    ensures Under(k, ROOT)
    decreases k.level
  {
    if k.level > 0 {
      InRangeUnderRoot(Parent(k).value);
    }
  }

  /** The loop of `ancestor_at_level`. */
  method AncestorAtLevel(key: VoxelKey, level: nat) returns (k: VoxelKey)
    requires level <= key.level
    ensures k == AncestorAt(key, level)
  {
    k := key;
    while k.level > level
      invariant level <= k.level
      invariant AncestorAt(k, level) == AncestorAt(key, level)
    {
      k := Parent(k).value;
    }
  }
}
