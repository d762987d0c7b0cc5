/** Page boundaries every three levels (`choose_page_boundaries` of src/writer.rs), and how many
    distinct keys a page between two boundaries can name. */
module PageShape {
  import opened Arith
  import opened Voxel
  import opened Levels
  import opened SubSplit

  /** Level of the subtree roots of pages at a nesting depth. */
  function RootLevel(bi: nat): nat { 3 * bi }

  ghost predicate BoundariesFor(boundaries: seq<nat>, maxLevel: nat) {
    (forall i :: 0 <= i < |boundaries| ==> boundaries[i] == RootLevel(i + 1) && boundaries[i] < maxLevel) &&
    maxLevel <= RootLevel(|boundaries| + 1)
  }

  /** `choose_page_boundaries`: levels 3, 6, 9, … below the deepest level. The last branch of the
      source never runs. */
  method ChoosePageBoundaries(maxLevel: nat) returns (boundaries: seq<nat>)
    ensures BoundariesFor(boundaries, maxLevel)
  {
    boundaries := [];
    var l := 3;
    while l < maxLevel
      invariant l == RootLevel(|boundaries| + 1)
      invariant forall i :: 0 <= i < |boundaries| ==> boundaries[i] == RootLevel(i + 1) && boundaries[i] < maxLevel
      decreases maxLevel - l
    {
      boundaries := boundaries + [l];
      l := l + 3;
    }
    if boundaries == [] && maxLevel > 3 {
      assert false;
    }
  }

  lemma {:induction false} BoundedSet(s: set<nat>, n: nat)
    requires forall x :: x in s ==> x < n
    ensures |s| <= n
  {
    if n == 0 {
      assert s == {};
    } else {
      BoundedSet(s - {n - 1}, n - 1);
    }
  }

  /** Distinct numbers below `n` are at most `n` many. */
  lemma Pigeonhole(s: seq<nat>, n: nat)
    requires Distinct(s) && forall i :: 0 <= i < |s| ==> s[i] < n
    ensures |s| <= n
  {
    DistinctCount(s);
    BoundedSet(Elems(s), n);
  }

  /** Keys up to three levels below a subtree root. */
  const PAGE_KEYS: nat := 585

  function LevelBase(d: nat): nat {
    if d == 0 then 0 else if d == 1 then 1 else if d == 2 then 9 else 73
  }

  /** Number of a key within the four levels of the subtree. */
  function KeyIndex(k: VoxelKey, r: VoxelKey): nat
    requires r.level <= k.level
  {
    LevelBase(k.level - r.level) + SubOctantIndex(k, k.level - r.level)
  }

  lemma EightTo(d: nat)
    requires d <= 3
    ensures Pow8(d) == if d == 0 then 1 else if d == 1 then 8 else if d == 2 then 64 else 512
  {
    assert Pow2(0) == 1 && Pow2(1) == 2 && Pow2(2) == 4 && Pow2(3) == 8;
  }

  ghost predicate Within(k: VoxelKey, r: VoxelKey) {
    Under(k, r) && k.level <= r.level + 3
  }

  lemma KeyIndexBound(k: VoxelKey, r: VoxelKey)
    requires Within(k, r)
    ensures var d, i := k.level - r.level, KeyIndex(k, r);
            LevelBase(d) <= i < PAGE_KEYS && (d == 0 ==> i < 1) && (d == 1 ==> i < 9) && (d == 2 ==> i < 73)
  {
    IndexInRange(k, k.level - r.level);
    LevelIndexBound(k.level - r.level, SubOctantIndex(k, k.level - r.level));
  }

  lemma LevelIndexBound(d: nat, o: nat)
    requires d <= 3 && o < Pow8(d)
    ensures LevelBase(d) + o < PAGE_KEYS && (d == 0 ==> o < 1) && (d == 1 ==> o < 8) && (d == 2 ==> o < 64)
  {
    EightTo(d);
  }

  lemma KeyIndexInjective(a: VoxelKey, b: VoxelKey, r: VoxelKey)
    requires Within(a, r) && Within(b, r) && KeyIndex(a, r) == KeyIndex(b, r)
    ensures a == b
  {
    KeyIndexBound(a, r);
    KeyIndexBound(b, r);
    SubRootOfIndex(r, a.level - r.level, a);
    SubRootOfIndex(r, b.level - r.level, b);
  }

  /** A page names at most 585 keys: 1 + 8 + 64 records and 512 pointers, or four full levels. */
  lemma PageKeyCount(keys: seq<VoxelKey>, r: VoxelKey)
    requires Distinct(keys) && forall i :: 0 <= i < |keys| ==> Within(keys[i], r)
    ensures |keys| <= PAGE_KEYS
  {
    var index := seq(|keys|, i requires 0 <= i < |keys| => KeyIndex(keys[i], r));
    forall i | 0 <= i < |keys| ensures index[i] < PAGE_KEYS {
      KeyIndexBound(keys[i], r);
    }
    forall i, j | 0 <= i < j < |keys| ensures index[i] != index[j] {
      if KeyIndex(keys[i], r) == KeyIndex(keys[j], r) {
        KeyIndexInjective(keys[i], keys[j], r);
      }
    }
    Pigeonhole(index, PAGE_KEYS);
  }
}
