/** Splitting the entries of a page between the page itself and its child pages, grouped by their
    ancestor at the boundary level (both page builders of src/writer.rs). */
module PageSplit {
  import opened Voxel
  import opened Buckets

  ghost predicate DistinctKeys<T>(keyOf: T -> VoxelKey, s: seq<T>) {
    forall i, j :: 0 <= i < j < |s| ==> keyOf(s[i]) != keyOf(s[j])
  }

  /** Entries that stay on the page. */
  ghost predicate Staying<T>(keyOf: T -> VoxelKey, entries: seq<T>, limit: nat, stay: seq<T>) {
    DistinctKeys(keyOf, stay) && forall e :: e in stay ==> e in entries && keyOf(e).level < limit
  }

  /** Entries of one child page. */
  ghost predicate GroupFor<T>(keyOf: T -> VoxelKey, entries: seq<T>, limit: nat, boundary: nat, k: VoxelKey, group: seq<T>) {
    k.level == boundary && group != [] && DistinctKeys(keyOf, group) &&
    forall e :: e in group ==> e in entries && keyOf(e).level >= limit && Under(keyOf(e), k)
  }

  /** The first `n` entries split: each is on the page or in the group of its ancestor. */
  ghost predicate SplitTo<T>(keyOf: T -> VoxelKey, entries: seq<T>, n: nat, limit: nat, boundary: nat,
                             stay: seq<T>, groups: map<VoxelKey, seq<T>>)
    requires n <= |entries|
  {
    multiset(stay) + Pooled(groups) == multiset(entries[..n]) &&
    Staying(keyOf, entries[..n], limit, stay) &&
    forall k :: k in groups ==> GroupFor(keyOf, entries[..n], limit, boundary, k, groups[k])
  }

  lemma KeysNew<T>(keyOf: T -> VoxelKey, entries: seq<T>, n: nat)
    requires DistinctKeys(keyOf, entries) && n < |entries|
    ensures forall e :: e in entries[..n] ==> keyOf(e) != keyOf(entries[n])
    ensures entries[..n + 1] == entries[..n] + [entries[n]]
    ensures forall e :: e in entries[..n] ==> e in entries[..n + 1]
    ensures entries[n] in entries[..n + 1]
  {
    assert entries[..n + 1] == entries[..n] + [entries[n]];
  }

  lemma StayMore<T>(keyOf: T -> VoxelKey, entries: seq<T>, n: nat, limit: nat, stay: seq<T>)
    requires DistinctKeys(keyOf, entries) && n < |entries| && Staying(keyOf, entries[..n], limit, stay)
    ensures Staying(keyOf, entries[..n + 1], limit, stay)
    ensures keyOf(entries[n]).level < limit ==> Staying(keyOf, entries[..n + 1], limit, stay + [entries[n]])
  {
    KeysNew(keyOf, entries, n);
  }

  lemma GroupMore<T>(keyOf: T -> VoxelKey, entries: seq<T>, n: nat, limit: nat, boundary: nat, k: VoxelKey, group: seq<T>)
    requires DistinctKeys(keyOf, entries) && n < |entries|
    requires group == [] || GroupFor(keyOf, entries[..n], limit, boundary, k, group)
    ensures group != [] ==> GroupFor(keyOf, entries[..n + 1], limit, boundary, k, group)
    ensures k.level == boundary && keyOf(entries[n]).level >= limit && Under(keyOf(entries[n]), k) ==>
              GroupFor(keyOf, entries[..n + 1], limit, boundary, k, group + [entries[n]])
  {
    KeysNew(keyOf, entries, n);
  }

  lemma SplitStay<T>(keyOf: T -> VoxelKey, entries: seq<T>, n: nat, limit: nat, boundary: nat,
                     stay: seq<T>, groups: map<VoxelKey, seq<T>>)
    requires DistinctKeys(keyOf, entries) && n < |entries| && SplitTo(keyOf, entries, n, limit, boundary, stay, groups)
    requires keyOf(entries[n]).level < limit
    ensures SplitTo(keyOf, entries, n + 1, limit, boundary, stay + [entries[n]], groups)
  {
    KeysNew(keyOf, entries, n);
    StayMore(keyOf, entries, n, limit, stay);
    forall k | k in groups ensures GroupFor(keyOf, entries[..n + 1], limit, boundary, k, groups[k]) {
      GroupMore(keyOf, entries, n, limit, boundary, k, groups[k]);
    }
    assert multiset(stay + [entries[n]]) == multiset(stay) + multiset{entries[n]};
    assert multiset(entries[..n] + [entries[n]]) == multiset(entries[..n]) + multiset{entries[n]};
    Shuffle(multiset(stay), Pooled(groups), multiset{entries[n]});
  }

  lemma Shuffle<T>(a: multiset<T>, b: multiset<T>, c: multiset<T>)
    ensures (a + c) + b == (a + b) + c == a + (b + c)
  {
  }

  lemma SplitGroup<T>(keyOf: T -> VoxelKey, entries: seq<T>, n: nat, limit: nat, boundary: nat,
                      stay: seq<T>, groups: map<VoxelKey, seq<T>>, k: VoxelKey)
    requires DistinctKeys(keyOf, entries) && n < |entries| && SplitTo(keyOf, entries, n, limit, boundary, stay, groups)
    requires k.level == boundary && keyOf(entries[n]).level >= limit && Under(keyOf(entries[n]), k)
    ensures SplitTo(keyOf, entries, n + 1, limit, boundary, stay, groups[k := Bucket(groups, k) + [entries[n]]])
  {
    KeysNew(keyOf, entries, n);
    StayMore(keyOf, entries, n, limit, stay);
    var groups' := groups[k := Bucket(groups, k) + [entries[n]]];
    forall j | j in groups' ensures GroupFor(keyOf, entries[..n + 1], limit, boundary, j, groups'[j]) {
      GroupMore(keyOf, entries, n, limit, boundary, j, Bucket(groups, j));
    }
    PooledPush(groups, k, entries[n]);
    assert multiset(entries[..n] + [entries[n]]) == multiset(entries[..n]) + multiset{entries[n]};
    Shuffle(multiset(stay), Pooled(groups), multiset{entries[n]});
  }

  /** The split loop: entries above `limit` stay, the others join the group of their ancestor at
      the boundary level. */
  method SplitEntries<T>(keyOf: T -> VoxelKey, entries: seq<T>, limit: nat, boundary: nat)
    returns (stay: seq<T>, groups: map<VoxelKey, seq<T>>)
    requires DistinctKeys(keyOf, entries) && boundary <= limit
    ensures SplitTo(keyOf, entries, |entries|, limit, boundary, stay, groups)
  {
    stay, groups := [], map[];
    for i := 0 to |entries|
      invariant SplitTo(keyOf, entries, i, limit, boundary, stay, groups)
    {
      var e := entries[i];
      if keyOf(e).level < limit {
        SplitStay(keyOf, entries, i, limit, boundary, stay, groups);
        stay := stay + [e];
      } else {
        var root := AncestorAtLevel(keyOf(e), boundary);
        SplitGroup(keyOf, entries, i, limit, boundary, stay, groups, root);
        groups := groups[root := Bucket(groups, root) + [e]];
      }
    }
  }

  /** Group roots lie below the page's own root. */
  lemma GroupUnder<T>(keyOf: T -> VoxelKey, entries: seq<T>, limit: nat, boundary: nat, k: VoxelKey, group: seq<T>, r: VoxelKey)
    requires GroupFor(keyOf, entries, limit, boundary, k, group) && r.level <= boundary
    requires forall e :: e in entries ==> Under(keyOf(e), r)
    ensures Under(k, r)
  {
    assert group[0] in group;
    AncestorsComparable(keyOf(group[0]), k, r);
  }

  /** The deepest level of the entries. */
  method MaxLevel<T>(keyOf: T -> VoxelKey, entries: seq<T>) returns (level: nat)
    ensures forall e :: e in entries ==> keyOf(e).level <= level
    ensures level == 0 || exists e :: e in entries && keyOf(e).level == level
  {
    level := 0;
    for i := 0 to |entries|
      invariant forall e :: e in entries[..i] ==> keyOf(e).level <= level
      invariant level == 0 || exists e :: e in entries && keyOf(e).level == level
    {
      assert entries[..i + 1] == entries[..i] + [entries[i]];
      if keyOf(entries[i]).level > level {
        level := keyOf(entries[i]).level;
      }
    }
    assert entries[..|entries|] == entries;
  }
}
