/** What the collapse branch of `grid_sample` sees. The code comments call the gathered points the
    full subtree total; they are what the children hold at that moment, which is the whole stored
    subtree exactly when nothing is stored deeper than the children. */
module Collapse {
  import opened Voxel
  import opened Points
  import opened NodeMap
  import opened Sampling
  import opened Levels
  import opened Families
  import opened Subtree
  import opened Leaves

  /** Everything stored strictly below a voxel. */
  function Beneath(m: Nodes, p: VoxelKey): Nodes {
    map k | k in m && StrictlyUnder(k, p) :: m[k]
  }

  /** Nothing is stored two or more levels below. */
  ghost predicate NothingDeeper(m: Nodes, p: VoxelKey) {
    forall k :: k in m && StrictlyUnder(k, p) ==> k.level == p.level + 1
  }

  lemma ChildIsBelow(c: VoxelKey, p: VoxelKey)
    ensures Parent(c) == Some(p) <==> StrictlyUnder(c, p) && c.level == p.level + 1
  {
    if c.level == p.level + 1 {
      assert AncestorAt(c, p.level) == AncestorAt(Parent(c).value, p.level) == Parent(c).value;
    }
  }

  lemma BeneathSplits(m: Nodes, p: VoxelKey) returns (deeper: Nodes)
    ensures Total(Beneath(m, p)) == Total(Brood(m, p)) + Total(deeper)
    ensures forall k :: k in deeper <==> k in m && StrictlyUnder(k, p) && k.level != p.level + 1
    ensures forall k :: k in deeper ==> deeper[k] == m[k]
  {
    var below := Beneath(m, p);
    deeper := map k | k in below && k.level != p.level + 1 :: below[k];
    var brood := map k | k in below && k.level == p.level + 1 :: below[k];
    BroodBelow(m, p, brood);
    assert below == brood + deeper;
    TotalUnion(brood, deeper);
  }

  lemma BroodBelow(m: Nodes, p: VoxelKey, brood: Nodes)
    requires brood == map k | k in Beneath(m, p) && k.level == p.level + 1 :: Beneath(m, p)[k]
    ensures brood == Brood(m, p)
  {
    forall k ensures k in brood <==> k in Brood(m, p) {
      ChildIsBelow(k, p);
    }
  }

  lemma StoresSomething(m: Nodes, k: VoxelKey)
    requires k in m && m[k] != []
    ensures Total(m) != multiset{}
  {
    TotalContains(m, k);
    assert m[k][0] in multiset(m[k]);
    assert m[k][0] in Total(m);
  }

  /** The children hold the whole stored subtree exactly when nothing is stored below them. */
  lemma BroodIsSubtree(m: Nodes, p: VoxelKey)
    requires forall k :: k in m ==> m[k] != []
    ensures Total(Brood(m, p)) == Total(Beneath(m, p)) <==> NothingDeeper(m, p)
  {
    var deeper := BeneathSplits(m, p);
    if k :| k in deeper {
      StoresSomething(deeper, k);
      assert Total(Brood(m, p)) != Total(Beneath(m, p));
    } else {
      assert deeper == map[];
    }
  }

  /** At a collapse the parent receives the whole stored subtree exactly when nothing is stored
      below the gathered children. */
  lemma CollapseIsWhole(f: Frame, m: Nodes, m': Nodes, p: VoxelKey)
    requires Sound(f, m) && FamilySampled(f, m, m', p) && |Total(Brood(m, p))| <= MAX_LEAF_POINTS
    ensures multiset(Get(m', p)) == Total(Beneath(m, p)) <==> NothingDeeper(m, p)
  {
    BroodIsSubtree(m, p);
  }

  lemma OnlyCopies(s: seq<RawPoint>, p: RawPoint)
    requires forall x :: x in s ==> x == p
    ensures s == Copies(p, |s|)
  {
    forall i | 0 <= i < |s| ensures s[i] == p {
      assert s[i] in s;
    }
  }

  /** A leaf of coincident points, one more than a leaf may hold. */
  ghost predicate Start(f: Frame, m: Nodes, k: VoxelKey, p: RawPoint, q: VoxelKey, r: VoxelKey) {
    m == map[k := Copies(p, MAX_LEAF_POINTS + 1)] && KeyAt(f, p, k.level) == k &&
    Parent(k) == Some(q) && Parent(q) == Some(r)
  }

  lemma StartFacts(f: Frame, m: Nodes, k: VoxelKey, p: RawPoint, q: VoxelKey, r: VoxelKey)
    requires Start(f, m, k, p, q, r)
    ensures Sound(f, m) && LiveAbove(m, k.level) && HasChildIn(m, q)
    ensures Brood(m, q) == m && Total(m) == multiset(m[k]) && |Total(m)| == MAX_LEAF_POINTS + 1
    ensures forall x :: x in Total(m) ==> x == p
  {
    TotalRemove(m, k);
    assert m - {k} == map[];
    assert Brood(m, q) == m;
  }

  /** All points of a step come from the points before it. */
  lemma AllCopies(a: multiset<RawPoint>, s: seq<RawPoint>, b: multiset<RawPoint>, p: RawPoint)
    requires a == multiset(s) + b && forall x :: x in a ==> x == p
    ensures s == Copies(p, |s|) && |a| == |s| + |b|
  {
    forall x | x in s ensures x == p {
      assert x in multiset(s);
      assert x in a;
    }
    OnlyCopies(s, p);
  }

  lemma CopiesCollide(f: Frame, v: VoxelKey, s: seq<RawPoint>, p: RawPoint)
    requires s == Copies(p, |s|) && |s| > 1
    ensures !CellsApart(f, v, s)
  {
    assert GridIdx(f, v, s[0]) == GridIdx(f, v, s[1]);
  }

  lemma OneCell(f: Frame, v: VoxelKey, s: multiset<RawPoint>, p: RawPoint)
    requires (forall x :: x in s ==> x == p) && |s| > 0
    ensures |Occupied(f, v, s)| == 1
  {
    assert p in s by {
      var x :| x in s;
    }
    assert Occupied(f, v, s) == {GridIdx(f, v, p)};
  }

  /** After the first step the parent holds one point and the leaf the others. */
  ghost predicate Thin(m: Nodes, k: VoxelKey, p: RawPoint, q: VoxelKey) {
    m == map[k := Copies(p, MAX_LEAF_POINTS), q := [p]]
  }

  lemma OnlyChild(m: Nodes, k: VoxelKey, q: VoxelKey)
    requires Parent(k) == Some(q) && (forall j :: j in m ==> j == k || j == q) && k in m
    ensures Brood(m, q) == map[k := m[k]] && Total(Brood(m, q)) == multiset(m[k])
  {
    assert Brood(m, q) == map[k := m[k]];
    TotalRemove(Brood(m, q), k);
    assert Brood(m, q) - {k} == map[];
  }

  lemma FirstKeys(f: Frame, all: multiset<RawPoint>, m: Nodes, k: VoxelKey, p: RawPoint, q: VoxelKey, r: VoxelKey, m': Nodes)
    requires Start(f, m, k, p, q, r) && Stepped(f, all, q.level, m, m') && FamilySampled(f, m, m', q)
    ensures k in m' && forall j :: j in m' ==> j == k || j == q
  {
    StartFacts(f, m, k, p, q, r);
    forall j | j in m' ensures j == k || j == q {
      if j !in m {
        var c :| c in m && Parent(c) == Some(j);
      }
    }
    assert Populated(m', k);
  }

  lemma NoSingle(m: Nodes, k: VoxelKey, q: VoxelKey)
    requires Parent(k) == Some(q) && (forall j :: j in m ==> j == k || j == q) && k in m && |m[k]| != 1
    ensures Lone(m, q) == {}
  {
  }

  /** Coincident points split between parent and leaf: the parent can hold at most one. */
  lemma SplitCopies(f: Frame, q: VoxelKey, g: multiset<RawPoint>, up: seq<RawPoint>, down: seq<RawPoint>, p: RawPoint)
    requires g == multiset(up) + multiset(down) && (forall x :: x in g ==> x == p) && |g| == MAX_LEAF_POINTS + 1
    requires CellsApart(f, q, up)
    ensures |up| <= 1 && |up| + |down| == MAX_LEAF_POINTS + 1 && |Occupied(f, q, g)| == 1
    ensures up == Copies(p, |up|) && down == Copies(p, |down|)
  {
    AllCopies(g, up, multiset(down), p);
    AllCopies(g, down, multiset(up), p);
    if |up| > 1 {
      CopiesCollide(f, q, up, p);
    }
    OneCell(f, q, g, p);
  }

  /** The crowded leaf is sampled: its parent takes a single point. */
  lemma FirstStep(f: Frame, all: multiset<RawPoint>, m: Nodes, k: VoxelKey, p: RawPoint, q: VoxelKey, r: VoxelKey, m': Nodes)
    requires Start(f, m, k, p, q, r) && Stepped(f, all, q.level, m, m') && FamilySampled(f, m, m', q)
    ensures Thin(m', k, p, q)
  {
    StartFacts(f, m, k, p, q, r);
    FirstKeys(f, all, m, k, p, q, r, m');
    OnlyChild(m', k, q);
    Crowded(f, m, m', q);
    SplitCopies(f, q, Total(m), Get(m', q), m'[k], p);
    NoSingle(m', k, q);
    ThinMap(m', k, p, q);
  }

  /** What sampling a crowded family says of its parent. */
  lemma Crowded(f: Frame, m: Nodes, m': Nodes, q: VoxelKey)
    requires FamilySampled(f, m, m', q) && |Total(Brood(m, q))| > MAX_LEAF_POINTS
    ensures multiset(Get(m', q)) + Total(Brood(m', q)) == Total(Brood(m, q)) && CellsApart(f, q, Get(m', q))
    ensures Lone(m', q) == {} ==> |Occupied(f, q, Total(Brood(m, q)))| <= |Get(m', q)|
    ensures NoneEmptied(m, m', q)
  {
  }

  lemma ThinMap(m: Nodes, k: VoxelKey, p: RawPoint, q: VoxelKey)
    requires (forall j :: j in m ==> j == k || j == q) && k in m && m[k] == Copies(p, MAX_LEAF_POINTS) && Get(m, q) == Copies(p, 1)
    ensures Thin(m, k, p, q)
  {
    assert Copies(p, 1) == [p];
  }

  lemma GrandchildBelow(k: VoxelKey, q: VoxelKey, r: VoxelKey)
    requires Parent(k) == Some(q) && Parent(q) == Some(r)
    ensures StrictlyUnder(k, r) && StrictlyUnder(q, r) && k.level == r.level + 2
  {
    assert Under(k, q) && Under(q, r);
    UnderTransitive(k, q, r);
  }

  lemma ThinFacts(f: Frame, m: Nodes, k: VoxelKey, p: RawPoint, q: VoxelKey, r: VoxelKey)
    requires Thin(m, k, p, q) && Parent(k) == Some(q) && Parent(q) == Some(r)
    ensures Brood(m, r) == map[q := [p]] && Total(Brood(m, r)) == multiset{p} && HasChildIn(m, r)
    ensures StrictlyUnder(k, r) && !NothingDeeper(m, r) && k in Beneath(m, r)
  {
    assert Brood(m, r) == map[q := [p]];
    TotalRemove(Brood(m, r), q);
    assert Brood(m, r) - {q} == map[];
    assert q in m && Parent(q) == Some(r);
    GrandchildBelow(k, q, r);
  }

  /** The next step collapses over the populated leaf. */
  lemma SecondStep(f: Frame, all: multiset<RawPoint>, m: Nodes, k: VoxelKey, p: RawPoint, q: VoxelKey, r: VoxelKey, m': Nodes)
    requires Thin(m, k, p, q) && Parent(k) == Some(q) && Parent(q) == Some(r)
    requires Stepped(f, all, r.level, m, m') && FamilySampled(f, m, m', r)
    ensures Get(m', r) == [p] && Get(m', q) == [] && Get(m', k) == Copies(p, MAX_LEAF_POINTS)
  {
    ThinFacts(f, m, k, p, q, r);
    assert |multiset(Get(m', r))| == 1;
    assert Get(m', r)[0] in multiset(Get(m', r));
  }

  lemma BeneathThin(m: Nodes, k: VoxelKey, p: RawPoint, q: VoxelKey, r: VoxelKey)
    requires Thin(m, k, p, q) && Parent(k) == Some(q) && Parent(q) == Some(r)
    ensures |Total(Beneath(m, r))| == MAX_LEAF_POINTS + 1
  {
    GrandchildBelow(k, q, r);
    assert Beneath(m, r) == m;
    TotalRemove(m, k);
    assert m - {k} == map[q := [p]];
    TotalRemove(m - {k}, q);
    assert m - {k} - {q} == map[];
  }

  /** Such leaves are what subdivision makes of coincident points: they stay together down to the
      depth cap, where it gives up. */
  lemma SubdividedCopies(f: Frame, leaves: Nodes, c: nat, p: RawPoint, n: nat) returns (k: VoxelKey)
    requires Rounded(f, leaves, c) && Total(leaves) == multiset(Copies(p, n)) && n > MAX_LEAF_POINTS
    requires forall j :: Oversized(leaves, j) ==> j.level >= CHUNK_DEPTH_CAP
    ensures k.level >= CHUNK_DEPTH_CAP && KeyAt(f, p, k.level) == k && leaves == map[k := Copies(p, n)]
  {
    assert |Total(leaves)| == n;
    assert leaves != map[];
    k :| k in leaves;
    forall j | j in leaves ensures leaves[j] == Copies(p, |leaves[j]|) && KeyAt(f, p, j.level) == j {
      HoldsCopies(f, leaves, p, n, j);
    }
    forall j | j in leaves ensures j == k {
      OneChain(f, leaves, c, p, j, k);
    }
    TotalRemove(leaves, k);
    assert leaves - {k} == map[];
    assert |multiset(leaves[k])| == |leaves[k]| == n;
    assert Oversized(leaves, k);
  }

  lemma HoldsCopies(f: Frame, leaves: Nodes, p: RawPoint, n: nat, j: VoxelKey)
    requires Sound(f, leaves) && Total(leaves) == multiset(Copies(p, n)) && j in leaves
    ensures leaves[j] == Copies(p, |leaves[j]|) && KeyAt(f, p, j.level) == j
  {
    TotalContains(leaves, j);
    forall x | x in leaves[j] ensures x == p {
      assert x in multiset(leaves[j]);
      assert x in Total(leaves);
    }
    OnlyCopies(leaves[j], p);
    assert leaves[j][0] in leaves[j];
  }

  lemma OneChain(f: Frame, leaves: Nodes, c: nat, p: RawPoint, j: VoxelKey, k: VoxelKey)
    requires Rounded(f, leaves, c) && j in leaves && k in leaves
    requires KeyAt(f, p, j.level) == j && KeyAt(f, p, k.level) == k
    ensures j == k
  {
    if j.level < k.level {
      DescentRefines(f, p, j.level, k.level);
      assert StrictlyUnder(k, j);
    } else if k.level < j.level {
      DescentRefines(f, p, k.level, j.level);
      assert StrictlyUnder(j, k);
    }
  }

  /** A run of two level steps on which the comment is false. 100,001 coincident points fill a leaf;
      sampling it leaves its parent with one point; at the next step the grandparent gathers that
      one point and collapses, although 100,001 points are stored below it, and the parent ends
      empty above the still populated leaf. */
  method CollapseOverPopulated(f: Frame, p: RawPoint, k: VoxelKey) returns (m0: Nodes, m1: Nodes, m2: Nodes)
    requires k.level >= 2 && KeyAt(f, p, k.level) == k
    ensures var q := Parent(k).value; var r := Parent(q).value;
            m0 == map[k := Copies(p, MAX_LEAF_POINTS + 1)] &&
            |Total(Brood(m1, r))| == 1 && |Total(Beneath(m1, r))| == MAX_LEAF_POINTS + 1 &&
            Get(m2, r) == [p] && Get(m2, q) == [] && |Get(m2, k)| == MAX_LEAF_POINTS
  {
    var q := Parent(k).value;
    var r := Parent(q).value;
    m0 := map[k := Copies(p, MAX_LEAF_POINTS + 1)];
    ghost var all := Total(m0);
    StartFacts(f, m0, k, p, q, r);
    m1 := LevelStep(f, m0, q.level, all);
    FirstStep(f, all, m0, k, p, q, r, m1);
    StepKeepsLive(f, all, q.level, m0, m1);
    ThinFacts(f, m1, k, p, q, r);
    BeneathThin(m1, k, p, q, r);
    m2 := LevelStep(f, m1, r.level, all);
    SecondStep(f, all, m1, k, p, q, r, m2);
  }
}
