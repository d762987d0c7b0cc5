/** The paged temporal index of src/writer.rs: entries at the boundary level stay on their page,
    every pointer carries the exact time range of its key's subtree, and a reader gets back
    every entry exactly once. */
module Temporal {
  import opened Arith
  import opened Bytes
  import opened Voxel
  import opened Points
  import opened Framing
  import opened PagedLayout
  import opened PageShape
  import opened Buckets
  import opened PageSplit
  import opened HierarchyFormat
  import opened TimeOrder
  import opened TemporalFormat

  function KeyOf(e: TimeEntry): VoxelKey {
    e.key
  }

  /** `t` lies between `lo` and `hi` by value. */
  predicate Between(lo: Time, t: Time, hi: Time) {
    Rank(lo) <= Rank(t) <= Rank(hi)
  }

  function MinTime(a: Time, b: Time): Time {
    if Rank(b) < Rank(a) then b else a
  }

  function MaxTime(a: Time, b: Time): Time {
    if Rank(b) > Rank(a) then b else a
  }

  /** `lo` and `hi` bound every sample of the entries, and are attained unless there are none. */
  ghost predicate RangeOver(entries: seq<TimeEntry>, lo: Time, hi: Time) {
    (forall e, t :: e in entries && t in e.samples ==> Between(lo, t, hi)) &&
    (entries == [] ==> lo == TIME_MAX && hi == TIME_MIN) &&
    (entries != [] ==> (exists e :: e in entries && lo in e.samples) && (exists e :: e in entries && hi in e.samples))
  }

  lemma SampleBounds(e: TimeEntry, t: Time)
    requires NodeOk(e) && t in e.samples
    ensures Between(e.samples[0], t, e.samples[|e.samples| - 1])
  {
    var j :| 0 <= j < |e.samples| && e.samples[j] == t;
    assert Rank(e.samples[0]) <= Rank(e.samples[j]) <= Rank(e.samples[|e.samples| - 1]);
  }

  lemma BoundsStep(before: seq<TimeEntry>, e: TimeEntry, lo: Time, hi: Time, lo': Time, hi': Time, x: TimeEntry, t: Time)
    requires RangeOver(before, lo, hi) && NodeOk(e) && x in before + [e] && t in x.samples
    requires lo' == MinTime(lo, e.samples[0]) && hi' == MaxTime(hi, e.samples[|e.samples| - 1])
    ensures Between(lo', t, hi')
  {
    if x in before {
      assert Between(lo, t, hi);
    } else {
      SampleBounds(e, t);
    }
  }

  lemma RangeStep(entries: seq<TimeEntry>, i: nat, lo: Time, hi: Time, lo': Time, hi': Time)
    requires NodesOk(entries) && i < |entries| && RangeOver(entries[..i], lo, hi)
    requires var s := entries[i].samples; |s| > 0 && lo' == MinTime(lo, s[0]) && hi' == MaxTime(hi, s[|s| - 1])
    ensures RangeOver(entries[..i + 1], lo', hi')
  {
    var e, before := entries[i], entries[..i];
    assert e in entries && NodeOk(e);
    assert entries[..i + 1] == before + [e];
    forall x, t | x in before + [e] && t in x.samples ensures Between(lo', t, hi') {
      BoundsStep(before, e, lo, hi, lo', hi', x, t);
    }
    FiniteRange(e.samples[0]);
    FiniteRange(e.samples[|e.samples| - 1]);
    AttainedStep(before, e, lo, lo', e.samples[0]);
    AttainedStep(before, e, hi, hi', e.samples[|e.samples| - 1]);
  }

  lemma AttainedStep(before: seq<TimeEntry>, e: TimeEntry, was: Time, now: Time, mine: Time)
    requires before != [] ==> exists x :: x in before && was in x.samples
    requires mine in e.samples && (now == mine || (now == was && (before == [] ==> mine == was)))
    ensures exists x :: x in before + [e] && now in x.samples
  {
    assert e in before + [e];
    if now != mine {
      var x :| x in before && was in x.samples;
      assert x in before + [e];
    }
  }

  /** `time_range_of`: first and last samples of sorted entries. */
  method TimeRangeOf(entries: seq<TimeEntry>) returns (lo: Time, hi: Time)
    requires NodesOk(entries)
    ensures RangeOver(entries, lo, hi)
  {
    lo, hi := TIME_MAX, TIME_MIN;
    for i := 0 to |entries|
      invariant RangeOver(entries[..i], lo, hi)
    {
      var s := entries[i].samples;
      assert entries[i] in entries;
      ghost var lo0, hi0 := lo, hi;
      if Rank(s[0]) < Rank(lo) { lo := s[0]; }
      if Rank(s[|s| - 1]) > Rank(hi) { hi := s[|s| - 1]; }
      RangeStep(entries, i, lo0, hi0, lo, hi);
    }
    assert entries[..|entries|] == entries;
  }

  /** The range of a pointer is exactly the least and greatest sample at or below its key. */
  ghost predicate ExactRange(all: seq<TimeEntry>, tag: RangeTag) {
    (forall e, t :: e in all && Under(e.key, tag.key) && t in e.samples ==> Between(tag.lo, t, tag.hi)) &&
    (exists e :: e in all && Under(e.key, tag.key) && tag.lo in e.samples) &&
    (exists e :: e in all && Under(e.key, tag.key) && tag.hi in e.samples)
  }

  ghost predicate Below(entries: seq<TimeEntry>, k: VoxelKey) {
    forall e :: e in entries ==> Under(e.key, k)
  }

  /** Every page of the tree: valid records and tags, not empty, ranges exact over `all`. */
  ghost predicate TreeOk(t: TimeTree, all: seq<TimeEntry>)
    decreases t
  {
    NodesOk(t.locals) && (t.locals != [] || t.kids != NoKids) && KidsOk(t.kids, all)
  }

  ghost predicate KidsOk(ks: TimeKids, all: seq<TimeEntry>)
    decreases ks
  {
    match ks
    case NoKids => true
    case Kid(tag, child, rest) =>
      KeyOk(tag.key) && ExactRange(all, tag) && Below(Contents(child), tag.key) && TreeOk(child, all) && KidsOk(rest, all)
  }

  type Groups = map<VoxelKey, seq<TimeEntry>>

  /** What the builder is given for the page below `r`: all entries of the subtree that no page
      above holds. */
  ghost predicate PageInput(entries: seq<TimeEntry>, all: seq<TimeEntry>, r: VoxelKey, boundaries: seq<nat>, bi: nat, maxLevel: nat) {
    DistinctKeys(KeyOf, entries) && NodesOk(entries) && BoundariesFor(boundaries, maxLevel) && maxLevel <= MAX_LEVEL &&
    bi <= |boundaries| && r.level == RootLevel(bi) && entries != [] && Complete(entries, all, r, bi) && Below(entries, r)
  }

  ghost predicate Complete(entries: seq<TimeEntry>, all: seq<TimeEntry>, r: VoxelKey, bi: nat) {
    (forall e :: e in entries ==> e in all) &&
    forall e :: e in all && Under(e.key, r) && (bi == 0 || e.key.level > r.level) ==> e in entries
  }

  type PageFormat = Format<TimeEntry, RangeTag>

  ghost predicate Built(fmt: PageFormat, entries: seq<TimeEntry>, all: seq<TimeEntry>, before: seq<Page>, pages: seq<Page>,
                        t: TimeTree, height: nat) {
    |pages| == |before| + Count(t) && SamePages(before, pages, 0, |before|) &&
    Holds(fmt, pages, |before|, t) && TreeOk(t, all) && Height(t) <= height &&
    multiset(Contents(t)) == multiset(entries)
  }

  lemma {:induction false} AddKidOk(ks: TimeKids, all: seq<TimeEntry>, tag: RangeTag, t: TimeTree)
    requires KidsOk(ks, all) && KeyOk(tag.key) && ExactRange(all, tag) && Below(Contents(t), tag.key) && TreeOk(t, all)
    ensures KidsOk(AddKid(ks, tag, t), all)
    decreases ks
  {
    match ks
    case NoKids =>
    case Kid(_, _, rest) => AddKidOk(rest, all, tag, t);
  }

  lemma {:induction false} AddKidHeight(ks: TimeKids, tag: RangeTag, t: TimeTree)
    ensures HeightKids(AddKid(ks, tag, t)) == if Height(t) > HeightKids(ks) then Height(t) else HeightKids(ks)
  {
    match ks
    case NoKids =>
    case Kid(_, _, rest) => AddKidHeight(rest, tag, t);
  }

  /** The child pages built so far, and the list of them. */
  ghost predicate KidPages(fmt: PageFormat, all: seq<TimeEntry>, before: seq<Page>, pages: seq<Page>,
                           ks: TimeKids, children: seq<Child<RangeTag>>, height: nat) {
    ChildPages(fmt, before, pages, ks) && KidsOk(ks, all) && HeightKids(ks) <= height &&
    children == ChildList(ks, |before| + 1)
  }

  lemma ShapeStep(first: nat, ks: TimeKids, children: seq<Child<RangeTag>>, height: nat, tag: RangeTag, t: TimeTree)
    requires HeightKids(ks) <= height && children == ChildList(ks, first) && Height(t) <= height
    ensures HeightKids(AddKid(ks, tag, t)) <= height
    ensures ChildList(AddKid(ks, tag, t), first) == children + [Child(tag, first + CountKids(ks))]
  {
    AddKidHeight(ks, tag, t);
    AddKidChildren(ks, first, tag, t);
  }

  /** Their records, with the groups `todo` still to come. */
  ghost predicate KidRecords(groups: Groups, todo: Groups, ks: TimeKids) {
    multiset(ContentsKids(ks)) + Pooled(todo) == Pooled(groups) &&
    (forall k :: k in todo ==> k in groups && todo[k] == groups[k]) && (todo != groups ==> ks != NoKids)
  }

  lemma KidPagesStep(fmt: PageFormat, all: seq<TimeEntry>, before: seq<Page>, mid: seq<Page>, after: seq<Page>,
                     ks: TimeKids, children: seq<Child<RangeTag>>, height: nat, group: seq<TimeEntry>, tag: RangeTag, t: TimeTree)
    requires KidPages(fmt, all, before, mid, ks, children, height) && Built(fmt, group, all, mid, after, t, height)
    requires KeyOk(tag.key) && ExactRange(all, tag) && Below(group, tag.key)
    ensures KidPages(fmt, all, before, after, AddKid(ks, tag, t), children + [Child(tag, |mid|)], height)
  {
    ChildPagesStep(fmt, before, mid, after, ks, tag, t);
    BelowContents(group, t, tag.key);
    AddKidOk(ks, all, tag, t);
    ShapeStep(|before| + 1, ks, children, height, tag, t);
  }

  lemma BelowContents(group: seq<TimeEntry>, t: TimeTree, k: VoxelKey)
    requires multiset(Contents(t)) == multiset(group) && Below(group, k)
    ensures Below(Contents(t), k)
  {
    forall e | e in Contents(t) ensures Under(e.key, k) {
      assert e in multiset(Contents(t));
    }
  }

  lemma KidRecordsStep(groups: Groups, todo: Groups, ks: TimeKids, k: VoxelKey, tag: RangeTag, t: TimeTree)
    requires KidRecords(groups, todo, ks) && k in todo && multiset(Contents(t)) == multiset(todo[k])
    ensures KidRecords(groups, todo - {k}, AddKid(ks, tag, t))
  {
    AddKidFacts(ks, tag, t);
    PooledRemove(todo, k);
    Shuffle(multiset(ContentsKids(ks)), Pooled(todo - {k}), multiset(Contents(t)));
    assert multiset(ContentsKids(ks) + Contents(t)) == multiset(ContentsKids(ks)) + multiset(Contents(t));
    assert multiset(Contents(t)) + Pooled(todo - {k}) == Pooled(todo - {k}) + multiset(Contents(t));
  }

  lemma {:induction false} PooledMember(groups: Groups, e: TimeEntry) returns (k: VoxelKey)
    requires e in Pooled(groups)
    ensures k in groups && e in groups[k]
    decreases |groups|
  {
    k :| k in groups && Pooled(groups) == multiset(groups[k]) + Pooled(groups - {k});
    if e !in groups[k] {
      k := PooledMember(groups - {k}, e);
    }
  }

  /** What the split of a page gives. */
  ghost predicate PageSplitInto(entries: seq<TimeEntry>, boundary: nat, stay: seq<TimeEntry>, groups: Groups) {
    SplitTo(KeyOf, entries, |entries|, boundary + 1, boundary, stay, groups)
  }

  lemma SplitFacts(entries: seq<TimeEntry>, boundary: nat, stay: seq<TimeEntry>, groups: Groups)
    requires PageSplitInto(entries, boundary, stay, groups)
    ensures multiset(stay) + Pooled(groups) == multiset(entries) && Staying(KeyOf, entries, boundary + 1, stay)
    ensures forall k :: k in groups ==> GroupFor(KeyOf, entries, boundary + 1, boundary, k, groups[k])
  {
    assert entries[..|entries|] == entries;
  }

  /** Every entry strictly below a group's root is in the group; the root's own entry stays. */
  lemma GroupComplete(entries: seq<TimeEntry>, all: seq<TimeEntry>, r: VoxelKey, boundaries: seq<nat>, bi: nat, maxLevel: nat,
                      stay: seq<TimeEntry>, groups: Groups, k: VoxelKey, e: TimeEntry)
    requires PageInput(entries, all, r, boundaries, bi, maxLevel) && bi < |boundaries| && k in groups
    requires PageSplitInto(entries, boundaries[bi], stay, groups) && e in all && Under(e.key, k)
    ensures e in groups[k] || (e in stay && e.key == k)
    ensures e.key.level > k.level ==> e in groups[k]
  {
    SplitFacts(entries, boundaries[bi], stay, groups);
    GroupTop(entries, r, boundaries[bi], groups, k);
    UnderTransitive(e.key, k, r);
    assert e in multiset(entries);
    if e in stay {
      assert KeyOf(e).level < boundaries[bi] + 1;
    } else {
      var j := PooledMember(groups, e);
      assert GroupFor(KeyOf, entries, boundaries[bi] + 1, boundaries[bi], j, groups[j]);
      assert Under(KeyOf(e), j);
    }
  }

  lemma GroupTop(entries: seq<TimeEntry>, r: VoxelKey, boundary: nat, groups: Groups, k: VoxelKey)
    requires k in groups && GroupFor(KeyOf, entries, boundary + 1, boundary, k, groups[k])
    requires NodesOk(entries) && Below(entries, r) && r.level <= boundary
    ensures Under(k, r) && KeyOk(k) && k.level == boundary && groups[k] != [] && Below(groups[k], k) && NodesOk(groups[k])
    ensures forall e :: e in groups[k] ==> e in entries && e.key.level > boundary
  {
    forall e | e in groups[k] ensures e in entries && Under(e.key, k) && e.key.level > boundary {
      assert Under(KeyOf(e), k) && KeyOf(e).level >= boundary + 1;
    }
    var e := groups[k][0];
    assert e in groups[k] && e in entries;
    AncestorsComparable(e.key, k, r);
    AncestorOk(e.key, k);
  }

  /** A group is complete input for its own page. */
  lemma GroupInput(entries: seq<TimeEntry>, all: seq<TimeEntry>, r: VoxelKey, boundaries: seq<nat>, bi: nat, maxLevel: nat,
                   stay: seq<TimeEntry>, groups: Groups, k: VoxelKey)
    requires PageInput(entries, all, r, boundaries, bi, maxLevel) && bi < |boundaries| && k in groups
    requires PageSplitInto(entries, boundaries[bi], stay, groups)
    ensures PageInput(groups[k], all, k, boundaries, bi + 1, maxLevel) && KeyOk(k)
  {
    SplitFacts(entries, boundaries[bi], stay, groups);
    GroupTop(entries, r, boundaries[bi], groups, k);
    forall e | e in all && Under(e.key, k) && e.key.level > k.level ensures e in groups[k] {
      GroupComplete(entries, all, r, boundaries, bi, maxLevel, stay, groups, k, e);
    }
  }

  lemma SameKey(stay: seq<TimeEntry>, i: nat, j: nat)
    requires DistinctKeys(KeyOf, stay) && i < |stay| && j < |stay| && KeyOf(stay[i]) == KeyOf(stay[j])
    ensures i == j
  {
  }

  /** The root's own entry, if it has one on this page. */
  method FindRoot(stay: seq<TimeEntry>, k: VoxelKey) returns (found: seq<TimeEntry>)
    requires DistinctKeys(KeyOf, stay)
    ensures forall e :: e in found <==> e in stay && e.key == k
    ensures |found| <= 1
  {
    for i := 0 to |stay|
      invariant forall e :: e in stay[..i] ==> e.key != k
    {
      if stay[i].key == k {
        forall e | e in stay && e.key == k ensures e == stay[i] {
          var j: nat :| j < |stay| && stay[j] == e;
          SameKey(stay, i, j);
        }
        return [stay[i]];
      }
      assert stay[..i + 1] == stay[..i] + [stay[i]];
    }
    assert stay[..|stay|] == stay;
    found := [];
  }

  /** The sentinels of an empty entry list never replace a real sample. */
  lemma SentinelsLose(group: seq<TimeEntry>, root: seq<TimeEntry>, lo: Time, hi: Time, rlo: Time, rhi: Time)
    requires RangeOver(group, lo, hi) && RangeOver(root, rlo, rhi) && group != [] && NodesOk(group)
    ensures (Rank(rlo) < Rank(lo) ==> root != []) && (Rank(rhi) > Rank(hi) ==> root != [])
  {
    var a :| a in group && lo in a.samples;
    var b :| b in group && hi in b.samples;
    assert NodeOk(a) && NodeOk(b);
    FiniteRange(lo);
    FiniteRange(hi);
  }

  lemma ExactFromParts(all: seq<TimeEntry>, group: seq<TimeEntry>, root: seq<TimeEntry>, k: VoxelKey,
                       lo: Time, hi: Time, rlo: Time, rhi: Time, tag: RangeTag)
    requires RangeOver(group, lo, hi) && RangeOver(root, rlo, rhi) && group != [] && NodesOk(group)
    requires forall e :: e in all && Under(e.key, k) ==> e in group || e in root
    requires forall e :: e in group || e in root ==> e in all && Under(e.key, k)
    requires tag == RangeTag(k, MinTime(lo, rlo), MaxTime(hi, rhi))
    ensures ExactRange(all, tag)
  {
    var a :| a in group && lo in a.samples;
    var b :| b in group && hi in b.samples;
    SentinelsLose(group, root, lo, hi, rlo, rhi);
    forall e, t | e in all && Under(e.key, k) && t in e.samples ensures Between(tag.lo, t, tag.hi) {
      assert if e in group then Between(lo, t, hi) else Between(rlo, t, rhi);
    }
  }

  /** The exact time range of one group's subtree. */
  method GroupRange(entries: seq<TimeEntry>, ghost all: seq<TimeEntry>, ghost r: VoxelKey, boundaries: seq<nat>, bi: nat,
                    ghost maxLevel: nat, stay: seq<TimeEntry>, groups: Groups, k: VoxelKey)
    returns (tag: RangeTag)
    requires PageInput(entries, all, r, boundaries, bi, maxLevel) && bi < |boundaries| && k in groups
    requires PageSplitInto(entries, boundaries[bi], stay, groups)
    ensures tag.key == k && ExactRange(all, tag)
  {
    SplitFacts(entries, boundaries[bi], stay, groups);
    GroupTop(entries, r, boundaries[bi], groups, k);
    var lo, hi := TimeRangeOf(groups[k]);
    var root := FindRoot(stay, k);
    var rlo, rhi := TimeRangeOf(root);
    tag := RangeTag(k, MinTime(lo, rlo), MaxTime(hi, rhi));
    forall e | e in all && Under(e.key, k) ensures e in groups[k] || e in root {
      GroupComplete(entries, all, r, boundaries, bi, maxLevel, stay, groups, k, e);
    }
    ExactFromParts(all, groups[k], root, k, lo, hi, rlo, rhi, tag);
  }

  lemma LeafBuilt(fmt: PageFormat, entries: seq<TimeEntry>, all: seq<TimeEntry>, locals: seq<TimeEntry>, before: seq<Page>,
                  t: TimeTree, height: nat)
    requires t == Tree(locals, NoKids) && NodesOk(locals) && locals != [] && height >= 1
    requires multiset(locals) == multiset(entries)
    ensures Built(fmt, entries, all, before, before + [PageOf(fmt, t, |before|)], t, height)
  {
    assert locals + [] == locals;
  }

  lemma SplitBuilt(fmt: PageFormat, entries: seq<TimeEntry>, all: seq<TimeEntry>, before: seq<Page>, mid: seq<Page>, t: TimeTree,
                   groups: Groups, children: seq<Child<RangeTag>>, height: nat)
    requires KidPages(fmt, all, before, mid, t.kids, children, height) && KidRecords(groups, map[], t.kids)
    requires groups != map[] && NodesOk(t.locals)
    requires multiset(t.locals) + Pooled(groups) == multiset(entries)
    ensures Built(fmt, entries, all, before, mid[|before| := PageOf(fmt, t, |before|)], t, height + 1)
  {
    var after := mid[|before| := PageOf(fmt, t, |before|)];
    HoldsKidsElsewhere(fmt, mid, after, |before| + 1, t.kids);
    var none: Groups := map[];
    assert Pooled(none) == multiset{};
    assert multiset(Contents(t)) == multiset(t.locals) + multiset(ContentsKids(t.kids));
  }

  /** `build_page_recursive`. */
  method BuildPage(list: PageList, fmt: PageFormat, entries: seq<TimeEntry>, boundaries: seq<nat>, bi: nat,
                   ghost all: seq<TimeEntry>, ghost r: VoxelKey, ghost maxLevel: nat)
    returns (idx: nat, ghost t: TimeTree)
    requires PageInput(entries, all, r, boundaries, bi, maxLevel)
    modifies list
    ensures idx == |old(list.pages)|
    ensures Built(fmt, entries, all, old(list.pages), list.pages, t, |boundaries| - bi + 1)
    decreases |boundaries| - bi
  {
    ghost var before := list.pages;
    if bi >= |boundaries| || entries == [] {
      t := Tree(entries, NoKids);
      var page := WritePage(fmt, entries, [], NoKids, |before|);
      idx := list.Push(page);
      LeafBuilt(fmt, entries, all, entries, before, t, |boundaries| - bi + 1);
      return;
    }
    var boundary := boundaries[bi];
    var stay, groups := SplitEntries(KeyOf, entries, boundary + 1, boundary);
    SplitFacts(entries, boundary, stay, groups);
    StayOk(entries, boundary, stay, groups);
    if groups == map[] {
      t := Tree(stay, NoKids);
      var page := WritePage(fmt, stay, [], NoKids, |before|);
      idx := list.Push(page);
      LeafBuilt(fmt, entries, all, stay, before, t, |boundaries| - bi + 1);
      return;
    }
    idx := list.Push(Page([], []));
    ghost var ks: TimeKids;
    var children: seq<Child<RangeTag>>;
    children, ks := BuildChildren(list, fmt, entries, boundaries, bi, all, r, maxLevel, stay, groups, before);
    t := Tree(stay, ks);
    var page := WritePage(fmt, stay, children, ks, idx);
    ghost var mid := list.pages;
    list.pages := list.pages[idx := page];
    SplitBuilt(fmt, entries, all, before, mid, t, groups, children, |boundaries| - bi);
  }

  lemma StayOk(entries: seq<TimeEntry>, boundary: nat, stay: seq<TimeEntry>, groups: Groups)
    requires PageSplitInto(entries, boundary, stay, groups) && NodesOk(entries) && entries != []
    ensures NodesOk(stay) && (groups == map[] ==> stay != [] && multiset(stay) == multiset(entries))
  {
    SplitFacts(entries, boundary, stay, groups);
    if groups == map[] {
      assert Pooled(groups) == multiset{};
      assert entries[0] in multiset(entries);
    }
  }

  lemma ChildrenStart(fmt: PageFormat, all: seq<TimeEntry>, groups: Groups, before: seq<Page>, page: Page, height: nat)
    ensures KidPages(fmt, all, before, before + [page], NoKids, [], height) && KidRecords(groups, groups, NoKids)
  {
    assert multiset(ContentsKids<TimeEntry, RangeTag>(NoKids)) == multiset{};
  }

  /** The page of one group, with its range. */
  method BuildChild(list: PageList, fmt: PageFormat, entries: seq<TimeEntry>, boundaries: seq<nat>, bi: nat,
                    ghost all: seq<TimeEntry>, ghost r: VoxelKey, ghost maxLevel: nat,
                    stay: seq<TimeEntry>, groups: Groups, k: VoxelKey)
    returns (tag: RangeTag, childIdx: nat, ghost child: TimeTree)
    requires PageInput(entries, all, r, boundaries, bi, maxLevel) && bi < |boundaries|
    requires PageSplitInto(entries, boundaries[bi], stay, groups) && k in groups
    modifies list
    ensures tag.key == k && KeyOk(k) && ExactRange(all, tag) && Below(groups[k], k) && childIdx == |old(list.pages)|
    ensures Built(fmt, groups[k], all, old(list.pages), list.pages, child, |boundaries| - bi)
    decreases |boundaries| - bi, 0
  {
    GroupInput(entries, all, r, boundaries, bi, maxLevel, stay, groups, k);
    tag := GroupRange(entries, all, r, boundaries, bi, maxLevel, stay, groups, k);
    childIdx, child := BuildPage(list, fmt, groups[k], boundaries, bi + 1, all, k, maxLevel);
  }

  /** Compute each group's range and recurse into it, in any order. */
  method BuildChildren(list: PageList, fmt: PageFormat, entries: seq<TimeEntry>, boundaries: seq<nat>, bi: nat,
                       ghost all: seq<TimeEntry>, ghost r: VoxelKey, ghost maxLevel: nat,
                       stay: seq<TimeEntry>, groups: Groups, ghost before: seq<Page>)
    returns (children: seq<Child<RangeTag>>, ghost ks: TimeKids)
    requires PageInput(entries, all, r, boundaries, bi, maxLevel) && bi < |boundaries|
    requires PageSplitInto(entries, boundaries[bi], stay, groups)
    requires list.pages == before + [Page([], [])]
    modifies list
    ensures KidPages(fmt, all, before, list.pages, ks, children, |boundaries| - bi) && KidRecords(groups, map[], ks)
    decreases |boundaries| - bi, 1
  {
    children, ks := [], NoKids;
    ChildrenStart(fmt, all, groups, before, Page([], []), |boundaries| - bi);
    var todo := groups;
    while todo != map[]
      invariant KidPages(fmt, all, before, list.pages, ks, children, |boundaries| - bi) && KidRecords(groups, todo, ks)
      decreases todo
    {
      var k :| k in todo;
      ghost var mid := list.pages;
      var tag: RangeTag, childIdx: nat;
      ghost var child: TimeTree;
      tag, childIdx, child := BuildChild(list, fmt, entries, boundaries, bi, all, r, maxLevel, stay, groups, k);
      KidPagesStep(fmt, all, before, mid, list.pages, ks, children, |boundaries| - bi, groups[k], tag, child);
      KidRecordsStep(groups, todo, ks, k, tag, child);
      children, ks, todo := children + [Child(tag, childIdx)], AddKid(ks, tag, child), todo - {k};
    }
  }

  /** Entries the index can hold: one per key, each with sorted samples. */
  ghost predicate Valid(entries: seq<TimeEntry>) {
    DistinctKeys(KeyOf, entries) && NodesOk(entries)
  }

  /** A page with a record or a pointer has bytes. */
  lemma PageNonEmpty(t: TimeTree, idx: nat)
    requires t.locals != [] || t.kids != NoKids
    ensures |PageOf(TimeFmt(), t, idx).data| > 0
  {
    if t.locals != [] {
      assert |EncodeNode(t.locals[0])| >= 4;
    } else {
      assert |Pointer(TimeFmt(), t.kids.tag, Place(0, 0))| >= 12;
    }
  }

  lemma {:induction false} TreeValid(t: TimeTree, all: seq<TimeEntry>)
    requires TreeOk(t, all)
    ensures PagesValid(t)
    decreases t
  {
    TreeKidsValid(t.kids, all);
  }

  lemma {:induction false} TreeKidsValid(ks: TimeKids, all: seq<TimeEntry>)
    requires KidsOk(ks, all)
    ensures KidsValid(ks)
    decreases ks
  {
    match ks
    case NoKids =>
    case Kid(_, child, rest) =>
      TreeValid(child, all);
      TreeKidsValid(rest, all);
  }

  /** No page is empty. */
  lemma {:induction false} TreeNonEmpty(pages: seq<Page>, idx: nat, t: TimeTree, all: seq<TimeEntry>)
    requires Holds(TimeFmt(), pages, idx, t) && TreeOk(t, all)
    ensures idx + Count(t) <= |pages| && forall i :: idx <= i < idx + Count(t) ==> |pages[i].data| > 0
    decreases t
  {
    PageNonEmpty(t, idx);
    KidsNonEmpty(pages, idx + 1, t.kids, all);
  }

  lemma {:induction false} KidsNonEmpty(pages: seq<Page>, idx: nat, ks: TimeKids, all: seq<TimeEntry>)
    requires HoldsKids(TimeFmt(), pages, idx, ks) && KidsOk(ks, all) && idx <= |pages|
    ensures idx + CountKids(ks) <= |pages| && forall i :: idx <= i < idx + CountKids(ks) ==> |pages[i].data| > 0
    decreases ks
  {
    match ks
    case NoKids =>
    case Kid(_, child, rest) =>
      TreeNonEmpty(pages, idx, child, all);
      KidsNonEmpty(pages, idx + Count(child), rest, all);
  }

  lemma {:induction false} PagesNoMoreThanBytes(pages: seq<Page>, i: nat)
    requires i <= |pages| && forall j :: 0 <= j < |pages| ==> |pages[j].data| > 0
    ensures i <= BytesBefore(pages, i)
  {
    if i > 0 {
      PagesNoMoreThanBytes(pages, i - 1);
    }
  }

  /** Pages stored after a header. */
  lemma StoredAfter(header: seq<U8>, payload: seq<U8>, start: nat, places: seq<Place>, datas: seq<seq<U8>>)
    requires Stored(payload, start + |header|, places, datas)
    ensures Stored(header + payload, start, places, datas)
  {
    forall i | 0 <= i < |places|
      ensures start <= places[i].offset && places[i].offset - start + places[i].size <= |header + payload|
      ensures (header + payload)[places[i].offset - start..places[i].offset - start + places[i].size] == datas[i]
    {
      var a := places[i].offset - start;
      assert (header + payload)[a..a + places[i].size] == payload[a - |header|..a - |header| + places[i].size];
    }
  }

  /** The index: its pages, in their places after the header, parse to a tree that holds every
      entry exactly once and whose pointers carry exact time ranges. */
  ghost predicate Indexes(entries: seq<TimeEntry>, payload: seq<U8>, start: nat, t: TimeTree, places: seq<Place>) {
    |payload| >= TEMPORAL_HEADER_SIZE && Parsed(ParseTimes, payload, start, places, 0, t) && |places| == Count(t) && Height(t) <= 11 &&
    TreeOk(t, entries) && multiset(Contents(t)) == multiset(entries) &&
    Tiles(places, start + TEMPORAL_HEADER_SIZE, |payload| - TEMPORAL_HEADER_SIZE)
  }

  lemma PlacesFit(pages: seq<Page>, start: nat, places: seq<Place>, datas: seq<seq<U8>>)
    requires Laid(pages, start, places) && AllPatched(pages, places, datas)
    requires start + |Concat(datas)| < 0x1_0000_0000_0000_0000 && |Concat(datas)| < 0x1_0000_0000
    ensures RangesFit(places)
  {
    PayloadStores(pages, start, places, datas);
  }

  /** The pages, in their places after the header. */
  lemma PagesStored(pages: seq<Page>, start: nat, header: seq<U8>, places: seq<Place>, datas: seq<seq<U8>>, payload: seq<U8>)
    requires |header| == TEMPORAL_HEADER_SIZE && payload == header + Concat(datas)
    requires Laid(pages, start + TEMPORAL_HEADER_SIZE, places) && AllPatched(pages, places, datas)
    ensures Stored(payload, start, places, datas)
  {
    PayloadStores(pages, start + TEMPORAL_HEADER_SIZE, places, datas);
    StoredAfter(header, Concat(datas), start, places, datas);
  }

  /** The built tree can be read from them. */
  lemma BuiltParses(entries: seq<TimeEntry>, pages: seq<Page>, t: TimeTree, start: nat,
                    places: seq<Place>, datas: seq<seq<U8>>, payload: seq<U8>)
    requires Holds(TimeFmt(), pages, 0, t) && TreeOk(t, entries) && |pages| == Count(t)
    requires Stored(payload, start, places, datas) && AllPatched(pages, places, datas) && RangesFit(places)
    ensures Parsed(ParseTimes, payload, start, places, 0, t)
  {
    TreeValid(t, entries);
    TimesReadable(t, 0, places);
    TreeParses(TimeFmt(), ParseTimes, pages, payload, start, places, datas, 0, t);
  }

  lemma PageCountFits(entries: seq<TimeEntry>, pages: seq<Page>, t: TimeTree, start: nat,
                      places: seq<Place>, datas: seq<seq<U8>>)
    requires Built(TimeFmt(), entries, entries, [], pages, t, 11)
    requires Laid(pages, start, places) && AllPatched(pages, places, datas)
    ensures |pages| <= |Concat(datas)|
  {
    TreeNonEmpty(pages, 0, t, entries);
    PagesNoMoreThanBytes(pages, |pages|);
    BytesOfPages(pages, places, datas, |pages|);
    assert datas[..|pages|] == datas;
  }

  /** The header a reader decodes describes the pages it will find. */
  ghost predicate Described(entries: seq<TimeEntry>, payload: seq<U8>, start: nat, stride: nat, h: Header) {
    DecodeHeader(payload) == Some(h) && h.version == 1 && h.stride == stride && h.nodeCount == |entries| &&
    if entries == [] then h.pageCount == 1 && h.root == Place(start + TEMPORAL_HEADER_SIZE, 0)
    else
      exists t: TimeTree, places: seq<Place> ::
        Indexes(entries, payload, start, t, places) && h.pageCount == |places| && h.root == places[0]
  }

  lemma RootInput(entries: seq<TimeEntry>, boundaries: seq<nat>, maxLevel: nat, root: VoxelKey)
    requires Valid(entries) && entries != [] && BoundariesFor(boundaries, maxLevel) && root == ROOT && maxLevel <= MAX_LEVEL
    ensures PageInput(entries, entries, root, boundaries, 0, maxLevel) && |boundaries| <= 10
  {
    forall e | e in entries ensures Under(e.key, root) {
      InRangeUnderRoot(e.key);
    }
    if |boundaries| > 0 {
      assert boundaries[|boundaries| - 1] == RootLevel(|boundaries|);
    }
  }

  /** `build_temporal_payload`, whenever its offsets, sizes and counts fit their fields. */
  method BuildTemporalPayload(entries: seq<TimeEntry>, stride: U32, start: nat) returns (payload: seq<U8>)
    requires Valid(entries) && |entries| < 0x1_0000_0000
    ensures start + |payload| < 0x1_0000_0000_0000_0000 && |payload| < 0x1_0000_0000 ==>
              exists h :: Described(entries, payload, start, stride, h)
  {
    if entries == [] {
      payload := EmptyIndex(stride, start);
      return;
    }
    var maxLevel := MaxLevel(KeyOf, entries);
    var boundaries := ChoosePageBoundaries(maxLevel);
    RootInput(entries, boundaries, maxLevel, ROOT);
    var list := new PageList();
    var rootIdx: nat;
    ghost var t: TimeTree;
    rootIdx, t := BuildPage(list, TimeFmt(), entries, boundaries, 0, entries, ROOT, maxLevel);
    payload := FinishIndex(list.pages, rootIdx, entries, stride, start, t);
  }

  method EmptyIndex(stride: U32, start: nat) returns (payload: seq<U8>)
    ensures start + |payload| < 0x1_0000_0000_0000_0000 && |payload| < 0x1_0000_0000 ==>
              exists h :: Described([], payload, start, stride, h)
  {
    var h := Header(1, stride, 0, 1, Place(start + TEMPORAL_HEADER_SIZE, 0));
    payload := EncodeHeader(h);
    if start + |payload| < 0x1_0000_0000_0000_0000 {
      HeaderLength(h);
      HeaderRoundTrip(h, []);
      assert payload + [] == payload;
      assert Described([], payload, start, stride, h);
    }
  }

  lemma HeaderSize()
    ensures TotalWidth(HeaderWidths()) == TEMPORAL_HEADER_SIZE
  {
    HeaderRoundTrip(Header(0, 0, 0, 0, Place(0, 0)), []);
    EncodeWordsLength([0, 0, 0, 0, 0, 0, 0], HeaderWidths());
  }

  lemma IndexDescribed(entries: seq<TimeEntry>, t: TimeTree, stride: U32, start: nat, places: seq<Place>, h: Header, payload: seq<U8>)
    requires Parsed(ParseTimes, payload, start, places, 0, t) && |places| == Count(t) && Height(t) <= 11
    requires TreeOk(t, entries) && multiset(Contents(t)) == multiset(entries) && |payload| >= TEMPORAL_HEADER_SIZE
    requires Tiles(places, start + TEMPORAL_HEADER_SIZE, |payload| - TEMPORAL_HEADER_SIZE)
    requires DecodeHeader(payload) == Some(h) && entries != []
    requires |entries| < 0x1_0000_0000 && |places| < 0x1_0000_0000 && h == Header(1, stride, |entries|, |places|, places[0])
    ensures Described(entries, payload, start, stride, h)
  {
    assert Indexes(entries, payload, start, t, places);
  }

  lemma FinishedIndex(entries: seq<TimeEntry>, pages: seq<Page>, t: TimeTree, stride: U32, start: nat,
                      places: seq<Place>, datas: seq<seq<U8>>, h: Header, payload: seq<U8>)
    requires Built(TimeFmt(), entries, entries, [], pages, t, 11) && entries != [] && |entries| < 0x1_0000_0000
    requires Stored(payload, start, places, datas) && AllPatched(pages, places, datas) && RangesFit(places)
    requires |payload| >= TEMPORAL_HEADER_SIZE
    requires Tiles(places, start + TEMPORAL_HEADER_SIZE, |payload| - TEMPORAL_HEADER_SIZE)
    requires 0 < |places| == |pages| < 0x1_0000_0000 && h == Header(1, stride, |entries|, |places|, places[0])
    requires DecodeHeader(payload) == Some(h)
    ensures Described(entries, payload, start, stride, h)
  {
    BuiltParses(entries, pages, t, start, places, datas, payload);
    IndexDescribed(entries, t, stride, start, places, h, payload);
  }

  lemma HeaderLength(h: Header)
    ensures |EncodeHeader(h)| == TEMPORAL_HEADER_SIZE
  {
    EncodeWordsLength([h.version, h.stride, h.nodeCount, h.pageCount, h.root.offset, h.root.size, 0], HeaderWidths());
    HeaderSize();
  }

  /** The header of finished pages, which must fit its fields. */
  lemma FinishedHeader(entries: seq<TimeEntry>, pages: seq<Page>, t: TimeTree, stride: U32, start: nat,
                       places: seq<Place>, datas: seq<seq<U8>>, h: Header, header: seq<U8>, payload: seq<U8>)
    requires Built(TimeFmt(), entries, entries, [], pages, t, 11) && |entries| < 0x1_0000_0000 && |places| > 0
    requires Laid(pages, start + TEMPORAL_HEADER_SIZE, places) && AllPatched(pages, places, datas)
    requires h == Header(1, stride, |entries|, |pages| % 0x1_0000_0000, places[0])
    requires header == EncodeHeader(h) && payload == header + Concat(datas)
    requires start + |payload| < 0x1_0000_0000_0000_0000 && |payload| < 0x1_0000_0000
    ensures |payload| == TEMPORAL_HEADER_SIZE + |Concat(datas)| && DecodeHeader(payload) == Some(h)
    ensures |pages| < 0x1_0000_0000 && RangesFit(places) && |header| == TEMPORAL_HEADER_SIZE
  {
    HeaderLength(h);
    PlacesFit(pages, start + TEMPORAL_HEADER_SIZE, places, datas);
    PageCountFits(entries, pages, t, start + TEMPORAL_HEADER_SIZE, places, datas);
    HeaderRoundTrip(h, Concat(datas));
  }

  lemma IndexFinished(entries: seq<TimeEntry>, pages: seq<Page>, t: TimeTree, stride: U32, start: nat,
                      places: seq<Place>, datas: seq<seq<U8>>, h: Header, header: seq<U8>, payload: seq<U8>)
    requires Built(TimeFmt(), entries, entries, [], pages, t, 11) && 0 < |entries| < 0x1_0000_0000
    requires Laid(pages, start + TEMPORAL_HEADER_SIZE, places) && AllPatched(pages, places, datas)
    requires payload == header + Concat(datas) && |header| == TEMPORAL_HEADER_SIZE
    requires DecodeHeader(payload) == Some(h) && RangesFit(places)
    requires 0 < |places| == |pages| < 0x1_0000_0000 && h == Header(1, stride, |entries|, |places|, places[0])
    ensures Described(entries, payload, start, stride, h)
  {
    PagesStored(pages, start, header, places, datas, payload);
    PagesTile(pages, start + TEMPORAL_HEADER_SIZE, places, datas);
    FinishedIndex(entries, pages, t, stride, start, places, datas, h, payload);
  }

  lemma IndexAssembled(entries: seq<TimeEntry>, pages: seq<Page>, t: TimeTree, stride: U32, start: nat,
                       places: seq<Place>, datas: seq<seq<U8>>, h: Header, header: seq<U8>, payload: seq<U8>)
    requires Built(TimeFmt(), entries, entries, [], pages, t, 11) && 0 < |entries| < 0x1_0000_0000 && |places| > 0
    requires Laid(pages, start + TEMPORAL_HEADER_SIZE, places) && AllPatched(pages, places, datas)
    requires h == Header(1, stride, |entries|, |pages| % 0x1_0000_0000, places[0])
    requires header == EncodeHeader(h) && payload == header + Concat(datas)
    requires start + |payload| < 0x1_0000_0000_0000_0000 && |payload| < 0x1_0000_0000
    ensures Described(entries, payload, start, stride, h)
  {
    FinishedHeader(entries, pages, t, stride, start, places, datas, h, header, payload);
    WholePageCount(|pages|);
    IndexFinished(entries, pages, t, stride, start, places, datas, h, header, payload);
  }

  lemma WholePageCount(n: nat)
    requires n < 0x1_0000_0000
    ensures n % 0x1_0000_0000 == n
  {
  }

  /** Layout, patching and the header. */
  method FinishIndex(pages: seq<Page>, rootIdx: nat, entries: seq<TimeEntry>, stride: U32, start: nat, ghost t: TimeTree)
    returns (payload: seq<U8>)
    requires Built(TimeFmt(), entries, entries, [], pages, t, 11) && rootIdx == 0
    requires entries != [] && |entries| < 0x1_0000_0000
    ensures start + |payload| < 0x1_0000_0000_0000_0000 && |payload| < 0x1_0000_0000 ==>
              exists h :: Described(entries, payload, start, stride, h)
  {
    var places := LayOut(pages, start + TEMPORAL_HEADER_SIZE);
    var datas := PatchPages(pages, places);
    var h := Header(1, stride, |entries|, |pages| % 0x1_0000_0000, places[rootIdx]);
    var header := EncodeHeader(h);
    payload := header + Concat(datas);
    if start + |payload| < 0x1_0000_0000_0000_0000 && |payload| < 0x1_0000_0000 {
      IndexAssembled(entries, pages, t, stride, start, places, datas, h, header, payload);
    }
  }

  /** Following the pointers of an index reads every entry exactly once and visits every page
      exactly once, in layout order. */
  lemma IndexRoundTrip(entries: seq<TimeEntry>, payload: seq<U8>, start: nat, t: TimeTree, places: seq<Place>, fuel: nat)
    requires Indexes(entries, payload, start, t, places) && fuel >= 11
    ensures ReadPage(ParseTimes, payload, start, places[0], fuel) == Some(Visit(Contents(t), places))
    ensures multiset(Contents(t)) == multiset(entries)
  {
    ReadAll(ParseTimes, payload, start, places, t, fuel);
  }

  /** The node's time span meets the window; its first and last samples are its least and greatest
      point times. */
  predicate Overlaps(e: TimeEntry, a: Time, b: Time) {
    e.samples != [] && Rank(e.samples[0]) <= Rank(b) && Rank(a) <= Rank(e.samples[|e.samples| - 1])
  }

  /** A pointer worth following. */
  predicate Meets(tag: RangeTag, a: Time, b: Time) {
    Rank(tag.lo) <= Rank(b) && Rank(a) <= Rank(tag.hi)
  }

  /** Records found when pointers whose range misses the window are skipped. */
  function Query(t: TimeTree, a: Time, b: Time): seq<TimeEntry> {
    t.locals + QueryKids(t.kids, a, b)
  }

  function QueryKids(ks: TimeKids, a: Time, b: Time): seq<TimeEntry> {
    match ks
    case NoKids => []
    case Kid(tag, child, rest) => (if Meets(tag, a, b) then Query(child, a, b) else []) + QueryKids(rest, a, b)
  }

  lemma OverlapMeets(all: seq<TimeEntry>, tag: RangeTag, a: Time, b: Time, e: TimeEntry)
    requires ExactRange(all, tag) && e in all && Under(e.key, tag.key) && Overlaps(e, a, b)
    ensures Meets(tag, a, b)
  {
    var first, last := e.samples[0], e.samples[|e.samples| - 1];
    assert first in e.samples && last in e.samples;
    assert Between(tag.lo, first, tag.hi) && Between(tag.lo, last, tag.hi);
  }

  /** Skipping by range never misses a node whose time span meets the window. */
  lemma {:induction false} QueryComplete(t: TimeTree, all: seq<TimeEntry>, a: Time, b: Time, e: TimeEntry)
    requires TreeOk(t, all) && (forall x :: x in Contents(t) ==> x in all) && e in Contents(t) && Overlaps(e, a, b)
    ensures e in Query(t, a, b)
    decreases t
  {
    if e !in t.locals {
      QueryKidsComplete(t.kids, all, a, b, e);
    }
  }

  lemma {:induction false} QueryKidsComplete(ks: TimeKids, all: seq<TimeEntry>, a: Time, b: Time, e: TimeEntry)
    requires KidsOk(ks, all) && (forall x :: x in ContentsKids(ks) ==> x in all) && e in ContentsKids(ks) && Overlaps(e, a, b)
    ensures e in QueryKids(ks, a, b)
    decreases ks
  {
    match ks
    case NoKids =>
    case Kid(tag, child, rest) =>
      if e in Contents(child) {
        OverlapMeets(all, tag, a, b, e);
        QueryComplete(child, all, a, b, e);
      } else {
        QueryKidsComplete(rest, all, a, b, e);
      }
  }

  lemma {:induction false} QuerySound(t: TimeTree, a: Time, b: Time, e: TimeEntry)
    requires e in Query(t, a, b)
    ensures e in Contents(t)
    decreases t
  {
    if e !in t.locals {
      QueryKidsSound(t.kids, a, b, e);
    }
  }

  lemma {:induction false} QueryKidsSound(ks: TimeKids, a: Time, b: Time, e: TimeEntry)
    requires e in QueryKids(ks, a, b)
    ensures e in ContentsKids(ks)
    decreases ks
  {
    match ks
    case NoKids =>
    case Kid(tag, child, rest) =>
      if e !in QueryKids(rest, a, b) {
        QuerySound(child, a, b, e);
      } else {
        QueryKidsSound(rest, a, b, e);
      }
  }

  /** A reader of the bytes that follows only the pointers worth following. */
  function SeekPage(parse: Parser<TimeEntry, RangeTag>, payload: seq<U8>, start: nat, at: Place, a: Time, b: Time, fuel: nat): Option<seq<TimeEntry>>
    decreases fuel, 0
  {
    if fuel == 0 || at.offset < start || at.offset - start + at.size > |payload| then None
    else
      match parse(payload[at.offset - start..at.offset - start + at.size])
      case None => None
      case Some(items) => SeekItems(parse, payload, start, items, a, b, fuel - 1)
  }

  function SeekItems(parse: Parser<TimeEntry, RangeTag>, payload: seq<U8>, start: nat, items: seq<TimeItem>, a: Time, b: Time, fuel: nat): Option<seq<TimeEntry>>
    decreases fuel, 1 + |items|
  {
    if items == [] then Some([])
    else
      var first := match items[0]
                   case Local(e) => Some([e])
                   case Ptr(tag, at) => if Meets(tag, a, b) then SeekPage(parse, payload, start, at, a, b, fuel) else Some([]);
      match (first, SeekItems(parse, payload, start, items[1..], a, b, fuel))
      case (Some(x), Some(more)) => Some(x + more)
      case _ => None
  }

  lemma SeekLocal(parse: Parser<TimeEntry, RangeTag>, payload: seq<U8>, start: nat, items: seq<TimeItem>, e: TimeEntry,
                  a: Time, b: Time, fuel: nat, more: seq<TimeEntry>)
    requires items != [] && items[0] == Local(e) && SeekItems(parse, payload, start, items[1..], a, b, fuel) == Some(more)
    ensures SeekItems(parse, payload, start, items, a, b, fuel) == Some([e] + more)
  {
  }

  lemma {:induction false} SeekLocals(parse: Parser<TimeEntry, RangeTag>, payload: seq<U8>, start: nat, locals: seq<TimeEntry>, items: seq<TimeItem>,
                                      a: Time, b: Time, fuel: nat, found: seq<TimeEntry>)
    requires SeekItems(parse, payload, start, items, a, b, fuel) == Some(found)
    ensures SeekItems(parse, payload, start, LocalItems(locals) + items, a, b, fuel) == Some(locals + found)
  {
    var all: seq<TimeItem> := LocalItems(locals) + items;
    if locals == [] {
      assert all == items && locals + found == found;
    } else {
      SeekLocals(parse, payload, start, locals[1..], items, a, b, fuel, found);
      assert all[0] == Local(locals[0]) && all[1..] == LocalItems(locals[1..]) + items;
      SeekLocal(parse, payload, start, all, locals[0], a, b, fuel, locals[1..] + found);
      assert [locals[0]] + (locals[1..] + found) == locals + found;
    }
  }

  lemma SeekStep(parse: Parser<TimeEntry, RangeTag>, payload: seq<U8>, start: nat, at: Place, items: seq<TimeItem>, a: Time, b: Time, fuel: nat,
                 found: seq<TimeEntry>)
    requires fuel > 0 && Reads(parse, payload, start, at, items)
    requires SeekItems(parse, payload, start, items, a, b, fuel - 1) == Some(found)
    ensures SeekPage(parse, payload, start, at, a, b, fuel) == Some(found)
  {
  }

  lemma SeekKid(parse: Parser<TimeEntry, RangeTag>, payload: seq<U8>, start: nat, tag: RangeTag, at: Place, rest: seq<TimeItem>, a: Time, b: Time, fuel: nat,
                x: seq<TimeEntry>, more: seq<TimeEntry>)
    requires SeekPage(parse, payload, start, at, a, b, fuel) == Some(x) && SeekItems(parse, payload, start, rest, a, b, fuel) == Some(more)
    ensures SeekItems(parse, payload, start, [Ptr(tag, at)] + rest, a, b, fuel) == Some((if Meets(tag, a, b) then x else []) + more)
  {
    assert ([Ptr(tag, at)] + rest)[1..] == rest;
  }

  /** The pruning reader returns exactly the tree's query. */
  lemma {:induction false} SeekIsQuery(parse: Parser<TimeEntry, RangeTag>, payload: seq<U8>, start: nat, places: seq<Place>, idx: nat, t: TimeTree,
                                       a: Time, b: Time, fuel: nat)
    requires Parsed(parse, payload, start, places, idx, t) && fuel >= Height(t)
    ensures SeekPage(parse, payload, start, PlaceOf(places, idx), a, b, fuel) == Some(Query(t, a, b))
    decreases t
  {
    var ptrs := PtrItems(t.kids, idx + 1, places);
    SeekKidsIsQuery(parse, payload, start, places, idx + 1, t.kids, a, b, fuel - 1);
    SeekLocals(parse, payload, start, t.locals, ptrs, a, b, fuel - 1, QueryKids(t.kids, a, b));
    SeekStep(parse, payload, start, places[idx], LocalItems(t.locals) + ptrs, a, b, fuel, Query(t, a, b));
  }

  lemma {:induction false} SeekKidsIsQuery(parse: Parser<TimeEntry, RangeTag>, payload: seq<U8>, start: nat, places: seq<Place>, idx: nat, ks: TimeKids,
                                           a: Time, b: Time, fuel: nat)
    requires ParsedKids(parse, payload, start, places, idx, ks) && fuel >= HeightKids(ks)
    ensures SeekItems(parse, payload, start, PtrItems(ks, idx, places), a, b, fuel) == Some(QueryKids(ks, a, b))
    decreases ks
  {
    match ks
    case NoKids =>
      assert SeekItems(parse, payload, start, [], a, b, fuel) == Some([]);
    case Kid(tag, child, rest) =>
      var next := idx + Count(child);
      SeekIsQuery(parse, payload, start, places, idx, child, a, b, fuel);
      SeekKidsIsQuery(parse, payload, start, places, next, rest, a, b, fuel);
      SeekKid(parse, payload, start, tag, PlaceOf(places, idx), PtrItems(rest, next, places), a, b, fuel,
              Query(child, a, b), QueryKids(rest, a, b));
  }

  /** A time-window query on the bytes of a written index: it finds every node whose time span meets
      the window, and only nodes of the index. */
  lemma WindowQuery(entries: seq<TimeEntry>, payload: seq<U8>, start: nat, t: TimeTree, places: seq<Place>,
                    a: Time, b: Time, fuel: nat) returns (found: seq<TimeEntry>)
    requires Indexes(entries, payload, start, t, places) && fuel >= 11
    ensures SeekPage(ParseTimes, payload, start, places[0], a, b, fuel) == Some(found)
    ensures forall e :: e in entries && Overlaps(e, a, b) ==> e in found
    ensures forall e :: e in found ==> e in entries
  {
    SeekIsQuery(ParseTimes, payload, start, places, 0, t, a, b, fuel);
    found := Query(t, a, b);
    forall e ensures e in Contents(t) <==> e in entries {
      assert e in Contents(t) <==> e in multiset(Contents(t));
    }
    forall e | e in entries && Overlaps(e, a, b) ensures e in found {
      QueryComplete(t, entries, a, b, e);
    }
    forall e | e in found ensures e in entries {
      QuerySound(t, a, b, e);
    }
  }

  /** Samples of the first `n` times: some of them, in order. */
  ghost predicate SampledTo(times: seq<Time>, n: nat, samples: seq<Time>)
    requires n <= |times|
  {
    Ascending(samples) && (forall t :: t in samples ==> t in times[..n]) &&
    (n > 0 ==> samples != [] && samples[0] == times[0]) && |samples| <= n
  }

  /** The multiples of `stride` below `n` are those of `0` to `k - 1`. */
  ghost predicate Multiples(n: nat, k: nat, stride: nat) {
    n <= k * stride && (k > 0 ==> (k - 1) * stride < n)
  }

  lemma MultiplesStep(n: nat, k: nat, stride: nat)
    requires stride > 0 && Multiples(n, k, stride)
    ensures n % stride == 0 <==> n == k * stride
    ensures n == k * stride ==> Multiples(n + 1, k + 1, stride)
    ensures n != k * stride ==> Multiples(n + 1, k, stride)
  {
    assert (k + 1) * stride == k * stride + stride;
    if n == k * stride {
      DivModUnique(k, stride, 0);
    } else {
      assert k > 0 && (k - 1) * stride + stride == k * stride;
      DivModUnique(k - 1, stride, n - (k - 1) * stride);
    }
  }

  lemma MultiplesCount(n: nat, k: nat, stride: nat)
    requires stride > 0 && n > 0 && Multiples(n, k, stride)
    ensures k == (n - 1) / stride + 1
    ensures forall j: nat :: j * stride < n ==> j < k
  {
    assert (k - 1) * stride + stride == k * stride;
    DivModUnique(k - 1, stride, n - 1 - (k - 1) * stride);
    forall j: nat | j * stride < n ensures j < k {
      if j >= k { MulLe(k, j, stride); }
    }
  }

  /** Sample `j` is time `j * stride`. */
  ghost predicate Strided(times: seq<Time>, stride: nat, k: nat, samples: seq<Time>) {
    k <= |samples| && forall j: nat :: j < k ==> j * stride < |times| && samples[j] == times[j * stride]
  }

  lemma StridedStep(times: seq<Time>, stride: nat, k: nat, samples: seq<Time>, t: Time)
    requires Strided(times, stride, k, samples)
    ensures Strided(times, stride, k, samples + [t])
    ensures |samples| == k && k * stride < |times| && t == times[k * stride] ==> Strided(times, stride, k + 1, samples + [t])
  {
    forall j: nat | j < k ensures j * stride < |times| && (samples + [t])[j] == times[j * stride] {
      assert samples[j] == times[j * stride];
    }
  }

  /** Exactly every `stride`-th time, and the last one. */
  ghost predicate EveryStride(times: seq<Time>, stride: nat, samples: seq<Time>)
    requires stride > 0
  {
    if times == [] then samples == []
    else
      var last := |times| - 1;
      (forall j: nat :: j * stride < |times| ==> j < |samples| && samples[j] == times[j * stride]) &&
      |samples| == last / stride + 1 + (if last % stride == 0 then 0 else 1) &&
      samples[|samples| - 1] == times[last]
  }

  /** Where the loop stands before time `n`; the last time, when it is no multiple, comes extra. */
  ghost predicate Striding(times: seq<Time>, stride: nat, n: nat, k: nat, samples: seq<Time>)
    requires stride > 0 && n <= |times|
  {
    Multiples(n, k, stride) && Strided(times, stride, k, samples) &&
    |samples| == k + (if n > 0 && n == |times| && (n - 1) % stride != 0 then 1 else 0) &&
    (n > 0 && n == |times| ==> samples != [] && samples[|samples| - 1] == times[n - 1])
  }

  lemma StridingStep(times: seq<Time>, stride: nat, n: nat, k: nat, samples: seq<Time>)
    requires stride > 0 && n < |times| && Striding(times, stride, n, k, samples)
    ensures n % stride == 0 ==> Striding(times, stride, n + 1, k + 1, samples + [times[n]])
    ensures n % stride != 0 && n == |times| - 1 ==> Striding(times, stride, n + 1, k, samples + [times[n]])
    ensures n % stride != 0 && n < |times| - 1 ==> Striding(times, stride, n + 1, k, samples)
  {
    MultiplesStep(n, k, stride);
    StridedStep(times, stride, k, samples, times[n]);
  }

  lemma StridingDone(times: seq<Time>, stride: nat, k: nat, samples: seq<Time>)
    requires stride > 0 && Striding(times, stride, |times|, k, samples)
    ensures EveryStride(times, stride, samples)
  {
    if times != [] {
      MultiplesCount(|times|, k, stride);
    }
  }

  lemma SortedSnoc(s: seq<Time>, t: Time)
    requires Ascending(s) && forall x :: x in s ==> Rank(x) <= Rank(t)
    ensures Ascending(s + [t])
  {
    var s' := s + [t];
    forall i, j | 0 <= i < j < |s'| ensures Rank(s'[i]) <= Rank(s'[j]) {
      assert s'[i] == s[i] && s[i] in s;
    }
  }

  /** The sampling of one node: every `stride`-th time and the last one. First and last sample are
      the node's least and greatest time, so time ranges over samples are ranges over all points. */
  method SampleTimes(times: seq<Time>, stride: nat) returns (samples: seq<Time>)
    requires stride > 0 && Ascending(times)
    ensures SampledTo(times, |times|, samples) && (AllFinite(times) ==> AllFinite(samples))
    ensures EveryStride(times, stride, samples)
    ensures times != [] ==> samples[0] == times[0] && samples[|samples| - 1] == times[|times| - 1]
  {
    samples := [];
    ghost var k := 0;
    for i := 0 to |times|
      invariant SampledTo(times, i, samples)
      invariant Striding(times, stride, i, k, samples)
    {
      StridingStep(times, stride, i, k, samples);
      SampleMore(times, i, samples);
      if i % stride == 0 || i == |times| - 1 {
        samples := samples + [times[i]];
      }
      k := if i % stride == 0 then k + 1 else k;
    }
    StridingDone(times, stride, k, samples);
    SamplesFinite(times, samples);
  }

  lemma SampleMore(times: seq<Time>, i: nat, samples: seq<Time>)
    requires i < |times| && Ascending(times) && SampledTo(times, i, samples)
    ensures SampledTo(times, i + 1, samples + [times[i]]) && (i > 0 ==> SampledTo(times, i + 1, samples))
  {
    assert times[..i + 1] == times[..i] + [times[i]];
    forall t | t in samples ensures Rank(t) <= Rank(times[i]) {
      var j :| 0 <= j < i && times[j] == t;
    }
    SortedSnoc(samples, times[i]);
  }

  lemma SamplesFinite(times: seq<Time>, samples: seq<Time>)
    requires forall t :: t in samples ==> t in times[..|times|]
    ensures AllFinite(times) ==> AllFinite(samples)
  {
    if AllFinite(times) {
      forall i | 0 <= i < |samples| ensures Finite(samples[i]) {
        assert samples[i] in times[..|times|];
      }
    }
  }

  /** A node with a point in the window overlaps it, whatever points the sampling dropped. */
  lemma PointMeetsWindow(key: VoxelKey, times: seq<Time>, samples: seq<Time>, a: Time, b: Time, i: nat)
    requires Ascending(times) && i < |times| && Between(a, times[i], b) && samples != []
    requires samples[0] == times[0] && samples[|samples| - 1] == times[|times| - 1]
    ensures Overlaps(TimeEntry(key, samples), a, b)
  {
    assert Rank(times[0]) <= Rank(times[i]) <= Rank(times[|times| - 1]);
  }
}
