/** The paged COPC hierarchy of src/writer.rs: the recursive page builder, the payload with
    patched pointers, and the round trip through a reader that follows them. */
module Hierarchy {
  import opened Bytes
  import opened Voxel
  import opened Points
  import opened Framing
  import opened Levels
  import opened PagedLayout
  import opened PageShape
  import opened Buckets
  import opened PageSplit
  import opened HierarchyFormat

  function KeyOf(e: Entry): VoxelKey {
    e.key
  }

  /** What the builder is given for the page below `r`. */
  ghost predicate PageInput(entries: seq<Entry>, r: VoxelKey, boundaries: seq<nat>, bi: nat, maxLevel: nat) {
    DistinctKeys(KeyOf, entries) && EntriesOk(entries) && BoundariesFor(boundaries, maxLevel) && maxLevel <= MAX_LEVEL &&
    bi <= |boundaries| && r.level == RootLevel(bi) &&
    forall e :: e in entries ==> Under(e.key, r) && e.key.level <= maxLevel
  }

  type PageFormat = Format<Entry, VoxelKey>

  /** What it leaves: the pages of a tree whose records are exactly the entries, after the pages
      that were there. */
  ghost predicate Built(fmt: PageFormat, entries: seq<Entry>, r: VoxelKey, before: seq<Page>, pages: seq<Page>, t: PageTree, height: nat) {
    |pages| == |before| + Count(t) && SamePages(before, pages, 0, |before|) &&
    Holds(fmt, pages, |before|, t) && TreeOk(t, r) && Height(t) <= height &&
    multiset(Contents(t)) == multiset(entries)
  }

  lemma {:induction false} AddKidTags(ks: PageKids, k: VoxelKey, t: PageTree)
    ensures Tags(AddKid(ks, k, t)) == Tags(ks) + [k]
    ensures KidsOk(ks) && TreeOk(t, k) ==> KidsOk(AddKid(ks, k, t))
    ensures HeightKids(AddKid(ks, k, t)) == if Height(t) > HeightKids(ks) then Height(t) else HeightKids(ks)
  {
    match ks
    case NoKids =>
    case Kid(_, _, rest) => AddKidTags(rest, k, t);
  }

  type Groups = map<VoxelKey, seq<Entry>>

  /** The child pages built so far, and the list of them. */
  ghost predicate KidPages(fmt: PageFormat, before: seq<Page>, pages: seq<Page>,
                           ks: PageKids, children: seq<Child<VoxelKey>>, height: nat) {
    ChildPages(fmt, before, pages, ks) && ChildTrees(|before| + 1, ks, children, height)
  }

  /** Their records, with the groups `todo` still to come. */
  ghost predicate KidRecords(groups: Groups, todo: Groups, ks: PageKids) {
    multiset(ContentsKids(ks)) + Pooled(todo) == Pooled(groups) && TagsDone(groups, todo, ks)
  }

  ghost predicate ChildTrees(first: nat, ks: PageKids, children: seq<Child<VoxelKey>>, height: nat) {
    KidsOk(ks) && HeightKids(ks) <= height && children == ChildList(ks, first)
  }

  ghost predicate TagsDone(groups: Groups, todo: Groups, ks: PageKids) {
    Distinct(Tags(ks)) && (forall k :: k in todo ==> k in groups && todo[k] == groups[k]) &&
    forall k :: k in Tags(ks) <==> k in groups && k !in todo
  }

  lemma TagsStep(groups: Groups, todo: Groups, ks: PageKids, k: VoxelKey, t: PageTree)
    requires TagsDone(groups, todo, ks) && k in todo
    ensures TagsDone(groups, todo - {k}, AddKid(ks, k, t))
  {
    AddKidTags(ks, k, t);
  }

  lemma TreesStep(first: nat, ks: PageKids, children: seq<Child<VoxelKey>>, height: nat, k: VoxelKey, t: PageTree)
    requires ChildTrees(first, ks, children, height) && TreeOk(t, k) && Height(t) <= height
    ensures ChildTrees(first, AddKid(ks, k, t), children + [Child(k, first + CountKids(ks))], height)
  {
    AddKidTags(ks, k, t);
    AddKidChildren(ks, first, k, t);
  }

  lemma ContentsStep(groups: Groups, todo: Groups, ks: PageKids, k: VoxelKey, t: PageTree)
    requires k in todo && multiset(Contents(t)) == multiset(todo[k])
    requires multiset(ContentsKids(ks)) + Pooled(todo) == Pooled(groups)
    ensures multiset(ContentsKids(AddKid(ks, k, t))) + Pooled(todo - {k}) == Pooled(groups)
  {
    AddKidFacts(ks, k, t);
    PooledRemove(todo, k);
    Shuffle(multiset(ContentsKids(ks)), Pooled(todo - {k}), multiset(Contents(t)));
    assert multiset(ContentsKids(ks) + Contents(t)) == multiset(ContentsKids(ks)) + multiset(Contents(t));
    assert multiset(Contents(t)) + Pooled(todo - {k}) == Pooled(todo - {k}) + multiset(Contents(t));
  }

  lemma KidPagesStep(fmt: PageFormat, before: seq<Page>, mid: seq<Page>, after: seq<Page>,
                     ks: PageKids, children: seq<Child<VoxelKey>>, height: nat, group: seq<Entry>, k: VoxelKey, t: PageTree)
    requires KidPages(fmt, before, mid, ks, children, height) && Built(fmt, group, k, mid, after, t, height)
    ensures KidPages(fmt, before, after, AddKid(ks, k, t), children + [Child(k, |mid|)], height)
  {
    ChildPagesStep(fmt, before, mid, after, ks, k, t);
    TreesStep(|before| + 1, ks, children, height, k, t);
  }

  lemma KidRecordsStep(groups: Groups, todo: Groups, ks: PageKids, k: VoxelKey, t: PageTree)
    requires KidRecords(groups, todo, ks) && k in todo && multiset(Contents(t)) == multiset(todo[k])
    ensures KidRecords(groups, todo - {k}, AddKid(ks, k, t))
  {
    ContentsStep(groups, todo, ks, k, t);
    TagsStep(groups, todo, ks, k, t);
  }

  /** A group is valid input for its own page. */
  lemma GroupInput(entries: seq<Entry>, r: VoxelKey, boundaries: seq<nat>, bi: nat, maxLevel: nat,
                   stay: seq<Entry>, groups: Groups, k: VoxelKey)
    requires PageInput(entries, r, boundaries, bi, maxLevel) && bi < |boundaries| && k in groups
    requires SplitTo(KeyOf, entries, |entries|, boundaries[bi], boundaries[bi], stay, groups)
    ensures PageInput(groups[k], k, boundaries, bi + 1, maxLevel)
  {
    assert entries[..|entries|] == entries;
    assert GroupFor(KeyOf, entries, boundaries[bi], boundaries[bi], k, groups[k]);
    forall e | e in groups[k] ensures Under(e.key, k) && e.key.level <= maxLevel && KeyOk(e.key) && e.pointCount != -1 {
      assert Under(KeyOf(e), k);
    }
  }

  lemma TagWithin(entries: seq<Entry>, r: VoxelKey, limit: nat, k: VoxelKey, group: seq<Entry>)
    requires GroupFor(KeyOf, entries, limit, limit, k, group) && EntriesOk(entries)
    requires (forall e :: e in entries ==> Under(e.key, r)) && limit == r.level + 3
    ensures KeyOk(k) && Within(k, r) && k.level == limit
  {
    forall e | e in entries ensures Under(KeyOf(e), r) {
    }
    GroupUnder(KeyOf, entries, limit, limit, k, group, r);
    assert group[0] in group;
    assert Under(KeyOf(group[0]), k) && group[0] in entries;
    AncestorOk(group[0].key, k);
  }

  /** The split page names distinct keys at most three levels below its root. */
  lemma SplitPageOk(entries: seq<Entry>, r: VoxelKey, limit: nat, stay: seq<Entry>, groups: Groups, ks: PageKids, none: Groups)
    requires EntriesOk(entries) && (forall e :: e in entries ==> Under(e.key, r)) && limit == r.level + 3
    requires Staying(KeyOf, entries, limit, stay)
    requires forall k :: k in groups ==> GroupFor(KeyOf, entries, limit, limit, k, groups[k])
    requires none == map[] && TagsDone(groups, none, ks)
    ensures PageOk(Tree(stay, ks), r)
  {
    var keys := PageKeys(Tree(stay, ks));
    forall k | k in Tags(ks) ensures KeyOk(k) && Within(k, r) && k.level == limit {
      TagWithin(entries, r, limit, k, groups[k]);
    }
    forall e | e in stay ensures KeyOk(e.key) && e.pointCount != -1 && Within(e.key, r) && e.key.level < limit {
      assert KeyOf(e).level < limit;
    }
    StayDistinct(stay);
    DistinctJoin(StayKeys(stay), Tags(ks), limit);
  }

  function StayKeys(stay: seq<Entry>): seq<VoxelKey> {
    seq(|stay|, i requires 0 <= i < |stay| => stay[i].key)
  }

  lemma StayDistinct(stay: seq<Entry>)
    requires DistinctKeys(KeyOf, stay)
    ensures Distinct(StayKeys(stay))
  {
    forall i, j | 0 <= i < j < |stay| ensures stay[i].key != stay[j].key {
      assert KeyOf(stay[i]) != KeyOf(stay[j]);
    }
  }

  lemma DistinctJoin(a: seq<VoxelKey>, b: seq<VoxelKey>, limit: nat)
    requires Distinct(a) && Distinct(b)
    requires (forall i :: 0 <= i < |a| ==> a[i].level < limit) && (forall k :: k in b ==> k.level == limit)
    ensures Distinct(a + b)
  {
  }

  /** The last page of a subtree: everything within three levels. */
  lemma LeafPageOk(entries: seq<Entry>, r: VoxelKey, boundaries: seq<nat>, bi: nat, maxLevel: nat)
    requires PageInput(entries, r, boundaries, bi, maxLevel) && (bi == |boundaries| || entries == [])
    ensures PageOk(Tree(entries, NoKids), r)
  {
    StayDistinct(entries);
    assert StayKeys(entries) + Tags(NoKids) == StayKeys(entries);
    forall i | 0 <= i < |entries| ensures Within(entries[i].key, r) {
      assert entries[i] in entries;
    }
  }

  lemma LeafBuilt(fmt: PageFormat, entries: seq<Entry>, r: VoxelKey, before: seq<Page>, t: PageTree, height: nat)
    requires t == Tree(entries, NoKids) && PageOk(t, r) && height >= 1
    ensures Built(fmt, entries, r, before, before + [PageOf(fmt, t, |before|)], t, height)
  {
    assert entries + [] == entries;
  }

  lemma SplitBuilt(fmt: PageFormat, entries: seq<Entry>, r: VoxelKey, before: seq<Page>, mid: seq<Page>, t: PageTree,
                   groups: Groups, children: seq<Child<VoxelKey>>, height: nat)
    requires KidPages(fmt, before, mid, t.kids, children, height) && KidRecords(groups, map[], t.kids) && PageOk(t, r)
    requires multiset(t.locals) + Pooled(groups) == multiset(entries)
    ensures Built(fmt, entries, r, before, mid[|before| := PageOf(fmt, t, |before|)], t, height + 1)
  {
    var after := mid[|before| := PageOf(fmt, t, |before|)];
    HoldsKidsElsewhere(fmt, mid, after, |before| + 1, t.kids);
    AllRecords(entries, t, groups);
  }

  lemma AllRecords(entries: seq<Entry>, t: PageTree, groups: Groups)
    requires KidRecords(groups, map[], t.kids) && multiset(t.locals) + Pooled(groups) == multiset(entries)
    ensures multiset(Contents(t)) == multiset(entries)
  {
    var none: Groups := map[];
    assert Pooled(none) == multiset{};
    assert multiset(Contents(t)) == multiset(t.locals) + multiset(ContentsKids(t.kids));
  }

  /** `build_hierarchy_page_recursive`. */
  method BuildPage(list: PageList, fmt: PageFormat, entries: seq<Entry>, boundaries: seq<nat>, bi: nat, ghost r: VoxelKey, ghost maxLevel: nat)
    returns (idx: nat, ghost t: PageTree)
    requires PageInput(entries, r, boundaries, bi, maxLevel)
    modifies list
    ensures idx == |old(list.pages)|
    ensures Built(fmt, entries, r, old(list.pages), list.pages, t, |boundaries| - bi + 1)
    decreases |boundaries| - bi
  {
    ghost var before := list.pages;
    if bi >= |boundaries| || entries == [] {
      t := Tree(entries, NoKids);
      LeafPageOk(entries, r, boundaries, bi, maxLevel);
      var page := WritePage(fmt, entries, [], NoKids, |before|);
      idx := list.Push(page);
      LeafBuilt(fmt, entries, r, before, t, |boundaries| - bi + 1);
      return;
    }
    var boundary := boundaries[bi];
    var stay, groups := SplitEntries(KeyOf, entries, boundary, boundary);
    assert entries[..|entries|] == entries;
    idx := list.Push(Page([], []));
    ghost var ks: PageKids;
    var children: seq<Child<VoxelKey>>;
    children, ks := BuildChildren(list, fmt, entries, boundaries, bi, r, maxLevel, stay, groups, before);
    t := Tree(stay, ks);
    SplitPageOk(entries, r, boundary, stay, groups, ks, map[]);
    var page := WritePage(fmt, stay, children, ks, idx);
    ghost var mid := list.pages;
    list.pages := list.pages[idx := page];
    SplitBuilt(fmt, entries, r, before, mid, t, groups, children, |boundaries| - bi);
  }

  lemma ChildrenStart(fmt: PageFormat, groups: Groups, before: seq<Page>, page: Page, height: nat)
    ensures KidPages(fmt, before, before + [page], NoKids, [], height) && KidRecords(groups, groups, NoKids)
  {
    assert multiset(ContentsKids<Entry, VoxelKey>(NoKids)) == multiset{};
  }

  /** Recurse into every group, in any order. */
  method BuildChildren(list: PageList, fmt: PageFormat, entries: seq<Entry>, boundaries: seq<nat>, bi: nat, ghost r: VoxelKey, ghost maxLevel: nat,
                       ghost stay: seq<Entry>, groups: Groups, ghost before: seq<Page>)
    returns (children: seq<Child<VoxelKey>>, ghost ks: PageKids)
    requires PageInput(entries, r, boundaries, bi, maxLevel) && bi < |boundaries|
    requires SplitTo(KeyOf, entries, |entries|, boundaries[bi], boundaries[bi], stay, groups)
    requires list.pages == before + [Page([], [])]
    modifies list
    ensures KidPages(fmt, before, list.pages, ks, children, |boundaries| - bi) && KidRecords(groups, map[], ks)
    decreases |boundaries| - bi, 0
  {
    children, ks := [], NoKids;
    ChildrenStart(fmt, groups, before, Page([], []), |boundaries| - bi);
    var todo := groups;
    while todo != map[]
      invariant KidPages(fmt, before, list.pages, ks, children, |boundaries| - bi) && KidRecords(groups, todo, ks)
      decreases todo
    {
      var k :| k in todo;
      ghost var mid := list.pages;
      GroupInput(entries, r, boundaries, bi, maxLevel, stay, groups, k);
      var childIdx: nat;
      ghost var child: PageTree;
      childIdx, child := BuildPage(list, fmt, todo[k], boundaries, bi + 1, k, maxLevel);
      KidPagesStep(fmt, before, mid, list.pages, ks, children, |boundaries| - bi, todo[k], k, child);
      KidRecordsStep(groups, todo, ks, k, child);
      children, ks, todo := children + [Child(k, childIdx)], AddKid(ks, k, child), todo - {k};
    }
  }

  /** The entries a hierarchy can hold: one per key, keys in range, no pointer marker. */
  ghost predicate Valid(entries: seq<Entry>) {
    DistinctKeys(KeyOf, entries) && EntriesOk(entries)
  }

  /** What the payload promises a reader: from the root range, following pointers reads each entry
      exactly once and visits the pages that tile the payload, each exactly once, in order. */
  ghost predicate RoundTrips(entries: seq<Entry>, payload: seq<U8>, start: nat, root: Place) {
    exists v: Visit<Entry> :: ReadsAs(entries, payload, start, root, v)
  }

  ghost predicate ReadsAs(entries: seq<Entry>, payload: seq<U8>, start: nat, root: Place, v: Visit<Entry>) {
    (forall fuel :: fuel >= 11 ==> ReadPage(Parse, payload, start, root, fuel) == Some(v)) &&
    multiset(v.values) == multiset(entries) && Tiles(v.pages, start, |payload|) &&
    forall i :: 0 <= i < |v.pages| ==> v.pages[i].size <= RECORD_SIZE * PAGE_KEYS
  }

  lemma EmptyRead(start: nat, fuel: nat)
    requires fuel > 0
    ensures ReadPage(Parse, [], start, Place(start, 0), fuel) == Some(Visit([], [Place(start, 0)]))
  {
    var payload: seq<U8>, none: seq<PageItem> := [], [];
    assert payload[start - start..start - start + 0] == [];
    var v: Visit<Entry> := Visit([], []);
    assert [Place(start, 0)] + v.pages == [Place(start, 0)];
    PageStep(Parse, payload, start, Place(start, 0), fuel, none, v);
  }

  lemma EmptyRoundTrip(start: nat, entries: seq<Entry>)
    requires entries == []
    ensures RoundTrips(entries, [], start, Place(start, 0))
  {
    var v: Visit<Entry> := Visit([], [Place(start, 0)]);
    forall fuel | fuel >= 11 ensures ReadPage(Parse, [], start, Place(start, 0), fuel) == Some(v) {
      EmptyRead(start, fuel);
    }
    assert ReadsAs(entries, [], start, Place(start, 0), v);
  }

  lemma PlacesFit(pages: seq<Page>, start: nat, places: seq<Place>, datas: seq<seq<U8>>)
    requires Laid(pages, start, places) && AllPatched(pages, places, datas)
    requires start + |Concat(datas)| < 0x1_0000_0000_0000_0000
    requires forall i :: 0 <= i < |pages| ==> |pages[i].data| <= RECORD_SIZE * PAGE_KEYS
    ensures PlacesOk(places)
  {
    PayloadStores(pages, start, places, datas);
  }

  /** The built tree, in its places, can be read. */
  lemma BuiltParses(entries: seq<Entry>, r: VoxelKey, pages: seq<Page>, t: PageTree, start: nat,
                    places: seq<Place>, datas: seq<seq<U8>>)
    requires Built(Fmt(), entries, r, [], pages, t, 11)
    requires Laid(pages, start, places) && AllPatched(pages, places, datas)
    requires start + |Concat(datas)| < 0x1_0000_0000_0000_0000
    ensures Parsed(Parse, Concat(datas), start, places, 0, t) && |places| == Count(t)
    ensures forall i :: 0 <= i < |places| ==> places[i].size <= RECORD_SIZE * PAGE_KEYS
  {
    TreeSizes(pages, 0, t, r);
    PlacesFit(pages, start, places, datas);
    PayloadStores(pages, start, places, datas);
    OkIsParseable(t, r);
    TreeReadable(t, 0, places);
    TreeParses(Fmt(), Parse, pages, Concat(datas), start, places, datas, 0, t);
  }

  lemma PayloadRoundTrip(entries: seq<Entry>, r: VoxelKey, pages: seq<Page>, t: PageTree, start: nat,
                         places: seq<Place>, datas: seq<seq<U8>>)
    requires Built(Fmt(), entries, r, [], pages, t, 11)
    requires Laid(pages, start, places) && AllPatched(pages, places, datas)
    requires start + |Concat(datas)| < 0x1_0000_0000_0000_0000
    ensures |places| > 0 && RoundTrips(entries, Concat(datas), start, places[0])
  {
    BuiltParses(entries, r, pages, t, start, places, datas);
    PagesTile(pages, start, places, datas);
    ParsedRoundTrip(entries, t, Concat(datas), start, places);
  }

  lemma ParsedRoundTrip(entries: seq<Entry>, t: PageTree, payload: seq<U8>, start: nat, places: seq<Place>)
    requires Parsed(Parse, payload, start, places, 0, t) && |places| == Count(t) && Height(t) <= 11
    requires multiset(Contents(t)) == multiset(entries) && Tiles(places, start, |payload|)
    requires forall i :: 0 <= i < |places| ==> places[i].size <= RECORD_SIZE * PAGE_KEYS
    ensures RoundTrips(entries, payload, start, places[0])
  {
    var v := Visit(Contents(t), places);
    forall fuel | fuel >= 11 ensures ReadPage(Parse, payload, start, places[0], fuel) == Some(v) {
      ReadAll(Parse, payload, start, places, t, fuel);
    }
    assert ReadsAs(entries, payload, start, places[0], v);
  }

  lemma RootInput(entries: seq<Entry>, boundaries: seq<nat>, maxLevel: nat, root: VoxelKey)
    requires Valid(entries) && BoundariesFor(boundaries, maxLevel) && root == ROOT && maxLevel <= MAX_LEVEL
    requires forall e :: e in entries ==> e.key.level <= maxLevel
    ensures PageInput(entries, root, boundaries, 0, maxLevel) && |boundaries| <= 10
  {
    forall e | e in entries ensures Under(e.key, root) {
      InRangeUnderRoot(e.key);
    }
    if |boundaries| > 0 {
      assert boundaries[|boundaries| - 1] == RootLevel(|boundaries|);
    }
  }

  /** `build_hierarchy_payload`. The round trip holds whenever the file's offsets fit 64 bits. */
  method BuildHierarchyPayload(entries: seq<Entry>, start: nat) returns (payload: seq<U8>, root: Place)
    requires Valid(entries)
    ensures start + |payload| < 0x1_0000_0000_0000_0000 ==> RoundTrips(entries, payload, start, root)
  {
    if entries == [] {
      EmptyRoundTrip(start, entries);
      return [], Place(start, 0);
    }
    var maxLevel := MaxLevel(KeyOf, entries);
    var boundaries := ChoosePageBoundaries(maxLevel);
    forall e | e in entries ensures e.key.level <= maxLevel {
      assert KeyOf(e).level <= maxLevel;
    }
    RootInput(entries, boundaries, maxLevel, ROOT);
    var list := new PageList();
    var rootIdx: nat;
    ghost var t: PageTree;
    rootIdx, t := BuildPage(list, Fmt(), entries, boundaries, 0, ROOT, maxLevel);
    var pages := list.pages;
    var places := LayOut(pages, start);
    var datas := PatchPages(pages, places);
    payload, root := Concat(datas), places[rootIdx];
    if start + |payload| < 0x1_0000_0000_0000_0000 {
      PayloadRoundTrip(entries, ROOT, pages, t, start, places, datas);
    }
  }
}
