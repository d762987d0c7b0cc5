/** Nested pages with patched child pointers, shared by the two indexes of src/writer.rs: pages
    are pushed parent first, laid out back to back, patched in place with their children's byte
    ranges, and read back by following pointers from the root. */
module PagedLayout {
  import opened Bytes
  import opened Voxel
  import opened Framing

  /** The page tree: a page's own records and its children, in pointer order. */
  datatype Tree<T, L> = Tree(locals: seq<T>, kids: Kids<T, L>)
  datatype Kids<T, L> = NoKids | Kid(tag: L, child: Tree<T, L>, rest: Kids<T, L>)

  /** One decoded record of a page. */
  datatype Item<T, L> = Local(value: T) | Ptr(tag: L, at: Place)

  /** Byte range of a page in the file. */
  datatype Place = Place(offset: nat, size: nat)

  /** Bytes of a page, and where in them a child's range goes. */
  datatype Page = Page(data: seq<U8>, patches: seq<PatchAt>)
  datatype PatchAt = PatchAt(pos: nat, child: nat)

  /** The flat list of pages a builder fills. */
  class PageList {
    var pages: seq<Page>

    constructor ()
      ensures pages == []
    {
      pages := [];
    }

    method Push(page: Page) returns (idx: nat)
      modifies this
      ensures idx == |old(pages)| && pages == old(pages) + [page]
    {
      idx := |pages|;
      pages := pages + [page];
    }
  }

  /** How records are written: a local record, and the parts of a pointer around its range. */
  datatype Format<!T, !L> = Format(local: T -> seq<U8>, head: L -> seq<U8>, tail: L -> seq<U8>)

  function Count<T, L>(t: Tree<T, L>): (n: nat)
    ensures n > 0
  {
    1 + CountKids(t.kids)
  }

  function CountKids<T, L>(ks: Kids<T, L>): nat {
    match ks
    case NoKids => 0
    case Kid(_, child, rest) => Count(child) + CountKids(rest)
  }

  function Height<T, L>(t: Tree<T, L>): nat {
    1 + HeightKids(t.kids)
  }

  function HeightKids<T, L>(ks: Kids<T, L>): nat {
    match ks
    case NoKids => 0
    case Kid(_, child, rest) => if Height(child) > HeightKids(rest) then Height(child) else HeightKids(rest)
  }

  /** All records of the tree, page by page. */
  function Contents<T, L>(t: Tree<T, L>): seq<T> {
    t.locals + ContentsKids(t.kids)
  }

  function ContentsKids<T, L>(ks: Kids<T, L>): seq<T> {
    match ks
    case NoKids => []
    case Kid(_, child, rest) => Contents(child) + ContentsKids(rest)
  }

  function Encode<T, L>(fmt: Format<T, L>, locals: seq<T>): seq<U8> {
    if locals == [] then [] else fmt.local(locals[0]) + Encode(fmt, locals[1..])
  }

  function PlaceOf(places: seq<Place>, i: nat): Place {
    if i < |places| then places[i] else Place(0, 0)
  }

  /** The patched part of a pointer: the child's offset and size. */
  function Range(at: Place): (b: seq<U8>)
    ensures |b| == 12
  {
    ToLE(at.offset, 8) + ToLE(at.size, 4)
  }

  function Pointer<T, L>(fmt: Format<T, L>, tag: L, at: Place): seq<U8> {
    fmt.head(tag) + Range(at) + fmt.tail(tag)
  }

  /** The pointers of a page whose first child is page `idx`. With no places, all placeholders. */
  function Pointers<T, L>(fmt: Format<T, L>, ks: Kids<T, L>, idx: nat, places: seq<Place>): seq<U8> {
    match ks
    case NoKids => []
    case Kid(tag, child, rest) =>
      Pointer(fmt, tag, PlaceOf(places, idx)) + Pointers(fmt, rest, idx + Count(child), places)
  }

  function Patches<T, L>(fmt: Format<T, L>, pos: nat, ks: Kids<T, L>, idx: nat): seq<PatchAt>
    decreases ks
  {
    match ks
    case NoKids => []
    case Kid(tag, child, rest) =>
      [PatchAt(pos + |fmt.head(tag)|, idx)] +
      Patches(fmt, pos + |fmt.head(tag)| + 12 + |fmt.tail(tag)|, rest, idx + Count(child))
  }

  /** The page built for a tree that starts at page `idx`, before patching. */
  function PageOf<T, L>(fmt: Format<T, L>, t: Tree<T, L>, idx: nat): Page {
    var body := Encode(fmt, t.locals);
    Page(body + Pointers(fmt, t.kids, idx + 1, []), Patches(fmt, |body|, t.kids, idx + 1))
  }

  /** The pages of a tree, parent first, children one after the other. */
  ghost predicate Holds<T, L>(fmt: Format<T, L>, pages: seq<Page>, idx: nat, t: Tree<T, L>)
    decreases t
  {
    idx < |pages| && pages[idx] == PageOf(fmt, t, idx) && HoldsKids(fmt, pages, idx + 1, t.kids)
  }

  ghost predicate HoldsKids<T, L>(fmt: Format<T, L>, pages: seq<Page>, idx: nat, ks: Kids<T, L>)
    decreases ks
  {
    match ks
    case NoKids => true
    case Kid(_, child, rest) => Holds(fmt, pages, idx, child) && HoldsKids(fmt, pages, idx + Count(child), rest)
  }

  /** Pages from `from` on agree. */
  ghost predicate SamePages(a: seq<Page>, b: seq<Page>, from: nat, to: nat) {
    to <= |a| && to <= |b| && forall i :: from <= i < to ==> a[i] == b[i]
  }

  lemma {:induction false} HoldsElsewhere<T, L>(fmt: Format<T, L>, a: seq<Page>, b: seq<Page>, idx: nat, t: Tree<T, L>)
    requires Holds(fmt, a, idx, t) && SamePages(a, b, idx, idx + Count(t))
    ensures Holds(fmt, b, idx, t)
    decreases t
  {
    HoldsKidsElsewhere(fmt, a, b, idx + 1, t.kids);
  }

  lemma {:induction false} HoldsKidsElsewhere<T, L>(fmt: Format<T, L>, a: seq<Page>, b: seq<Page>, idx: nat, ks: Kids<T, L>)
    requires HoldsKids(fmt, a, idx, ks) && SamePages(a, b, idx, idx + CountKids(ks))
    ensures HoldsKids(fmt, b, idx, ks)
    decreases ks
  {
    match ks
    case NoKids =>
    case Kid(_, child, rest) =>
      HoldsElsewhere(fmt, a, b, idx, child);
      HoldsKidsElsewhere(fmt, a, b, idx + Count(child), rest);
  }

  /** One more child after the others. */
  function AddKid<T, L>(ks: Kids<T, L>, tag: L, child: Tree<T, L>): Kids<T, L> {
    match ks
    case NoKids => Kid(tag, child, NoKids)
    case Kid(l, c, rest) => Kid(l, c, AddKid(rest, tag, child))
  }

  lemma {:induction false} AddKidFacts<T, L>(ks: Kids<T, L>, tag: L, child: Tree<T, L>)
    ensures CountKids(AddKid(ks, tag, child)) == CountKids(ks) + Count(child)
    ensures ContentsKids(AddKid(ks, tag, child)) == ContentsKids(ks) + Contents(child)
  {
    match ks
    case NoKids =>
    case Kid(_, c, rest) =>
      AddKidFacts(rest, tag, child);
      assert Contents(c) + (ContentsKids(rest) + Contents(child)) == Contents(c) + ContentsKids(rest) + Contents(child);
  }

  lemma {:induction false} AddKidHolds<T, L>(fmt: Format<T, L>, pages: seq<Page>, idx: nat, ks: Kids<T, L>, tag: L, child: Tree<T, L>)
    requires HoldsKids(fmt, pages, idx, ks) && Holds(fmt, pages, idx + CountKids(ks), child)
    ensures HoldsKids(fmt, pages, idx, AddKid(ks, tag, child))
    decreases ks
  {
    match ks
    case NoKids =>
      assert AddKid(ks, tag, child) == Kid(tag, child, NoKids);
    case Kid(l, c, rest) =>
      AddKidHolds(fmt, pages, idx + Count(c), rest, tag, child);
      HoldsKid(fmt, pages, idx, l, c, AddKid(rest, tag, child));
  }

  lemma HoldsKid<T, L>(fmt: Format<T, L>, pages: seq<Page>, idx: nat, tag: L, child: Tree<T, L>, rest: Kids<T, L>)
    requires Holds(fmt, pages, idx, child) && HoldsKids(fmt, pages, idx + Count(child), rest)
    ensures HoldsKids(fmt, pages, idx, Kid(tag, child, rest))
  {
  }

  /** The children of a page with their page numbers, the first being page `idx`. */
  function ChildList<T, L>(ks: Kids<T, L>, idx: nat): seq<Child<L>> {
    match ks
    case NoKids => []
    case Kid(tag, child, rest) => [Child(tag, idx)] + ChildList(rest, idx + Count(child))
  }

  datatype Child<L> = Child(tag: L, page: nat)

  lemma {:induction false} AddKidChildren<T, L>(ks: Kids<T, L>, idx: nat, tag: L, child: Tree<T, L>)
    ensures ChildList(AddKid(ks, tag, child), idx) == ChildList(ks, idx) + [Child(tag, idx + CountKids(ks))]
    decreases ks
  {
    match ks
    case NoKids =>
    case Kid(_, c, rest) => AddKidChildren(rest, idx + Count(c), tag, child);
  }

  /** Placeholder pointers, and the patches they need, for a list of children. */
  function Placeholders<T, L>(fmt: Format<T, L>, children: seq<Child<L>>): seq<U8> {
    if children == [] then [] else Pointer(fmt, children[0].tag, Place(0, 0)) + Placeholders(fmt, children[1..])
  }

  function PatchesFor<T, L>(fmt: Format<T, L>, pos: nat, children: seq<Child<L>>): seq<PatchAt>
    decreases |children|
  {
    if children == [] then []
    else
      var tag := children[0].tag;
      [PatchAt(pos + |fmt.head(tag)|, children[0].page)] +
      PatchesFor(fmt, pos + |fmt.head(tag)| + 12 + |fmt.tail(tag)|, children[1..])
  }

  lemma {:induction false} ChildrenOfKids<T, L>(fmt: Format<T, L>, pos: nat, ks: Kids<T, L>, idx: nat)
    ensures Placeholders(fmt, ChildList(ks, idx)) == Pointers(fmt, ks, idx, [])
    ensures PatchesFor(fmt, pos, ChildList(ks, idx)) == Patches(fmt, pos, ks, idx)
    decreases ks
  {
    match ks
    case NoKids =>
    case Kid(tag, c, rest) =>
      ChildrenOfKids(fmt, pos + |fmt.head(tag)| + 12 + |fmt.tail(tag)|, rest, idx + Count(c));
      assert ChildList(ks, idx)[1..] == ChildList(rest, idx + Count(c));
  }

  /** The pages `before`, a reserved slot, and then the pages of the children so far. */
  ghost predicate ChildPages<T, L>(fmt: Format<T, L>, before: seq<Page>, pages: seq<Page>, ks: Kids<T, L>) {
    |pages| == |before| + 1 + CountKids(ks) && SamePages(before, pages, 0, |before|) &&
    HoldsKids(fmt, pages, |before| + 1, ks)
  }

  lemma KidsStep<T, L>(fmt: Format<T, L>, idx: nat, mid: seq<Page>, after: seq<Page>, ks: Kids<T, L>, tag: L, t: Tree<T, L>)
    requires HoldsKids(fmt, mid, idx, ks) && |mid| == idx + CountKids(ks)
    requires SamePages(mid, after, 0, |mid|) && Holds(fmt, after, |mid|, t)
    ensures HoldsKids(fmt, after, idx, AddKid(ks, tag, t))
  {
    HoldsKidsElsewhere(fmt, mid, after, idx, ks);
    AddKidHolds(fmt, after, idx, ks, tag, t);
  }

  /** One more child, whose pages come after all the others. */
  lemma ChildPagesStep<T, L>(fmt: Format<T, L>, before: seq<Page>, mid: seq<Page>, after: seq<Page>,
                             ks: Kids<T, L>, tag: L, t: Tree<T, L>)
    requires ChildPages(fmt, before, mid, ks) && |after| == |mid| + Count(t)
    requires SamePages(mid, after, 0, |mid|) && Holds(fmt, after, |mid|, t)
    ensures ChildPages(fmt, before, after, AddKid(ks, tag, t))
  {
    KidsStep(fmt, |before| + 1, mid, after, ks, tag, t);
    AddKidFacts(ks, tag, t);
  }

  /** Serialise the local records. */
  method WriteLocals<T, L>(fmt: Format<T, L>, locals: seq<T>) returns (data: seq<U8>)
    ensures data == Encode(fmt, locals)
  {
    data := [];
    for i := 0 to |locals|
      invariant data + Encode(fmt, locals[i..]) == Encode(fmt, locals)
    {
      assert locals[i..][1..] == locals[i + 1..];
      Regroup(data, fmt.local(locals[i]), Encode(fmt, locals[i + 1..]));
      data := data + fmt.local(locals[i]);
    }
  }

  /** Where the pointer loop stands. */
  ghost predicate Writing<T, L>(fmt: Format<T, L>, body: seq<U8>, children: seq<Child<L>>, i: nat, data: seq<U8>, patches: seq<PatchAt>)
    requires i <= |children|
  {
    data + Placeholders(fmt, children[i..]) == body + Placeholders(fmt, children) &&
    patches + PatchesFor(fmt, |data|, children[i..]) == PatchesFor(fmt, |body|, children)
  }

  lemma WritingStep<T, L>(fmt: Format<T, L>, body: seq<U8>, children: seq<Child<L>>, i: nat, data: seq<U8>, patches: seq<PatchAt>)
    requires i < |children| && Writing(fmt, body, children, i, data, patches)
    ensures Writing(fmt, body, children, i + 1, data + Pointer(fmt, children[i].tag, Place(0, 0)),
                    patches + [PatchAt(|data| + |fmt.head(children[i].tag)|, children[i].page)])
  {
    var c := children[i];
    assert children[i..][1..] == children[i + 1..];
    var ptr := Pointer(fmt, c.tag, Place(0, 0));
    Regroup(data, ptr, Placeholders(fmt, children[i + 1..]));
    Regroup(patches, [PatchAt(|data| + |fmt.head(c.tag)|, c.page)], PatchesFor(fmt, |data + ptr|, children[i + 1..]));
  }

  /** Serialise a page: its records, then placeholder pointers with their patch positions. */
  method WritePage<T, L>(fmt: Format<T, L>, locals: seq<T>, children: seq<Child<L>>, ghost ks: Kids<T, L>, ghost idx: nat)
    returns (page: Page)
    requires children == ChildList(ks, idx + 1)
    ensures page == PageOf(fmt, Tree(locals, ks), idx)
  {
    var data := WriteLocals(fmt, locals);
    ghost var body := data;
    var patches: seq<PatchAt> := [];
    for i := 0 to |children|
      invariant Writing(fmt, body, children, i, data, patches)
    {
      WritingStep(fmt, body, children, i, data, patches);
      patches := patches + [PatchAt(|data| + |fmt.head(children[i].tag)|, children[i].page)];
      data := data + Pointer(fmt, children[i].tag, Place(0, 0));
    }
    assert data + [] == data && patches + [] == patches;
    ChildrenOfKids(fmt, |body|, ks, idx + 1);
    page := Page(data, patches);
  }

  /** Overwrite a pointer's range. */
  function Patch(data: seq<U8>, pos: nat, at: Place): seq<U8>
    requires pos + 12 <= |data|
  {
    data[..pos] + Range(at) + data[pos + 12..]
  }

  /** Patch every pointer of a page; patches out of the page are ignored. */
  function PatchAll(data: seq<U8>, patches: seq<PatchAt>, places: seq<Place>): (d: seq<U8>)
    ensures |d| == |data|
    decreases |patches|
  {
    if patches == [] then data
    else
      var p := patches[0];
      PatchAll(if p.pos + 12 <= |data| then Patch(data, p.pos, PlaceOf(places, p.child)) else data, patches[1..], places)
  }

  lemma PatchOne(a: seq<U8>, head: seq<U8>, hole: seq<U8>, tail: seq<U8>, b: seq<U8>, at: Place)
    requires |hole| == 12
    ensures var data := a + (head + hole + tail + b);
            |a| + |head| + 12 <= |data| &&
            Patch(data, |a| + |head|, at) == a + (head + Range(at) + tail) + b
  {
    var data := a + (head + hole + tail + b);
    assert data[..|a| + |head|] == a + head;
    assert data[|a| + |head| + 12..] == tail + b;
  }

  lemma PatchStep(data: seq<U8>, p: PatchAt, rest: seq<PatchAt>, places: seq<Place>)
    requires p.pos + 12 <= |data|
    ensures PatchAll(data, [p] + rest, places) == PatchAll(Patch(data, p.pos, PlaceOf(places, p.child)), rest, places)
  {
    assert ([p] + rest)[1..] == rest;
  }

  /** Patching fills every placeholder with its child's range and changes nothing else. */
  lemma {:induction false} PatchedPointers<T, L>(fmt: Format<T, L>, a: seq<U8>, ks: Kids<T, L>, idx: nat, places: seq<Place>)
    ensures PatchAll(a + Pointers(fmt, ks, idx, []), Patches(fmt, |a|, ks, idx), places) ==
            a + Pointers(fmt, ks, idx, places)
    decreases ks
  {
    match ks
    case NoKids =>
    case Kid(tag, child, rest) =>
      var at, next := PlaceOf(places, idx), idx + Count(child);
      var a' := a + Pointer(fmt, tag, at);
      PatchFirst(fmt, a, tag, at, Pointers(fmt, rest, next, []),
                 PatchAt(|a| + |fmt.head(tag)|, idx), Patches(fmt, |a'|, rest, next), places);
      PatchedPointers(fmt, a', rest, next, places);
      Regroup(a, Pointer(fmt, tag, at), Pointers(fmt, rest, next, places));
  }

  lemma PatchFirst<T, L>(fmt: Format<T, L>, a: seq<U8>, tag: L, at: Place, more: seq<U8>,
                         p: PatchAt, rest: seq<PatchAt>, places: seq<Place>)
    requires p.pos == |a| + |fmt.head(tag)| && PlaceOf(places, p.child) == at
    ensures PatchAll(a + (Pointer(fmt, tag, Place(0, 0)) + more), [p] + rest, places) ==
            PatchAll(a + Pointer(fmt, tag, at) + more, rest, places)
  {
    PatchBytes(a, fmt.head(tag), Range(Place(0, 0)), fmt.tail(tag), more, at, p, rest, places);
  }

  lemma PatchBytes(a: seq<U8>, head: seq<U8>, hole: seq<U8>, tail: seq<U8>, more: seq<U8>, at: Place,
                   p: PatchAt, rest: seq<PatchAt>, places: seq<Place>)
    requires |hole| == 12 && p.pos == |a| + |head| && PlaceOf(places, p.child) == at
    ensures PatchAll(a + (head + hole + tail + more), [p] + rest, places) ==
            PatchAll(a + (head + Range(at) + tail) + more, rest, places)
  {
    var data := a + (head + hole + tail + more);
    PatchOne(a, head, hole, tail, more, at);
    PatchStep(data, p, rest, places);
    assert Patch(data, p.pos, PlaceOf(places, p.child)) == a + (head + Range(at) + tail) + more;
  }

  /** Bytes before page `i`. */
  function BytesBefore(pages: seq<Page>, i: nat): nat
    requires i <= |pages|
  {
    if i == 0 then 0 else BytesBefore(pages, i - 1) + |pages[i - 1].data|
  }

  /** The first `n` pages laid back to back from `start`. */
  ghost predicate LaidTo(pages: seq<Page>, start: nat, places: seq<Place>, n: nat)
    requires n <= |pages|
  {
    |places| == n &&
    forall i: nat :: i < n ==> places[i] == Place(start + BytesBefore(pages, i), |pages[i].data|)
  }

  ghost predicate Laid(pages: seq<Page>, start: nat, places: seq<Place>) {
    LaidTo(pages, start, places, |pages|)
  }

  lemma LaidStep(pages: seq<Page>, start: nat, places: seq<Place>, n: nat, offset: nat)
    requires n < |pages| && LaidTo(pages, start, places, n) && offset == start + BytesBefore(pages, n)
    ensures LaidTo(pages, start, places + [Place(offset, |pages[n].data|)], n + 1)
  {
  }

  /** The sequential layout. */
  method LayOut(pages: seq<Page>, start: nat) returns (places: seq<Place>)
    ensures Laid(pages, start, places)
  {
    places := [];
    var offset := start;
    for i := 0 to |pages|
      invariant offset == start + BytesBefore(pages, i) && LaidTo(pages, start, places, i)
    {
      LaidStep(pages, start, places, i, offset);
      places := places + [Place(offset, |pages[i].data|)];
      offset := offset + |pages[i].data|;
    }
  }

  /** Every page patched. */
  ghost predicate AllPatched(pages: seq<Page>, places: seq<Place>, datas: seq<seq<U8>>) {
    |datas| == |pages| && forall i :: 0 <= i < |pages| ==> datas[i] == PatchAll(pages[i].data, pages[i].patches, places)
  }

  /** Patch one page's buffer in place. */
  method PatchPage(page: Page, places: seq<Place>) returns (data: seq<U8>)
    ensures data == PatchAll(page.data, page.patches, places)
  {
    data := page.data;
    for k := 0 to |page.patches|
      invariant PatchAll(page.data, page.patches, places) == PatchAll(data, page.patches[k..], places)
    {
      var p := page.patches[k];
      assert page.patches[k..][1..] == page.patches[k + 1..];
      if p.pos + 12 <= |data| {
        data := Patch(data, p.pos, PlaceOf(places, p.child));
      }
    }
  }

  method PatchPages(pages: seq<Page>, places: seq<Place>) returns (datas: seq<seq<U8>>)
    ensures AllPatched(pages, places, datas)
  {
    datas := [];
    for i := 0 to |pages|
      invariant |datas| == i
      invariant forall j :: 0 <= j < i ==> datas[j] == PatchAll(pages[j].data, pages[j].patches, places)
    {
      var data := PatchPage(pages[i], places);
      datas := datas + [data];
    }
  }

  /** Decoded page bytes, or nothing when they are malformed. */
  type Parser<!T, !L> = seq<U8> -> Option<seq<Item<T, L>>>

  /** What a traversal returns: the records, and the pages visited, in order. */
  datatype Visit<T> = Visit(values: seq<T>, pages: seq<Place>)

  function Join<T>(a: Visit<T>, b: Option<Visit<T>>): Option<Visit<T>> {
    match b
    case None => None
    case Some(v) => Some(Visit(a.values + v.values, a.pages + v.pages))
  }

  /** The pointer-following reader; `fuel` bounds the depth of the descent. */
  function ReadPage<T, L>(parse: Parser<T, L>, payload: seq<U8>, start: nat, at: Place, fuel: nat): Option<Visit<T>>
    decreases fuel, 0
  {
    if fuel == 0 || at.offset < start || at.offset - start + at.size > |payload| then None
    else
      match parse(payload[at.offset - start..at.offset - start + at.size])
      case None => None
      case Some(items) => Join(Visit([], [at]), ReadItems(parse, payload, start, items, fuel - 1))
  }

  function ReadItems<T, L>(parse: Parser<T, L>, payload: seq<U8>, start: nat, items: seq<Item<T, L>>, fuel: nat): Option<Visit<T>>
    decreases fuel, 1, |items|
  {
    if items == [] then Some(Visit([], []))
    else
      match items[0]
      case Local(v) => Join(Visit([v], []), ReadItems(parse, payload, start, items[1..], fuel))
      case Ptr(_, at) =>
        match ReadPage(parse, payload, start, at, fuel)
        case None => None
        case Some(v) => Join(v, ReadItems(parse, payload, start, items[1..], fuel))
  }

  lemma JoinJoin<T>(a: Visit<T>, b: Visit<T>, c: Option<Visit<T>>)
    ensures Join(a, Join(b, c)) == Join(Visit(a.values + b.values, a.pages + b.pages), c)
  {
    match c
    case None =>
    case Some(v) =>
      Regroup(a.values, b.values, v.values);
      Regroup(a.pages, b.pages, v.pages);
  }

  function LocalItems<T, L>(locals: seq<T>): seq<Item<T, L>> {
    if locals == [] then [] else [Local(locals[0])] + LocalItems(locals[1..])
  }

  function PtrItems<T, L>(ks: Kids<T, L>, idx: nat, places: seq<Place>): seq<Item<T, L>> {
    match ks
    case NoKids => []
    case Kid(tag, child, rest) => [Ptr(tag, PlaceOf(places, idx))] + PtrItems(rest, idx + Count(child), places)
  }

  /** A record (a pointer) written before bytes that parse is parsed before their items. */
  ghost predicate RecordParses<T(!new), L(!new)>(fmt: Format<T, L>, parse: Parser<T, L>, v: T) {
    forall rest, items :: parse(rest) == Some(items) ==> parse(fmt.local(v) + rest) == Some([Local(v)] + items)
  }

  ghost predicate PointerParses<T(!new), L(!new)>(fmt: Format<T, L>, parse: Parser<T, L>, tag: L, at: Place) {
    forall rest, items :: parse(rest) == Some(items) ==> parse(Pointer(fmt, tag, at) + rest) == Some([Ptr(tag, at)] + items)
  }

  ghost predicate PointersParse<T(!new), L(!new)>(fmt: Format<T, L>, parse: Parser<T, L>, ks: Kids<T, L>, idx: nat, places: seq<Place>)
    decreases ks
  {
    match ks
    case NoKids => true
    case Kid(tag, child, rest) =>
      PointerParses(fmt, parse, tag, PlaceOf(places, idx)) && PointersParse(fmt, parse, rest, idx + Count(child), places)
  }

  lemma {:induction false} ParsePointers<T(!new), L(!new)>(fmt: Format<T, L>, parse: Parser<T, L>, ks: Kids<T, L>, idx: nat, places: seq<Place>)
    requires PointersParse(fmt, parse, ks, idx, places) && parse([]) == Some([])
    ensures parse(Pointers(fmt, ks, idx, places)) == Some(PtrItems(ks, idx, places))
    decreases ks
  {
    match ks
    case NoKids =>
    case Kid(tag, child, rest) => ParsePointers(fmt, parse, rest, idx + Count(child), places);
  }

  lemma {:induction false} ParseLocals<T(!new), L(!new)>(fmt: Format<T, L>, parse: Parser<T, L>, locals: seq<T>,
                                                         rest: seq<U8>, items: seq<Item<T, L>>)
    requires (forall i :: 0 <= i < |locals| ==> RecordParses(fmt, parse, locals[i])) && parse(rest) == Some(items)
    ensures parse(Encode(fmt, locals) + rest) == Some(LocalItems(locals) + items)
  {
    if locals == [] {
      assert Encode(fmt, locals) + rest == rest;
      assert LocalItems<T, L>(locals) + items == items;
    } else {
      ParseLocals(fmt, parse, locals[1..], rest, items);
      assert RecordParses(fmt, parse, locals[0]);
      var more := Encode(fmt, locals[1..]);
      Regroup(fmt.local(locals[0]), more, rest);
      Regroup([Local(locals[0])], LocalItems(locals[1..]), items);
    }
  }

  /** A page whose records and pointers each parse, parses. */
  lemma ParsePage<T(!new), L(!new)>(fmt: Format<T, L>, parse: Parser<T, L>, t: Tree<T, L>, idx: nat, places: seq<Place>)
    requires parse([]) == Some([]) && PointersParse(fmt, parse, t.kids, idx + 1, places)
    requires forall i :: 0 <= i < |t.locals| ==> RecordParses(fmt, parse, t.locals[i])
    ensures parse(FinalData(fmt, t, idx, places)) == Some(LocalItems(t.locals) + PtrItems(t.kids, idx + 1, places))
  {
    ParsePointers(fmt, parse, t.kids, idx + 1, places);
    ParseLocals(fmt, parse, t.locals, Pointers(fmt, t.kids, idx + 1, places), PtrItems(t.kids, idx + 1, places));
  }

  /** The final bytes of a tree's root page. */
  function FinalData<T, L>(fmt: Format<T, L>, t: Tree<T, L>, idx: nat, places: seq<Place>): seq<U8> {
    Encode(fmt, t.locals) + Pointers(fmt, t.kids, idx + 1, places)
  }

  /** Every final page of the tree parses to its records and pointers. */
  ghost predicate Readable<T, L>(fmt: Format<T, L>, parse: Parser<T, L>, t: Tree<T, L>, idx: nat, places: seq<Place>) {
    parse(FinalData(fmt, t, idx, places)) == Some(LocalItems(t.locals) + PtrItems(t.kids, idx + 1, places)) &&
    ReadableKids(fmt, parse, t.kids, idx + 1, places)
  }

  ghost predicate ReadableKids<T, L>(fmt: Format<T, L>, parse: Parser<T, L>, ks: Kids<T, L>, idx: nat, places: seq<Place>) {
    match ks
    case NoKids => true
    case Kid(_, child, rest) =>
      Readable(fmt, parse, child, idx, places) && ReadableKids(fmt, parse, rest, idx + Count(child), places)
  }

  lemma ReadableKid<T, L>(fmt: Format<T, L>, parse: Parser<T, L>, tag: L, child: Tree<T, L>, rest: Kids<T, L>,
                          idx: nat, places: seq<Place>)
    requires Readable(fmt, parse, child, idx, places) && ReadableKids(fmt, parse, rest, idx + Count(child), places)
    ensures ReadableKids(fmt, parse, Kid(tag, child, rest), idx, places)
  {
  }

  /** The payload holds every page's final bytes in its place. */
  ghost predicate Stored(payload: seq<U8>, start: nat, places: seq<Place>, datas: seq<seq<U8>>) {
    |datas| == |places| &&
    forall i :: 0 <= i < |places| ==>
      start <= places[i].offset && places[i].offset - start + places[i].size <= |payload| &&
      payload[places[i].offset - start..places[i].offset - start + places[i].size] == datas[i]
  }

  lemma {:induction false} SliceOfConcat(datas: seq<seq<U8>>, i: nat, from: nat)
    requires i < |datas| && from == |Concat(datas[..i])|
    ensures from + |datas[i]| <= |Concat(datas)| && Concat(datas)[from..from + |datas[i]|] == datas[i]
    decreases i
  {
    if i > 0 {
      assert datas[1..][..i - 1] == datas[..i][1..];
      SliceOfConcat(datas[1..], i - 1, from - |datas[0]|);
      var n := |datas[0]|;
      var rest := Concat(datas[1..]);
      assert (datas[0] + rest)[from..from + |datas[i]|] == rest[from - n..from - n + |datas[i]|];
    } else {
      assert datas[..0] == [];
    }
  }

  lemma {:induction false} BytesOfPages(pages: seq<Page>, places: seq<Place>, datas: seq<seq<U8>>, i: nat)
    requires AllPatched(pages, places, datas) && i <= |pages|
    ensures |Concat(datas[..i])| == BytesBefore(pages, i)
  {
    if i > 0 {
      BytesOfPages(pages, places, datas, i - 1);
      ConcatTake(datas, i - 1);
    } else {
      assert datas[..0] == [];
    }
  }

  /** Laying out, patching and concatenating stores every page at its place. */
  lemma PayloadStores(pages: seq<Page>, start: nat, places: seq<Place>, datas: seq<seq<U8>>)
    requires Laid(pages, start, places) && AllPatched(pages, places, datas)
    ensures Stored(Concat(datas), start, places, datas)
  {
    forall i | 0 <= i < |places|
      ensures places[i].offset - start + places[i].size <= |Concat(datas)|
      ensures Concat(datas)[places[i].offset - start..places[i].offset - start + places[i].size] == datas[i]
    {
      BytesOfPages(pages, places, datas, i);
      SliceOfConcat(datas, i, BytesBefore(pages, i));
    }
  }

  /** Byte ranges, in order, tile `[start, start + n)`: no gap and no overlap. */
  ghost predicate Tiles(places: seq<Place>, start: nat, n: nat) {
    if places == [] then n == 0
    else
      places[0].offset == start && places[|places| - 1].offset + places[|places| - 1].size == start + n &&
      forall i :: 0 <= i < |places| - 1 ==> places[i].offset + places[i].size == places[i + 1].offset
  }

  /** Pages tile the payload. */
  lemma PagesTile(pages: seq<Page>, start: nat, places: seq<Place>, datas: seq<seq<U8>>)
    requires Laid(pages, start, places) && AllPatched(pages, places, datas)
    ensures Tiles(places, start, |Concat(datas)|)
  {
    BytesOfPages(pages, places, datas, |pages|);
    assert datas[..|pages|] == datas;
    forall i | 0 <= i < |places| - 1 ensures places[i].offset + places[i].size == places[i + 1].offset {
      assert BytesBefore(pages, i + 1) == BytesBefore(pages, i) + |pages[i].data|;
    }
  }

  lemma JoinNothing<T>(b: Option<Visit<T>>)
    ensures Join(Visit([], []), b) == b
  {
    match b
    case None =>
    case Some(v) => assert [] + v.values == v.values && [] + v.pages == v.pages;
  }

  lemma LocalStep<T, L>(parse: Parser<T, L>, payload: seq<U8>, start: nat, v: T, rest: seq<Item<T, L>>, fuel: nat)
    ensures ReadItems(parse, payload, start, [Local(v)] + rest, fuel) ==
            Join(Visit([v], []), ReadItems(parse, payload, start, rest, fuel))
  {
    assert ([Local(v)] + rest)[1..] == rest;
  }

  lemma {:induction false} ReadLocals<T, L>(parse: Parser<T, L>, payload: seq<U8>, start: nat,
                                            locals: seq<T>, items: seq<Item<T, L>>, fuel: nat)
    ensures ReadItems(parse, payload, start, LocalItems(locals) + items, fuel) ==
            Join(Visit(locals, []), ReadItems(parse, payload, start, items, fuel))
  {
    if locals == [] {
      assert LocalItems<T, L>(locals) + items == items;
      JoinNothing(ReadItems(parse, payload, start, items, fuel));
    } else {
      var v, more := locals[0], locals[1..];
      ReadLocals(parse, payload, start, more, items, fuel);
      Regroup([Local(v)], LocalItems(more), items);
      LocalStep(parse, payload, start, v, LocalItems(more) + items, fuel);
      JoinJoin(Visit([v], []), Visit(more, []), ReadItems(parse, payload, start, items, fuel));
      assert [v] + more == locals;
      var none: seq<Place> := [];
      assert none + none == none;
    }
  }

  lemma FinalPage<T, L>(fmt: Format<T, L>, pages: seq<Page>, places: seq<Place>, datas: seq<seq<U8>>, idx: nat, t: Tree<T, L>)
    requires AllPatched(pages, places, datas) && Holds(fmt, pages, idx, t)
    ensures datas[idx] == FinalData(fmt, t, idx, places)
  {
    PatchedPointers(fmt, Encode(fmt, t.locals), t.kids, idx + 1, places);
  }

  lemma PlacesJoin(places: seq<Place>, a: nat, b: nat, c: nat)
    requires a <= b <= c <= |places|
    ensures places[a..b] + places[b..c] == places[a..c]
  {
  }

  /** The page at a place parses to the given items. */
  ghost predicate Reads<T, L>(parse: Parser<T, L>, payload: seq<U8>, start: nat, at: Place, items: seq<Item<T, L>>) {
    start <= at.offset && at.offset - start + at.size <= |payload| &&
    parse(payload[at.offset - start..at.offset - start + at.size]) == Some(items)
  }

  /** Every page of the tree, in its place, parses to the page's records and pointers. */
  ghost predicate Parsed<T, L>(parse: Parser<T, L>, payload: seq<U8>, start: nat, places: seq<Place>, idx: nat, t: Tree<T, L>)
    decreases t
  {
    idx < |places| &&
    Reads(parse, payload, start, places[idx], LocalItems(t.locals) + PtrItems(t.kids, idx + 1, places)) &&
    ParsedKids(parse, payload, start, places, idx + 1, t.kids)
  }

  ghost predicate ParsedKids<T, L>(parse: Parser<T, L>, payload: seq<U8>, start: nat, places: seq<Place>, idx: nat, ks: Kids<T, L>)
    decreases ks
  {
    idx <= |places| &&
    match ks
    case NoKids => true
    case Kid(_, child, rest) =>
      Parsed(parse, payload, start, places, idx, child) &&
      ParsedKids(parse, payload, start, places, idx + Count(child), rest)
  }

  /** The finished payload, with its pages. */
  ghost predicate FinishedPages(pages: seq<Page>, payload: seq<U8>, start: nat, places: seq<Place>, datas: seq<seq<U8>>) {
    Stored(payload, start, places, datas) && AllPatched(pages, places, datas)
  }

  lemma PageParses<T, L>(fmt: Format<T, L>, parse: Parser<T, L>, pages: seq<Page>, payload: seq<U8>, start: nat,
                         places: seq<Place>, datas: seq<seq<U8>>, idx: nat, t: Tree<T, L>)
    requires FinishedPages(pages, payload, start, places, datas) && Holds(fmt, pages, idx, t)
    requires Readable(fmt, parse, t, idx, places)
    ensures idx < |places| &&
            Reads(parse, payload, start, places[idx], LocalItems(t.locals) + PtrItems(t.kids, idx + 1, places))
  {
    FinalPage(fmt, pages, places, datas, idx, t);
  }

  lemma {:induction false} TreeParses<T, L>(fmt: Format<T, L>, parse: Parser<T, L>, pages: seq<Page>, payload: seq<U8>, start: nat,
                                            places: seq<Place>, datas: seq<seq<U8>>, idx: nat, t: Tree<T, L>)
    requires FinishedPages(pages, payload, start, places, datas) && Holds(fmt, pages, idx, t)
    requires Readable(fmt, parse, t, idx, places) && idx + Count(t) <= |pages|
    ensures Parsed(parse, payload, start, places, idx, t)
    decreases t
  {
    PageParses(fmt, parse, pages, payload, start, places, datas, idx, t);
    KidsParse(fmt, parse, pages, payload, start, places, datas, idx + 1, t.kids);
  }

  lemma {:induction false} KidsParse<T, L>(fmt: Format<T, L>, parse: Parser<T, L>, pages: seq<Page>, payload: seq<U8>, start: nat,
                                           places: seq<Place>, datas: seq<seq<U8>>, idx: nat, ks: Kids<T, L>)
    requires FinishedPages(pages, payload, start, places, datas) && HoldsKids(fmt, pages, idx, ks)
    requires ReadableKids(fmt, parse, ks, idx, places) && idx + CountKids(ks) <= |pages|
    ensures ParsedKids(parse, payload, start, places, idx, ks)
    decreases ks
  {
    match ks
    case NoKids =>
    case Kid(tag, child, rest) =>
      TreeParses(fmt, parse, pages, payload, start, places, datas, idx, child);
      KidsParse(fmt, parse, pages, payload, start, places, datas, idx + Count(child), rest);
      ParsedKid(parse, payload, start, places, idx, tag, child, rest);
  }

  lemma ParsedKid<T, L>(parse: Parser<T, L>, payload: seq<U8>, start: nat, places: seq<Place>, idx: nat,
                        tag: L, child: Tree<T, L>, rest: Kids<T, L>)
    requires Parsed(parse, payload, start, places, idx, child)
    requires ParsedKids(parse, payload, start, places, idx + Count(child), rest)
    ensures ParsedKids(parse, payload, start, places, idx, Kid(tag, child, rest))
  {
  }

  /** One page read, given what its items give. */
  lemma PageStep<T, L>(parse: Parser<T, L>, payload: seq<U8>, start: nat, at: Place, fuel: nat,
                       items: seq<Item<T, L>>, v: Visit<T>)
    requires fuel > 0 && Reads(parse, payload, start, at, items)
    requires ReadItems(parse, payload, start, items, fuel - 1) == Some(v)
    ensures ReadPage(parse, payload, start, at, fuel) == Some(Visit(v.values, [at] + v.pages))
  {
    assert [] + v.values == v.values;
  }

  /** One pointer followed, given what the child and the rest give. */
  lemma KidStep<T, L>(parse: Parser<T, L>, payload: seq<U8>, start: nat, tag: L, at: Place, rest: seq<Item<T, L>>, fuel: nat,
                      a: Visit<T>, b: Visit<T>)
    requires ReadPage(parse, payload, start, at, fuel) == Some(a)
    requires ReadItems(parse, payload, start, rest, fuel) == Some(b)
    ensures ReadItems(parse, payload, start, [Ptr(tag, at)] + rest, fuel) ==
            Some(Visit(a.values + b.values, a.pages + b.pages))
  {
    assert ([Ptr(tag, at)] + rest)[1..] == rest;
  }

  /** Places of a tree's pages, parent first. */
  function Spread<T, L>(t: Tree<T, L>, idx: nat, places: seq<Place>): seq<Place>
    decreases t
  {
    [PlaceOf(places, idx)] + SpreadKids(t.kids, idx + 1, places)
  }

  function SpreadKids<T, L>(ks: Kids<T, L>, idx: nat, places: seq<Place>): seq<Place>
    decreases ks
  {
    match ks
    case NoKids => []
    case Kid(_, child, rest) => Spread(child, idx, places) + SpreadKids(rest, idx + Count(child), places)
  }

  /** They are consecutive: every page once, in layout order. */
  lemma {:induction false} SpreadIsSlice<T, L>(t: Tree<T, L>, idx: nat, places: seq<Place>)
    requires idx + Count(t) <= |places|
    ensures Spread(t, idx, places) == places[idx..idx + Count(t)]
    decreases t
  {
    SpreadKidsIsSlice(t.kids, idx + 1, places);
    PlacesJoin(places, idx, idx + 1, idx + Count(t));
    assert places[idx..idx + 1] == [places[idx]];
  }

  lemma {:induction false} SpreadKidsIsSlice<T, L>(ks: Kids<T, L>, idx: nat, places: seq<Place>)
    requires idx + CountKids(ks) <= |places|
    ensures SpreadKids(ks, idx, places) == places[idx..idx + CountKids(ks)]
    decreases ks
  {
    match ks
    case NoKids =>
    case Kid(_, child, rest) =>
      SpreadIsSlice(child, idx, places);
      SpreadKidsIsSlice(rest, idx + Count(child), places);
      PlacesJoin(places, idx, idx + Count(child), idx + CountKids(ks));
  }

  /** Following pointers from a page reads exactly its tree's records and visits exactly its
      tree's pages, each once, parent first. */
  lemma {:induction false} ReadTree<T, L>(parse: Parser<T, L>, payload: seq<U8>, start: nat, places: seq<Place>,
                                          idx: nat, t: Tree<T, L>, fuel: nat)
    requires Parsed(parse, payload, start, places, idx, t) && fuel >= Height(t)
    ensures ReadPage(parse, payload, start, PlaceOf(places, idx), fuel) == Some(Visit(Contents(t), Spread(t, idx, places)))
    decreases t
  {
    ReadKids(parse, payload, start, places, idx + 1, t.kids, fuel - 1);
    var ptrs, more := PtrItems(t.kids, idx + 1, places), SpreadKids(t.kids, idx + 1, places);
    ReadLocals(parse, payload, start, t.locals, ptrs, fuel - 1);
    assert [] + more == more;
    PageStep(parse, payload, start, places[idx], fuel, LocalItems(t.locals) + ptrs, Visit(Contents(t), more));
  }

  lemma {:induction false} ReadKids<T, L>(parse: Parser<T, L>, payload: seq<U8>, start: nat, places: seq<Place>,
                                          idx: nat, ks: Kids<T, L>, fuel: nat)
    requires ParsedKids(parse, payload, start, places, idx, ks) && fuel >= HeightKids(ks)
    ensures ReadItems(parse, payload, start, PtrItems(ks, idx, places), fuel) ==
            Some(Visit(ContentsKids(ks), SpreadKids(ks, idx, places)))
    decreases ks
  {
    match ks
    case NoKids =>
      assert ReadItems(parse, payload, start, [], fuel) == Some(Visit([], []));
    case Kid(tag, child, rest) =>
      var next := idx + Count(child);
      ReadTree(parse, payload, start, places, idx, child, fuel);
      ReadKids(parse, payload, start, places, next, rest, fuel);
      KidStep(parse, payload, start, tag, PlaceOf(places, idx), PtrItems(rest, next, places), fuel,
              Visit(Contents(child), Spread(child, idx, places)), Visit(ContentsKids(rest), SpreadKids(rest, next, places)));
  }

  /** From the first page, the reader visits all pages in layout order. */
  lemma ReadAll<T, L>(parse: Parser<T, L>, payload: seq<U8>, start: nat, places: seq<Place>, t: Tree<T, L>, fuel: nat)
    requires Parsed(parse, payload, start, places, 0, t) && |places| == Count(t) && fuel >= Height(t)
    ensures ReadPage(parse, payload, start, places[0], fuel) == Some(Visit(Contents(t), places))
  {
    ReadTree(parse, payload, start, places, 0, t, fuel);
    SpreadIsSlice(t, 0, places);
    assert places[0..Count(t)] == places;
  }
}
