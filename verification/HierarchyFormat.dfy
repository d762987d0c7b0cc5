/** Byte layout of the COPC hierarchy (src/copc_types.rs, COPC 1.0 hierarchy VLR): 32-byte
    records, a point count of -1 marking a page pointer. */
module HierarchyFormat {
  import opened Arith
  import opened Bytes
  import opened Voxel
  import opened Points
  import opened Framing
  import opened Levels
  import opened PlanGrid
  import opened PagedLayout
  import opened PageShape

  datatype Entry = Entry(key: VoxelKey, offset: U64, byteSize: I32, pointCount: I32)

  const RECORD_SIZE: nat := 32

  function EncodeKey(k: VoxelKey): seq<U8> {
    EncodeWords([k.level, k.x, k.y, k.z], [4, 4, 4, 4])
  }

  /** `HierarchyEntry::write`. */
  function EncodeEntry(e: Entry): seq<U8> {
    EncodeKey(e.key) + ToLE(e.offset, 8) + ToLE(Unsigned32(e.byteSize), 4) + ToLE(Unsigned32(e.pointCount), 4)
  }

  /** A pointer is an entry with point count -1; offset and size are patched later. */
  function PointerTail(k: VoxelKey): seq<U8> {
    ToLE(Unsigned32(-1), 4)
  }

  function Fmt(): Format<Entry, VoxelKey> {
    Format(EncodeEntry, EncodeKey, PointerTail)
  }

  type PageTree = Tree<Entry, VoxelKey>
  type PageKids = Kids<Entry, VoxelKey>
  type PageItem = Item<Entry, VoxelKey>

  function DecodeKey(b: seq<U8>): VoxelKey
    requires |b| == 16
  {
    assert TotalWidth([4, 4, 4, 4]) == 16;
    var v := DecodeWords(b, [4, 4, 4, 4]);
    VoxelKey(v[0], v[1], v[2], v[3])
  }

  function Word4(b: seq<U8>): U32
    requires |b| == 4
  {
    FromLEBound(b);
    Spans();
    FromLE(b)
  }

  function Word8(b: seq<U8>): U64
    requires |b| == 8
  {
    FromLEBound(b);
    Spans();
    FromLE(b)
  }

  /** A signed size widened to 64 bits, as a cast does. */
  function Widen(n: I32): nat {
    if n >= 0 then n else n + 0x1_0000_0000_0000_0000
  }

  function ItemOf(key: VoxelKey, offset: U64, size: I32, count: I32): PageItem {
    if count == -1 then Ptr(key, Place(offset, Widen(size))) else Local(Entry(key, offset, size, count))
  }

  function DecodeItem(rec: seq<U8>): PageItem
    requires |rec| == RECORD_SIZE
  {
    ItemOf(DecodeKey(rec[..16]), Word8(rec[16..24]), Signed32(Word4(rec[24..28])), Signed32(Word4(rec[28..32])))
  }

  /** A page is a whole number of records. */
  function Parse(b: seq<U8>): Option<seq<PageItem>> {
    if b == [] then Some([])
    else if |b| < RECORD_SIZE then None
    else
      match Parse(b[RECORD_SIZE..])
      case None => None
      case Some(more) => Some([DecodeItem(b[..RECORD_SIZE])] + more)
  }

  /** Keys the depth limit allows; their coordinates fit the signed 32-bit fields. */
  predicate KeyOk(k: VoxelKey) {
    InRange(k) && k.level <= MAX_LEVEL
  }

  lemma AncestorOk(k: VoxelKey, a: VoxelKey)
    requires KeyOk(k) && Under(k, a)
    ensures KeyOk(a)
    decreases k.level
  {
    if a.level < k.level {
      ChildOfParent(k);
      AncestorOk(Parent(k).value, a);
    }
  }

  lemma KeyFits(k: VoxelKey)
    requires KeyOk(k)
    ensures Fit([k.level, k.x, k.y, k.z], [4, 4, 4, 4])
  {
    Pow2Monotone(k.level, 31);
    Pow2Of31();
    Spans();
  }

  lemma KeyRoundTrip(k: VoxelKey)
    requires KeyOk(k)
    ensures |EncodeKey(k)| == 16 && DecodeKey(EncodeKey(k)) == k
  {
    KeyFits(k);
    assert TotalWidth([4, 4, 4, 4]) == 16;
    WordsRoundTrip([k.level, k.x, k.y, k.z], [4, 4, 4, 4], []);
    assert EncodeKey(k) + [] == EncodeKey(k);
  }

  lemma SignedRoundTrip(n: I32)
    ensures Signed32(Unsigned32(n)) == n
  {
  }

  /** A record from its four parts. */
  lemma ItemParts(kb: seq<U8>, ob: seq<U8>, sb: seq<U8>, cb: seq<U8>)
    requires |kb| == 16 && |ob| == 8 && |sb| == 4 && |cb| == 4
    ensures |kb + ob + sb + cb| == RECORD_SIZE
    ensures DecodeItem(kb + ob + sb + cb) == ItemOf(DecodeKey(kb), Word8(ob), Signed32(Word4(sb)), Signed32(Word4(cb)))
  {
    var rec := kb + ob + sb + cb;
    assert rec[..16] == kb && rec[16..24] == ob && rec[24..28] == sb && rec[28..32] == cb;
  }

  lemma WordsOf(offset: U64, size: U32, count: U32)
    ensures Word8(ToLE(offset, 8)) == offset && Word4(ToLE(size, 4)) == size && Word4(ToLE(count, 4)) == count
  {
    Spans();
    LERoundTrip(offset, 8);
    LERoundTrip(size, 4);
    LERoundTrip(count, 4);
  }

  lemma EntryRoundTrip(e: Entry)
    requires KeyOk(e.key) && e.pointCount != -1
    ensures |EncodeEntry(e)| == RECORD_SIZE && DecodeItem(EncodeEntry(e)) == Local(e)
  {
    KeyRoundTrip(e.key);
    var size, count := Unsigned32(e.byteSize), Unsigned32(e.pointCount);
    WordsOf(e.offset, size, count);
    ItemParts(EncodeKey(e.key), ToLE(e.offset, 8), ToLE(size, 4), ToLE(count, 4));
    SignedRoundTrip(e.byteSize);
    SignedRoundTrip(e.pointCount);
  }

  /** A byte range that fits its fields. */
  predicate PlaceOk(at: Place) {
    at.offset < 0x1_0000_0000_0000_0000 && at.size < 0x8000_0000
  }

  lemma PointerRoundTrip(k: VoxelKey, at: Place)
    requires KeyOk(k) && PlaceOk(at)
    ensures |Pointer(Fmt(), k, at)| == RECORD_SIZE && DecodeItem(Pointer(Fmt(), k, at)) == Ptr(k, at)
  {
    KeyRoundTrip(k);
    WordsOf(at.offset, at.size, Unsigned32(-1));
    ItemParts(EncodeKey(k), ToLE(at.offset, 8), ToLE(at.size, 4), PointerTail(k));
    PointerBytes(k, at);
    SignedRoundTrip(-1);
  }

  lemma PointerBytes(k: VoxelKey, at: Place)
    ensures Pointer(Fmt(), k, at) == EncodeKey(k) + ToLE(at.offset, 8) + ToLE(at.size, 4) + PointerTail(k)
  {
    Regroup(EncodeKey(k), ToLE(at.offset, 8), ToLE(at.size, 4));
  }

  lemma ParseNext(rec: seq<U8>, rest: seq<U8>, items: seq<PageItem>)
    requires |rec| == RECORD_SIZE && Parse(rest) == Some(items)
    ensures Parse(rec + rest) == Some([DecodeItem(rec)] + items)
  {
    assert (rec + rest)[..RECORD_SIZE] == rec && (rec + rest)[RECORD_SIZE..] == rest;
  }

  function Tags(ks: PageKids): seq<VoxelKey> {
    match ks
    case NoKids => []
    case Kid(tag, _, rest) => [tag] + Tags(rest)
  }

  ghost predicate EntriesOk(entries: seq<Entry>) {
    forall e :: e in entries ==> KeyOk(e.key) && e.pointCount != -1
  }

  ghost predicate TagsOk(tags: seq<VoxelKey>) {
    forall k :: k in tags ==> KeyOk(k)
  }

  ghost predicate PlacesOk(places: seq<Place>) {
    forall i :: 0 <= i < |places| ==> PlaceOk(places[i])
  }

  lemma PointerAlwaysParses(tag: VoxelKey, at: Place)
    requires KeyOk(tag) && PlaceOk(at)
    ensures PointerParses(Fmt(), Parse, tag, at)
  {
    PointerRoundTrip(tag, at);
    forall rest, items | Parse(rest) == Some(items)
      ensures Parse(Pointer(Fmt(), tag, at) + rest) == Some([Ptr(tag, at)] + items)
    {
      ParseNext(Pointer(Fmt(), tag, at), rest, items);
    }
  }

  lemma EntryAlwaysParses(e: Entry)
    requires KeyOk(e.key) && e.pointCount != -1
    ensures RecordParses(Fmt(), Parse, e) && |EncodeEntry(e)| == RECORD_SIZE
  {
    EntryRoundTrip(e);
    forall rest, items | Parse(rest) == Some(items) ensures Parse(Fmt().local(e) + rest) == Some([Local(e)] + items) {
      ParseNext(EncodeEntry(e), rest, items);
    }
  }

  /** Every pointer names a valid key. */
  ghost predicate TagsValid(ks: PageKids) {
    match ks
    case NoKids => true
    case Kid(tag, _, rest) => KeyOk(tag) && TagsValid(rest)
  }

  lemma {:induction false} TagsAreValid(ks: PageKids)
    requires TagsOk(Tags(ks))
    ensures TagsValid(ks)
  {
    match ks
    case NoKids =>
    case Kid(tag, _, rest) =>
      TagsOkParts(tag, Tags(rest));
      TagsAreValid(rest);
  }

  lemma {:induction false} ValidPointersParse(ks: PageKids, idx: nat, places: seq<Place>)
    requires TagsValid(ks) && PlacesOk(places)
    ensures PointersParse(Fmt(), Parse, ks, idx, places)
    decreases ks
  {
    match ks
    case NoKids =>
    case Kid(tag, child, rest) =>
      PointerAlwaysParses(tag, PlaceOf(places, idx));
      ValidPointersParse(rest, idx + Count(child), places);
  }

  lemma {:induction false} PointersLength(ks: PageKids, idx: nat, places: seq<Place>)
    requires TagsValid(ks) && PlacesOk(places)
    ensures |Pointers(Fmt(), ks, idx, places)| == RECORD_SIZE * |Tags(ks)|
    decreases ks
  {
    match ks
    case NoKids =>
    case Kid(tag, child, rest) =>
      PointersLength(rest, idx + Count(child), places);
      PointerRoundTrip(tag, PlaceOf(places, idx));
  }

  lemma TagsOkParts(tag: VoxelKey, rest: seq<VoxelKey>)
    requires TagsOk([tag] + rest)
    ensures KeyOk(tag) && TagsOk(rest)
  {
    assert ([tag] + rest)[0] == tag;
    forall k | k in rest ensures k in [tag] + rest {
    }
  }

  lemma {:induction false} EncodedLength(entries: seq<Entry>)
    requires EntriesOk(entries)
    ensures |Encode(Fmt(), entries)| == RECORD_SIZE * |entries|
  {
    if entries != [] {
      assert EntriesOk(entries[1..]) && entries[0] in entries;
      EncodedLength(entries[1..]);
      EntryRoundTrip(entries[0]);
    }
  }

  /** Keys a page names: its records and its pointers. */
  function PageKeys(t: PageTree): seq<VoxelKey> {
    seq(|t.locals|, i requires 0 <= i < |t.locals| => t.locals[i].key) + Tags(t.kids)
  }

  /** A page below `r`: distinct, valid keys at most three levels down. */
  ghost predicate PageOk(t: PageTree, r: VoxelKey) {
    Distinct(PageKeys(t)) && EntriesOk(t.locals) && TagsOk(Tags(t.kids)) &&
    forall i :: 0 <= i < |PageKeys(t)| ==> Within(PageKeys(t)[i], r)
  }

  /** Every page of the tree, each below the key its pointer names. */
  ghost predicate TreeOk(t: PageTree, r: VoxelKey)
    decreases t
  {
    PageOk(t, r) && KidsOk(t.kids)
  }

  ghost predicate KidsOk(ks: PageKids)
    decreases ks
  {
    match ks
    case NoKids => true
    case Kid(tag, child, rest) => TreeOk(child, tag) && KidsOk(rest)
  }

  /** No page holds more than 585 records, so its size fits any 32-bit field. */
  lemma PageSize(t: PageTree, r: VoxelKey, idx: nat)
    requires PageOk(t, r)
    ensures |PageOf(Fmt(), t, idx).data| == RECORD_SIZE * |PageKeys(t)| <= RECORD_SIZE * PAGE_KEYS
  {
    PageKeyCount(PageKeys(t), r);
    TagsAreValid(t.kids);
    PointersLength(t.kids, idx + 1, []);
    EncodedLength(t.locals);
  }

  lemma {:induction false} TreeSizes(pages: seq<Page>, idx: nat, t: PageTree, r: VoxelKey)
    requires Holds(Fmt(), pages, idx, t) && TreeOk(t, r)
    ensures idx + Count(t) <= |pages|
    ensures forall i :: idx <= i < idx + Count(t) ==> |pages[i].data| <= RECORD_SIZE * PAGE_KEYS
    decreases t
  {
    PageSize(t, r, idx);
    KidsSizes(pages, idx + 1, t.kids);
  }

  lemma {:induction false} KidsSizes(pages: seq<Page>, idx: nat, ks: PageKids)
    requires idx <= |pages| && HoldsKids(Fmt(), pages, idx, ks) && KidsOk(ks)
    ensures idx + CountKids(ks) <= |pages|
    ensures forall i :: idx <= i < idx + CountKids(ks) ==> |pages[i].data| <= RECORD_SIZE * PAGE_KEYS
    decreases ks
  {
    match ks
    case NoKids =>
    case Kid(tag, child, rest) =>
      TreeSizes(pages, idx, child, tag);
      KidsSizes(pages, idx + Count(child), rest);
  }

  /** Valid records and pointers on every page of the tree: what parsing them back needs. */
  ghost predicate Parseable(t: PageTree)
    decreases t
  {
    EntriesOk(t.locals) && TagsOk(Tags(t.kids)) && ParseableKids(t.kids)
  }

  ghost predicate ParseableKids(ks: PageKids)
    decreases ks
  {
    ks.Kid? ==> Parseable(ks.child) && ParseableKids(ks.rest)
  }

  lemma {:induction false} OkIsParseable(t: PageTree, r: VoxelKey)
    requires TreeOk(t, r)
    ensures Parseable(t)
    decreases t
  {
    KidsAreParseable(t.kids);
  }

  lemma {:induction false} KidsAreParseable(ks: PageKids)
    requires KidsOk(ks)
    ensures ParseableKids(ks)
    decreases ks
  {
    if ks.Kid? {
      OkIsParseable(ks.child, ks.tag);
      KidsAreParseable(ks.rest);
    }
  }

  lemma PageReadable(t: PageTree, idx: nat, places: seq<Place>)
    requires EntriesOk(t.locals) && TagsOk(Tags(t.kids)) && PlacesOk(places)
    ensures Parse(FinalData(Fmt(), t, idx, places)) == Some(LocalItems(t.locals) + PtrItems(t.kids, idx + 1, places))
  {
    TagsAreValid(t.kids);
    ValidPointersParse(t.kids, idx + 1, places);
    forall i | 0 <= i < |t.locals| ensures RecordParses(Fmt(), Parse, t.locals[i]) {
      assert t.locals[i] in t.locals;
      EntryAlwaysParses(t.locals[i]);
    }
    ParsePage(Fmt(), Parse, t, idx, places);
  }

  /** Every final page parses back to its records and pointers. */
  lemma {:induction false} TreeReadable(t: PageTree, idx: nat, places: seq<Place>)
    requires Parseable(t) && PlacesOk(places)
    ensures Readable(Fmt(), Parse, t, idx, places)
    decreases t
  {
    PageReadable(t, idx, places);
    KidsReadable(t.kids, idx + 1, places);
  }

  lemma {:induction false} KidsReadable(ks: PageKids, idx: nat, places: seq<Place>)
    requires ParseableKids(ks) && PlacesOk(places)
    ensures ReadableKids(Fmt(), Parse, ks, idx, places)
    decreases ks
  {
    match ks
    case NoKids =>
    case Kid(tag, child, rest) =>
      TreeReadable(child, idx, places);
      KidsReadable(rest, idx + Count(child), places);
      ReadableKid(Fmt(), Parse, tag, child, rest, idx, places);
  }
}
