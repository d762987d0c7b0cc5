/** Byte layout of the temporal index (src/copc_types.rs): variable-length node entries, 48-byte
    page pointers marked by a sample count of 0, and a 32-byte header. */
module TemporalFormat {
  import opened Bytes
  import opened Voxel
  import opened Framing
  import opened PagedLayout
  import opened HierarchyFormat
  import opened TimeOrder

  datatype TimeEntry = TimeEntry(key: VoxelKey, samples: seq<Time>)

  /** Key and time range carried by a page pointer. */
  datatype RangeTag = RangeTag(key: VoxelKey, lo: Time, hi: Time)

  const POINTER_SIZE: nat := 48
  const TEMPORAL_HEADER_SIZE: nat := 32

  type TimeTree = Tree<TimeEntry, RangeTag>
  type TimeKids = Kids<TimeEntry, RangeTag>
  type TimeItem = Item<TimeEntry, RangeTag>

  function EncodeTimes(s: seq<Time>): seq<U8> {
    if s == [] then [] else ToLE(s[0], 8) + EncodeTimes(s[1..])
  }

  function DecodeTimes(b: seq<U8>, n: nat): (s: seq<Time>)
    requires |b| >= 8 * n
    ensures |s| == n
  {
    if n == 0 then [] else [Word8(b[..8])] + DecodeTimes(b[8..], n - 1)
  }

  lemma {:induction false} TimesRoundTrip(s: seq<Time>, rest: seq<U8>)
    ensures |EncodeTimes(s)| == 8 * |s|
    ensures DecodeTimes(EncodeTimes(s) + rest, |s|) == s
  {
    if s != [] {
      TimesRoundTrip(s[1..], rest);
      TimesStep(s, ToLE(s[0], 8), EncodeTimes(s[1..]), rest, |s|);
    }
  }

  lemma TimesStep(s: seq<Time>, head: seq<U8>, more: seq<U8>, rest: seq<U8>, n: nat)
    requires n > 0 && |s| == n && head == ToLE(s[0], 8) && EncodeTimes(s) == head + more && |more| == 8 * (n - 1)
    requires DecodeTimes(more + rest, n - 1) == s[1..]
    ensures |EncodeTimes(s)| == 8 * n && DecodeTimes(EncodeTimes(s) + rest, n) == s
  {
    Regroup(head, more, rest);
    TimeHead(s[0], more + rest);
    DecodeTimesHead(head + (more + rest), n, s[0], more + rest);
  }

  lemma TimeHead(t: Time, tail: seq<U8>)
    ensures var b := ToLE(t, 8) + tail; Word8(b[..8]) == t && b[8..] == tail
  {
    Spans();
    LERoundTrip(t, 8);
    assert (ToLE(t, 8) + tail)[..8] == ToLE(t, 8);
  }

  lemma DecodeTimesHead(b: seq<U8>, n: nat, t: Time, tail: seq<U8>)
    requires n > 0 && |b| >= 8 * n && Word8(b[..8]) == t && b[8..] == tail
    ensures DecodeTimes(b, n) == [t] + DecodeTimes(tail, n - 1)
  {
  }

  /** `TemporalIndexEntry::write`. */
  function EncodeNode(e: TimeEntry): seq<U8> {
    EncodeKey(e.key) + ToLE(|e.samples|, 4) + EncodeTimes(e.samples)
  }

  function TagHead(tag: RangeTag): seq<U8> {
    EncodeKey(tag.key) + ToLE(0, 4)
  }

  function TagTail(tag: RangeTag): seq<U8> {
    ToLE(tag.lo, 8) + ToLE(tag.hi, 8)
  }

  function TimeFmt(): Format<TimeEntry, RangeTag> {
    Format(EncodeNode, TagHead, TagTail)
  }

  function DecodePointer(b: seq<U8>): TimeItem
    requires |b| >= POINTER_SIZE
  {
    Ptr(RangeTag(DecodeKey(b[..16]), Word8(b[32..40]), Word8(b[40..48])), Place(Word8(b[20..28]), Word4(b[28..32])))
  }

  /** Reading records to the end of the page; a truncated record is an error. */
  function ParseTimes(b: seq<U8>): Option<seq<TimeItem>>
    decreases |b|
  {
    if b == [] then Some([])
    else if |b| < 20 then None
    else
      var count := Word4(b[16..20]);
      var size := if count == 0 then POINTER_SIZE else 20 + 8 * count;
      if |b| < size then None
      else
        var item := if count == 0 then DecodePointer(b)
                    else Local(TimeEntry(DecodeKey(b[..16]), DecodeTimes(b[20..], count)));
        match ParseTimes(b[size..])
        case None => None
        case Some(more) => Some([item] + more)
  }

  /** An entry the format can hold: a valid key and at least one sample. */
  ghost predicate NodeFits(e: TimeEntry) {
    KeyOk(e.key) && 0 < |e.samples| < 0x1_0000_0000
  }

  /** An entry as the writer makes it: finite samples, sorted by value. */
  ghost predicate NodeOk(e: TimeEntry) {
    NodeFits(e) && Ascending(e.samples) && AllFinite(e.samples)
  }

  ghost predicate NodesOk(entries: seq<TimeEntry>) {
    forall e :: e in entries ==> NodeOk(e)
  }

  ghost predicate NodesFit(entries: seq<TimeEntry>) {
    forall e :: e in entries ==> NodeFits(e)
  }

  lemma NodeSlices(kb: seq<U8>, cb: seq<U8>, tb: seq<U8>, rest: seq<U8>)
    requires |kb| == 16 && |cb| == 4
    ensures var b := kb + cb + tb + rest;
            b[..16] == kb && b[16..20] == cb && b[20..] == tb + rest && b[20 + |tb|..] == rest
  {
  }

  lemma NodeRoundTrip(e: TimeEntry, rest: seq<U8>, items: seq<TimeItem>)
    requires NodeFits(e) && ParseTimes(rest) == Some(items)
    ensures ParseTimes(EncodeNode(e) + rest) == Some([Local(e)] + items)
    ensures |EncodeNode(e)| == 20 + 8 * |e.samples|
  {
    KeyRoundTrip(e.key);
    WordsOf(0, |e.samples|, 0);
    TimesRoundTrip(e.samples, rest);
    NodeSlices(EncodeKey(e.key), ToLE(|e.samples|, 4), EncodeTimes(e.samples), rest);
  }

  /** A byte range that fits its fields. */
  predicate RangeFits(at: Place) {
    at.offset < 0x1_0000_0000_0000_0000 && at.size < 0x1_0000_0000
  }

  lemma PointerSlices(kb: seq<U8>, zb: seq<U8>, ob: seq<U8>, sb: seq<U8>, lb: seq<U8>, hb: seq<U8>, rest: seq<U8>)
    requires |kb| == 16 && |zb| == 4 && |ob| == 8 && |sb| == 4 && |lb| == 8 && |hb| == 8
    ensures var b := (kb + zb) + (ob + sb) + (lb + hb) + rest;
            |b| >= POINTER_SIZE && b[..16] == kb && b[16..20] == zb && b[20..28] == ob && b[28..32] == sb &&
            b[32..40] == lb && b[40..48] == hb && b[48..] == rest
  {
  }

  lemma TagRoundTrip(tag: RangeTag, at: Place, rest: seq<U8>, items: seq<TimeItem>)
    requires KeyOk(tag.key) && RangeFits(at) && ParseTimes(rest) == Some(items)
    ensures ParseTimes(Pointer(TimeFmt(), tag, at) + rest) == Some([Ptr(tag, at)] + items)
    ensures |Pointer(TimeFmt(), tag, at)| == POINTER_SIZE
  {
    KeyRoundTrip(tag.key);
    WordsOf(at.offset, at.size, 0);
    WordsOf(tag.lo, 0, 0);
    WordsOf(tag.hi, 0, 0);
    var b := Pointer(TimeFmt(), tag, at) + rest;
    PointerSlices(EncodeKey(tag.key), ToLE(0, 4), ToLE(at.offset, 8), ToLE(at.size, 4), ToLE(tag.lo, 8), ToLE(tag.hi, 8), rest);
    assert DecodePointer(b) == Ptr(tag, at);
  }

  ghost predicate RangesFit(places: seq<Place>) {
    forall i :: 0 <= i < |places| ==> RangeFits(places[i])
  }

  /** Every record is valid and every pointer names a valid key. */
  ghost predicate PagesValid(t: TimeTree) {
    NodesFit(t.locals) && KidsValid(t.kids)
  }

  ghost predicate KidsValid(ks: TimeKids) {
    match ks
    case NoKids => true
    case Kid(tag, child, rest) => KeyOk(tag.key) && PagesValid(child) && KidsValid(rest)
  }

  lemma TagAlwaysParses(tag: RangeTag, at: Place)
    requires KeyOk(tag.key) && RangeFits(at)
    ensures PointerParses(TimeFmt(), ParseTimes, tag, at)
  {
    forall rest, items | ParseTimes(rest) == Some(items)
      ensures ParseTimes(Pointer(TimeFmt(), tag, at) + rest) == Some([Ptr(tag, at)] + items)
    {
      TagRoundTrip(tag, at, rest, items);
    }
  }

  lemma NodeAlwaysParses(e: TimeEntry)
    requires NodeFits(e)
    ensures RecordParses(TimeFmt(), ParseTimes, e)
  {
    forall rest, items | ParseTimes(rest) == Some(items)
      ensures ParseTimes(TimeFmt().local(e) + rest) == Some([Local(e)] + items)
    {
      NodeRoundTrip(e, rest, items);
    }
  }

  lemma {:induction false} ValidTagsParse(ks: TimeKids, idx: nat, places: seq<Place>)
    requires KidsValid(ks) && RangesFit(places)
    ensures PointersParse(TimeFmt(), ParseTimes, ks, idx, places)
    decreases ks
  {
    match ks
    case NoKids =>
    case Kid(tag, child, rest) =>
      TagAlwaysParses(tag, PlaceOf(places, idx));
      ValidTagsParse(rest, idx + Count(child), places);
  }

  /** The index header. */
  datatype Header = Header(version: U32, stride: U32, nodeCount: U32, pageCount: U32, root: Place)

  function HeaderWidths(): seq<nat> { [4, 4, 4, 4, 8, 4, 4] }

  /** `TemporalIndexHeader::write`, with its reserved word. */
  function EncodeHeader(h: Header): seq<U8> {
    EncodeWords([h.version, h.stride, h.nodeCount, h.pageCount, h.root.offset, h.root.size, 0], HeaderWidths())
  }

  function DecodeHeader(b: seq<U8>): Option<Header> {
    if |b| < TotalWidth(HeaderWidths()) then None
    else
      var v := DecodeWords(b, HeaderWidths());
      if v[0] < 0x1_0000_0000 && v[1] < 0x1_0000_0000 && v[2] < 0x1_0000_0000 && v[3] < 0x1_0000_0000
      then Some(Header(v[0], v[1], v[2], v[3], Place(v[4], v[5])))
      else None
  }

  lemma HeaderRoundTrip(h: Header, rest: seq<U8>)
    requires RangeFits(h.root)
    ensures |EncodeHeader(h)| == TEMPORAL_HEADER_SIZE && DecodeHeader(EncodeHeader(h) + rest) == Some(h)
  {
    Spans();
    WordsRoundTrip([h.version, h.stride, h.nodeCount, h.pageCount, h.root.offset, h.root.size, 0], HeaderWidths(), rest);
    assert TotalWidth([4, 4, 4]) == 12;
    assert TotalWidth([4, 8, 4, 4]) == 20;
    TotalWidthConcat([4, 4, 4], [4, 8, 4, 4]);
    assert HeaderWidths() == [4, 4, 4] + [4, 8, 4, 4];
  }

  lemma TimePageReadable(t: TimeTree, idx: nat, places: seq<Place>)
    requires NodesFit(t.locals) && KidsValid(t.kids) && RangesFit(places)
    ensures ParseTimes(FinalData(TimeFmt(), t, idx, places)) == Some(LocalItems(t.locals) + PtrItems(t.kids, idx + 1, places))
  {
    ValidTagsParse(t.kids, idx + 1, places);
    forall i | 0 <= i < |t.locals| ensures RecordParses(TimeFmt(), ParseTimes, t.locals[i]) {
      assert t.locals[i] in t.locals;
      NodeAlwaysParses(t.locals[i]);
    }
    ParsePage(TimeFmt(), ParseTimes, t, idx, places);
  }

  /** Every final page parses back to its records and pointers. */
  lemma {:induction false} TimesReadable(t: TimeTree, idx: nat, places: seq<Place>)
    requires PagesValid(t) && RangesFit(places)
    ensures Readable(TimeFmt(), ParseTimes, t, idx, places)
    decreases t
  {
    KidsReadable(t.kids, idx + 1, places);
    TimePageReadable(t, idx, places);
  }

  lemma {:induction false} KidsReadable(ks: TimeKids, idx: nat, places: seq<Place>)
    requires KidsValid(ks) && RangesFit(places)
    ensures ReadableKids(TimeFmt(), ParseTimes, ks, idx, places)
    decreases ks
  {
    match ks
    case NoKids =>
    case Kid(tag, child, rest) =>
      TimesReadable(child, idx, places);
      KidsReadable(rest, idx + Count(child), places);
      ReadableKid(TimeFmt(), ParseTimes, tag, child, rest, idx, places);
  }
}
