/** Where the fields of the published records stand, byte by byte (src/copc_types.rs; COPC 1.0 for
    the hierarchy). Words are read here by the place values of their bytes, not by the decoder of
    the round trips, which would not notice a layout wrong in the same way on both sides. */
module FileLayout {
  import opened Bytes
  import opened Voxel
  import opened Framing
  import opened PagedLayout
  import opened HierarchyFormat
  import opened TimeOrder
  import opened TemporalFormat

  /** The 32-bit little-endian word at a position. */
  function At4(b: seq<U8>, i: nat): nat
    requires i + 4 <= |b|
  {
    b[i] as nat + 0x100 * (b[i + 1] as nat) + 0x1_0000 * (b[i + 2] as nat) + 0x100_0000 * (b[i + 3] as nat)
  }

  /** The 64-bit little-endian word at a position. */
  function At8(b: seq<U8>, i: nat): nat
    requires i + 8 <= |b|
  {
    At4(b, i) + 0x1_0000_0000 * At4(b, i + 4)
  }

  lemma Bytes4(n: nat)
    ensures var w := ToLE(n, 4);
            w[0] == n % 256 && w[1] == n / 256 % 256 && w[2] == n / 256 / 256 % 256 && w[3] == n / 256 / 256 / 256 % 256
  {
    var n1, n2, n3 := n / 256, n / 256 / 256, n / 256 / 256 / 256;
    assert ToLE(n3, 1)[0] == n3 % 256;
    assert ToLE(n2, 2)[0] == n2 % 256 && ToLE(n2, 2)[1..] == ToLE(n3, 1);
    assert ToLE(n1, 3)[0] == n1 % 256 && ToLE(n1, 3)[1..] == ToLE(n2, 2);
    assert ToLE(n, 4)[1..] == ToLE(n1, 3);
  }

  /** Four bytes of a number found at a position. */
  lemma Part4At(b: seq<U8>, i: nat, n: nat)
    requires i + 4 <= |b| && b[i..i + 4] == ToLE(n, 4)
    ensures At4(b, i) + 0x1_0000_0000 * (n / 256 / 256 / 256 / 256) == n
  {
    Bytes4(n);
    var w := b[i..i + 4];
    assert w[0] == b[i] && w[1] == b[i + 1] && w[2] == b[i + 2] && w[3] == b[i + 3];
  }

  lemma Word4At(b: seq<U8>, i: nat, n: U32)
    requires i + 4 <= |b| && b[i..i + 4] == ToLE(n, 4)
    ensures At4(b, i) == n
  {
    Part4At(b, i, n);
  }

  lemma HighBytes(n: nat)
    ensures ToLE(n, 8)[..4] == ToLE(n, 4) && ToLE(n, 8)[4..] == ToLE(n / 256 / 256 / 256 / 256, 4)
  {
    var n1, n2, n3, n4 := n / 256, n / 256 / 256, n / 256 / 256 / 256, n / 256 / 256 / 256 / 256;
    assert ToLE(n, 8)[1..] == ToLE(n1, 7) && ToLE(n1, 7)[1..] == ToLE(n2, 6);
    assert ToLE(n2, 6)[1..] == ToLE(n3, 5) && ToLE(n3, 5)[1..] == ToLE(n4, 4);
    Bytes4(n);
  }

  lemma Word8At(b: seq<U8>, i: nat, n: U64)
    requires i + 8 <= |b| && b[i..i + 8] == ToLE(n, 8)
    ensures At8(b, i) == n
  {
    HighBytes(n);
    HighFits(n);
    Halves(b, i, ToLE(n, 8));
    Part4At(b, i, n);
    Word4At(b, i + 4, n / 256 / 256 / 256 / 256);
  }

  lemma HighFits(n: U64)
    ensures n / 256 / 256 / 256 / 256 < 0x1_0000_0000
  {
  }

  lemma Halves(b: seq<U8>, i: nat, w: seq<U8>)
    requires i + 8 <= |b| && b[i..i + 8] == w
    ensures b[i..i + 4] == w[..4] && b[i + 4..i + 8] == w[4..]
  {
  }

  /** Level, x, y and z, four bytes each. */
  ghost predicate KeyFirst(b: seq<U8>, k: VoxelKey) {
    |b| >= 16 && At4(b, 0) == k.level && At4(b, 4) == k.x && At4(b, 8) == k.y && At4(b, 12) == k.z
  }

  lemma KeyBytes(b: seq<U8>, k: VoxelKey)
    requires KeyOk(k) && |b| >= 16 && b[..16] == EncodeKey(k)
    ensures KeyFirst(b, k)
  {
    KeyFits(k);
    Spans();
    var v := [k.level, k.x, k.y, k.z];
    assert v[0] < Span(4) && v[1] < Span(4) && v[2] < Span(4) && v[3] < Span(4);
    KeyWords(k);
    KeySlices(b, ToLE(k.level, 4), ToLE(k.x, 4), ToLE(k.y, 4), ToLE(k.z, 4));
    Word4At(b, 0, k.level);
    Word4At(b, 4, k.x);
    Word4At(b, 8, k.y);
    Word4At(b, 12, k.z);
  }

  lemma KeySlices(b: seq<U8>, l: seq<U8>, x: seq<U8>, y: seq<U8>, z: seq<U8>)
    requires |l| == 4 && |x| == 4 && |y| == 4 && |z| == 4 && |b| >= 16 && b[..16] == l + x + y + z
    ensures b[0..4] == l && b[4..8] == x && b[8..12] == y && b[12..16] == z
  {
    var k := b[..16];
    assert k[0..4] == l && k[4..8] == x && k[8..12] == y && k[12..16] == z;
  }

  lemma KeyWords(k: VoxelKey)
    ensures EncodeKey(k) == ToLE(k.level, 4) + ToLE(k.x, 4) + ToLE(k.y, 4) + ToLE(k.z, 4)
  {
    assert EncodeWords([k.z], [4]) == ToLE(k.z, 4);
    assert EncodeWords([k.y, k.z], [4, 4]) == ToLE(k.y, 4) + EncodeWords([k.z], [4]);
    assert EncodeWords([k.x, k.y, k.z], [4, 4, 4]) == ToLE(k.x, 4) + EncodeWords([k.y, k.z], [4, 4]);
  }

  /** Key, 64-bit offset, 32-bit size and 32-bit count. */
  ghost predicate RecordLayout(b: seq<U8>, k: VoxelKey, offset: nat, size: nat, count: nat) {
    |b| == 32 && KeyFirst(b, k) && At8(b, 16) == offset && At4(b, 24) == size && At4(b, 28) == count
  }

  lemma RecordBytes(k: VoxelKey, offset: U64, size: U32, count: U32)
    requires KeyOk(k)
    ensures RecordLayout(EncodeKey(k) + ToLE(offset, 8) + ToLE(size, 4) + ToLE(count, 4), k, offset, size, count)
  {
    KeyRoundTrip(k);
    var b := EncodeKey(k) + ToLE(offset, 8) + ToLE(size, 4) + ToLE(count, 4);
    RecordSlices(EncodeKey(k), ToLE(offset, 8), ToLE(size, 4), ToLE(count, 4));
    KeyBytes(b, k);
    Word8At(b, 16, offset);
    Word4At(b, 24, size);
    Word4At(b, 28, count);
  }

  lemma RecordSlices(kb: seq<U8>, ob: seq<U8>, sb: seq<U8>, cb: seq<U8>)
    requires |kb| == 16 && |ob| == 8 && |sb| == 4 && |cb| == 4
    ensures var b := kb + ob + sb + cb;
            |b| == 32 && b[..16] == kb && b[16..24] == ob && b[24..28] == sb && b[28..32] == cb
  {
  }

  /** An entry; negative words in two's complement. */
  lemma EntryLayout(e: Entry)
    requires KeyOk(e.key)
    ensures RecordLayout(EncodeEntry(e), e.key, e.offset,
                         if e.byteSize < 0 then e.byteSize + 0x1_0000_0000 else e.byteSize,
                         if e.pointCount < 0 then e.pointCount + 0x1_0000_0000 else e.pointCount)
  {
    RecordBytes(e.key, e.offset, Unsigned32(e.byteSize), Unsigned32(e.pointCount));
  }

  /** A page pointer: the child's range, and -1 for the count. */
  lemma PointerLayout(k: VoxelKey, at: Place)
    requires KeyOk(k) && PlaceOk(at)
    ensures RecordLayout(Pointer(Fmt(), k, at), k, at.offset, at.size, 0xFFFF_FFFF)
  {
    PointerBytes(k, at);
    RecordBytes(k, at.offset, at.size, 0xFFFF_FFFF);
  }

  /** A node of the temporal index: key, number of samples, and the samples' bits in order. */
  lemma NodeLayout(e: TimeEntry)
    requires NodeFits(e)
    ensures var b := EncodeNode(e);
            |b| == 20 + 8 * |e.samples| && KeyFirst(b, e.key) && At4(b, 16) == |e.samples| &&
            forall j: nat :: j < |e.samples| ==> SampleIs(b, 20, j, e.samples[j])
  {
    var b := EncodeNode(e);
    NodeParts(e, b);
    KeyBytes(b, e.key);
    Word4At(b, 16, |e.samples|);
    SamplesAt(b, e.samples);
  }

  lemma SamplesAt(b: seq<U8>, s: seq<Time>)
    requires |b| >= 20 && b[20..] == EncodeTimes(s)
    ensures forall j: nat :: j < |s| ==> SampleIs(b, 20, j, s[j])
  {
    forall j: nat | j < |s| ensures SampleIs(b, 20, j, s[j]) {
      SampleAt(b, 20, s, j);
    }
  }

  /** The bits of a time stand at place `j` of the list that starts at `at`. */
  predicate SampleIs(b: seq<U8>, at: nat, j: nat, t: Time) {
    at + 8 * j + 8 <= |b| && At8(b, at + 8 * j) == t
  }

  lemma NodeParts(e: TimeEntry, b: seq<U8>)
    requires NodeFits(e) && b == EncodeNode(e)
    ensures |b| == 20 + 8 * |e.samples|
    ensures b[..16] == EncodeKey(e.key) && b[16..20] == ToLE(|e.samples|, 4) && b[20..] == EncodeTimes(e.samples)
  {
    KeyRoundTrip(e.key);
    TimesRoundTrip(e.samples, []);
    NodeSlices(EncodeKey(e.key), ToLE(|e.samples|, 4), EncodeTimes(e.samples), []);
    assert b + [] == b;
  }

  lemma {:induction false} SampleAt(b: seq<U8>, at: nat, s: seq<Time>, j: nat)
    requires j < |s| && at <= |b| && b[at..] == EncodeTimes(s)
    ensures SampleIs(b, at, j, s[j])
    decreases j
  {
    TimesRoundTrip(s, []);
    TimesRoundTrip(s[1..], []);
    FirstSample(b, at, ToLE(s[0], 8), EncodeTimes(s[1..]));
    if j == 0 {
      Word8At(b, at, s[0]);
    } else {
      SampleAt(b, at + 8, s[1..], j - 1);
    }
  }

  lemma FirstSample(b: seq<U8>, at: nat, first: seq<U8>, more: seq<U8>)
    requires |first| == 8 && at <= |b| && b[at..] == first + more
    ensures at + 8 <= |b| && b[at..at + 8] == first && b[at + 8..] == more
  {
    var t := b[at..];
    assert t[..8] == first && t[8..] == more;
  }

  /** A page pointer of the temporal index: key, a sample count of zero, the child's range and the
      least and greatest time. */
  lemma TagLayout(tag: RangeTag, at: Place)
    requires KeyOk(tag.key) && RangeFits(at)
    ensures var b := Pointer(TimeFmt(), tag, at);
            |b| == 48 && KeyFirst(b, tag.key) && At4(b, 16) == 0 && At8(b, 20) == at.offset && At4(b, 28) == at.size &&
            At8(b, 32) == tag.lo && At8(b, 40) == tag.hi
  {
    KeyRoundTrip(tag.key);
    var b := Pointer(TimeFmt(), tag, at);
    PointerSlices(EncodeKey(tag.key), ToLE(0, 4), ToLE(at.offset, 8), ToLE(at.size, 4), ToLE(tag.lo, 8), ToLE(tag.hi, 8), []);
    assert b + [] == b;
    KeyBytes(b, tag.key);
    Word4At(b, 16, 0);
    Word8At(b, 20, at.offset);
    Word4At(b, 28, at.size);
    Word8At(b, 32, tag.lo);
    Word8At(b, 40, tag.hi);
  }

  /** The header of the temporal index, with a zero word at the end. */
  lemma HeaderLayout(h: Header)
    requires RangeFits(h.root)
    ensures var b := EncodeHeader(h);
            |b| == 32 && At4(b, 0) == h.version && At4(b, 4) == h.stride && At4(b, 8) == h.nodeCount && At4(b, 12) == h.pageCount &&
            At8(b, 16) == h.root.offset && At4(b, 24) == h.root.size && At4(b, 28) == 0
  {
    var b := EncodeHeader(h);
    HeaderWords(h.version, h.stride, h.nodeCount, h.pageCount, h.root.offset, h.root.size);
    var head := ToLE(h.version, 4) + ToLE(h.stride, 4) + ToLE(h.nodeCount, 4) + ToLE(h.pageCount, 4);
    KeySlices(head, ToLE(h.version, 4), ToLE(h.stride, 4), ToLE(h.nodeCount, 4), ToLE(h.pageCount, 4));
    RecordSlices(head, ToLE(h.root.offset, 8), ToLE(h.root.size, 4), ToLE(0, 4));
    KeySlices(b, ToLE(h.version, 4), ToLE(h.stride, 4), ToLE(h.nodeCount, 4), ToLE(h.pageCount, 4));
    Word4At(b, 0, h.version);
    Word4At(b, 4, h.stride);
    Word4At(b, 8, h.nodeCount);
    Word4At(b, 12, h.pageCount);
    Word8At(b, 16, h.root.offset);
    Word4At(b, 24, h.root.size);
    Word4At(b, 28, 0);
  }

  lemma HeaderWords(v: nat, s: nat, n: nat, p: nat, offset: nat, size: nat)
    ensures EncodeWords([v, s, n, p, offset, size, 0], HeaderWidths()) ==
            (ToLE(v, 4) + ToLE(s, 4) + ToLE(n, 4) + ToLE(p, 4)) + ToLE(offset, 8) + ToLE(size, 4) + ToLE(0, 4)
  {
    WordsJoin([v, s, n, p], [offset, size, 0], [4, 4, 4, 4], [8, 4, 4]);
    assert [v, s, n, p] + [offset, size, 0] == [v, s, n, p, offset, size, 0];
    assert [4, 4, 4, 4] + [8, 4, 4] == HeaderWidths();
    KeyWords(VoxelKey(v, s, n, p));
    RangeWords(offset, size);
    JoinLast(EncodeKey(VoxelKey(v, s, n, p)), ToLE(offset, 8), ToLE(size, 4), ToLE(0, 4));
  }

  lemma JoinLast(a: seq<U8>, b: seq<U8>, c: seq<U8>, d: seq<U8>)
    ensures a + (b + c + d) == a + b + c + d
  {
  }

  lemma {:induction false} WordsJoin(a: seq<nat>, b: seq<nat>, wa: seq<nat>, wb: seq<nat>)
    requires |a| == |wa| && |b| == |wb|
    ensures EncodeWords(a + b, wa + wb) == EncodeWords(a, wa) + EncodeWords(b, wb)
  {
    if a == [] {
      assert a + b == b && wa + wb == wb;
    } else {
      WordsJoin(a[1..], b, wa[1..], wb);
      TailJoin(a, b);
      TailJoin(wa, wb);
      Regroup(ToLE(a[0], wa[0]), EncodeWords(a[1..], wa[1..]), EncodeWords(b, wb));
    }
  }

  lemma TailJoin<T>(a: seq<T>, b: seq<T>)
    requires a != []
    ensures a + b != [] && (a + b)[0] == a[0] && (a + b)[1..] == a[1..] + b
  {
  }

  lemma RangeWords(offset: nat, size: nat)
    ensures EncodeWords([offset, size, 0], [8, 4, 4]) == ToLE(offset, 8) + ToLE(size, 4) + ToLE(0, 4)
  {
    assert EncodeWords([0], [4]) == ToLE(0, 4);
    assert EncodeWords([size, 0], [4, 4]) == ToLE(size, 4) + EncodeWords([0], [4]);
  }
}
