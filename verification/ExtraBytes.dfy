/** Extra Bytes descriptors (src/extra_bytes.rs, Extra Bytes section of LAS 1.4 R15): parsing the
    192-byte descriptors and patching the merged minimum and maximum of all input files into the
    first file's descriptors. */
module ExtraBytes {
  import opened Arith
  import opened Bytes
  import opened Voxel

  const DESCRIPTOR_SIZE: nat := 192

  /** A double, up to the identity of NaNs. */
  datatype F64 = NaN | PosInf | NegInf | Fin(v: real)

  /** How doubles are stored. */
  datatype Codec = Codec(fromBits: U64 -> F64, toBits: F64 -> U64)

  /** Finite doubles survive being stored. */
  ghost predicate CodecOk(c: Codec) {
    forall raw: U64 :: c.fromBits(raw).Fin? ==> c.fromBits(c.toBits(c.fromBits(raw))) == c.fromBits(raw)
  }

  function Less(a: F64, b: F64): bool {
    match (a, b)
    case (NaN, _) => false
    case (_, NaN) => false
    case (Fin(x), Fin(y)) => x < y
    case (NegInf, _) => b != NegInf
    case (_, PosInf) => a != PosInf
    case _ => false
  }

  predicate Unsigned(dataType: U8) { dataType in {1, 3, 5, 7} }
  predicate Signed(dataType: U8) { dataType in {2, 4, 6, 8} }
  predicate Floating(dataType: U8) { dataType in {9, 10} }
  predicate Documented(dataType: U8) { Unsigned(dataType) || Signed(dataType) || Floating(dataType) }

  function AsSigned64(raw: U64): int {
    if raw < 0x8000_0000_0000_0000 then raw else raw - 0x1_0000_0000_0000_0000
  }

  function AsUnsigned64(n: int): U64
    requires -0x8000_0000_0000_0000 <= n < 0x8000_0000_0000_0000
  {
    if n >= 0 then n else n + 0x1_0000_0000_0000_0000
  }

  /** `anytype_to_f64`. */
  function Decode(c: Codec, dataType: U8, raw: U64): Option<F64> {
    if Unsigned(dataType) then Some(Fin(raw as real))
    else if Signed(dataType) then Some(Fin(AsSigned64(raw) as real))
    else if Floating(dataType) then Some(c.fromBits(raw))
    else None
  }

  function ClampTo(n: int, lo: int, hi: int): (r: int)
    requires lo <= hi
    ensures lo <= r <= hi
  {
    if n < lo then lo else if n > hi then hi else n
  }

  /** A double cast to an integer saturates; NaN becomes 0. */
  function SaturateTo(x: F64, lo: int, hi: int): (r: int)
    requires lo <= 0 <= hi
    ensures lo <= r <= hi
  {
    match x
    case NaN => 0
    case PosInf => hi
    case NegInf => lo
    case Fin(v) => ClampTo(Round(v), lo, hi)
  }

  /** `f64_to_anytype`. */
  function Encode(c: Codec, dataType: U8, x: F64): Option<U64> {
    if Unsigned(dataType) then Some(SaturateTo(x, 0, 0xFFFF_FFFF_FFFF_FFFF))
    else if Signed(dataType) then Some(AsUnsigned64(SaturateTo(x, -0x8000_0000_0000_0000, 0x7FFF_FFFF_FFFF_FFFF)))
    else if Floating(dataType) then Some(c.toBits(x))
    else None
  }

  lemma RoundInteger(n: int)
    ensures Round(n as real) == n
  {
  }

  /** A finite stat read from a slot is written back as a slot of the same value. */
  lemma SlotRoundTrip(c: Codec, dataType: U8, raw: U64, x: F64)
    requires CodecOk(c) && Decode(c, dataType, raw) == Some(x) && x.Fin?
    ensures Encode(c, dataType, x).Some? && Decode(c, dataType, Encode(c, dataType, x).value) == Some(x)
  {
    if Unsigned(dataType) {
      RoundInteger(raw);
    } else if Signed(dataType) {
      RoundInteger(AsSigned64(raw));
    }
  }

  /** Option bits, by position. */
  predicate HasBit(options: nat, bit: nat)
    requires bit > 0
  {
    (options / bit) % 2 == 1
  }

  const NO_DATA: nat := 1
  const MIN: nat := 2
  const MAX: nat := 4

  /** The scale and offset bits. */
  function StructuralBits(options: nat): nat {
    (options / 8) % 4 * 8
  }

  datatype FieldSchema = FieldSchema(dataType: U8, name: seq<U8>, description: seq<U8>, optionsStructural: nat,
                                     scale: seq<U64>, offset: seq<U64>, noData: seq<U64>)

  datatype FieldStats = FieldStats(hasNoData: bool, hasMin: bool, hasMax: bool, min: seq<F64>, max: seq<F64>)

  datatype Parsed = Parsed(fields: seq<FieldSchema>, stats: seq<FieldStats>)

  /** Trailing zero bytes removed. */
  function TrimNul(b: seq<U8>): seq<U8> {
    if b != [] && b[|b| - 1] == 0 then TrimNul(b[..|b| - 1]) else b
  }

  function Word(b: seq<U8>): U64
    requires |b| == 8
  {
    FromLEBound(b);
    Spans();
    FromLE(b)
  }

  /** Three consecutive 8-byte slots. */
  function Slots(d: seq<U8>, at: nat): (s: seq<U64>)
    requires at + 24 <= |d|
    ensures |s| == 3
  {
    [Word(d[at..at + 8]), Word(d[at + 8..at + 16]), Word(d[at + 16..at + 24])]
  }

  lemma WordOf(n: U64)
    ensures |ToLE(n, 8)| == 8 && Word(ToLE(n, 8)) == n
  {
    Spans();
    LERoundTrip(n, 8);
  }

  /** What the slots mean, by type code (LAS 1.4 R15, Extra Bytes table of data types). The signed
      codes 2, 4, 6 and 8 hold two's complements. */
  lemma SignedSlot(c: Codec, dataType: U8, n: int, slot: seq<U8>)
    requires dataType == 2 || dataType == 4 || dataType == 6 || dataType == 8
    requires -0x8000_0000_0000_0000 <= n < 0x8000_0000_0000_0000
    requires slot == ToLE(if n < 0 then n + 0x1_0000_0000_0000_0000 else n, 8)
    ensures |slot| == 8 && Documented(dataType) && Decode(c, dataType, Word(slot)) == Some(Fin(n as real))
  {
    WordOf(if n < 0 then n + 0x1_0000_0000_0000_0000 else n);
  }

  /** The codes 1, 3, 5 and 7 hold unsigned integers. */
  lemma UnsignedSlot(c: Codec, dataType: U8, n: U64, slot: seq<U8>)
    requires dataType == 1 || dataType == 3 || dataType == 5 || dataType == 7
    requires slot == ToLE(n, 8)
    ensures |slot| == 8 && Documented(dataType) && Decode(c, dataType, Word(slot)) == Some(Fin(n as real))
  {
    WordOf(n);
  }

  /** The codes 9 and 10 hold doubles, and every other code is undocumented. */
  lemma OtherSlot(c: Codec, dataType: U8, raw: U64)
    requires dataType == 0 || dataType > 8
    ensures Documented(dataType) <==> dataType == 9 || dataType == 10
    ensures Decode(c, dataType, raw) == if dataType == 9 || dataType == 10 then Some(c.fromBits(raw)) else None
  {
  }

  function DecodeOrNaN(c: Codec, dataType: U8, raw: U64): F64 {
    match Decode(c, dataType, raw)
    case Some(x) => x
    case None => NaN
  }

  function Values(c: Codec, dataType: U8, s: seq<U64>): (v: seq<F64>)
    requires |s| == 3
    ensures |v| == 3 && forall a :: 0 <= a < 3 ==> v[a] == DecodeOrNaN(c, dataType, s[a])
  {
    [DecodeOrNaN(c, dataType, s[0]), DecodeOrNaN(c, dataType, s[1]), DecodeOrNaN(c, dataType, s[2])]
  }

  const MIN_AT: nat := 64
  const MAX_AT: nat := 88

  /** Structural part of a descriptor. */
  function FieldOf(d: seq<U8>): FieldSchema
    requires |d| == DESCRIPTOR_SIZE
  {
    FieldSchema(d[2], TrimNul(d[4..36]), TrimNul(d[160..192]), StructuralBits(d[3]),
                Slots(d, 112), Slots(d, 136), Slots(d, 40))
  }

  /** Statistics part: the bits of undocumented types are dropped. */
  function StatsOf(c: Codec, d: seq<U8>): (s: FieldStats)
    requires |d| == DESCRIPTOR_SIZE
    ensures |s.min| == 3 && |s.max| == 3
  {
    FieldStats(HasBit(d[3], NO_DATA), Documented(d[2]) && HasBit(d[3], MIN), Documented(d[2]) && HasBit(d[3], MAX),
               Values(c, d[2], Slots(d, MIN_AT)), Values(c, d[2], Slots(d, MAX_AT)))
  }

  function DescriptorAt(b: seq<U8>, i: nat): (d: seq<U8>)
    requires (i + 1) * DESCRIPTOR_SIZE <= |b|
    ensures |d| == DESCRIPTOR_SIZE
  {
    b[i * DESCRIPTOR_SIZE..(i + 1) * DESCRIPTOR_SIZE]
  }

  ghost predicate ParsesTo(c: Codec, payload: seq<U8>, n: nat, p: Parsed)
    requires n * DESCRIPTOR_SIZE <= |payload|
  {
    |p.fields| == n && |p.stats| == n &&
    forall i: nat :: i < n ==> p.fields[i] == FieldOf(DescriptorAt(payload, i)) && p.stats[i] == StatsOf(c, DescriptorAt(payload, i))
  }

  lemma ParseStep(c: Codec, payload: seq<U8>, i: nat, p: Parsed)
    requires (i + 1) * DESCRIPTOR_SIZE <= |payload| && ParsesTo(c, payload, i, p)
    ensures var d := DescriptorAt(payload, i);
            ParsesTo(c, payload, i + 1, Parsed(p.fields + [FieldOf(d)], p.stats + [StatsOf(c, d)]))
  {
    var d := DescriptorAt(payload, i);
    var fields, stats := p.fields + [FieldOf(d)], p.stats + [StatsOf(c, d)];
    forall j: nat | j < i + 1
      ensures fields[j] == FieldOf(DescriptorAt(payload, j)) && stats[j] == StatsOf(c, DescriptorAt(payload, j))
    {
      if j < i {
        assert fields[j] == p.fields[j] && stats[j] == p.stats[j];
      }
    }
  }

  /** `ParsedExtraBytes::parse`: the length must be a whole number of descriptors. */
  method Parse(c: Codec, payload: seq<U8>) returns (p: Option<Parsed>)
    ensures p.None? <==> |payload| % DESCRIPTOR_SIZE != 0
    ensures p.Some? ==> ParsesTo(c, payload, |payload| / DESCRIPTOR_SIZE, p.value)
  {
    if |payload| % DESCRIPTOR_SIZE != 0 {
      return None;
    }
    var n := |payload| / DESCRIPTOR_SIZE;
    var fields: seq<FieldSchema>, stats: seq<FieldStats> := [], [];
    for i := 0 to n
      invariant ParsesTo(c, payload, i, Parsed(fields, stats))
    {
      ParseStep(c, payload, i, Parsed(fields, stats));
      var d := DescriptorAt(payload, i);
      fields, stats := fields + [FieldOf(d)], stats + [StatsOf(c, d)];
    }
    p := Some(Parsed(fields, stats));
  }

  /** One axis of the fold: whether a finite value was folded, and the extreme so far. */
  datatype Acc = Acc(folded: bool, merged: F64)

  function FoldMin(acc: Acc, x: F64): Acc {
    if !x.Fin? then acc else Acc(true, if Less(x, acc.merged) then x else acc.merged)
  }

  function FoldMax(acc: Acc, x: F64): Acc {
    if !x.Fin? then acc else Acc(true, if Less(acc.merged, x) then x else acc.merged)
  }

  /** Values of one axis over the files that have the stat. */
  function MinColumn(stats: seq<FieldStats>, axis: nat): seq<F64> {
    if stats == [] then []
    else
      var n := |stats| - 1;
      MinColumn(stats[..n], axis) + (if stats[n].hasMin && axis < |stats[n].min| then [stats[n].min[axis]] else [])
  }

  function MaxColumn(stats: seq<FieldStats>, axis: nat): seq<F64> {
    if stats == [] then []
    else
      var n := |stats| - 1;
      MaxColumn(stats[..n], axis) + (if stats[n].hasMax && axis < |stats[n].max| then [stats[n].max[axis]] else [])
  }

  /** The accumulator holds the least finite value, if there is one. */
  ghost predicate Least(values: seq<F64>, acc: Acc) {
    (acc.folded <==> exists x :: x in values && x.Fin?) &&
    (!acc.folded ==> acc.merged == PosInf) &&
    (acc.folded ==> acc.merged.Fin? && acc.merged in values && forall x :: x in values && x.Fin? ==> acc.merged.v <= x.v)
  }

  ghost predicate Greatest(values: seq<F64>, acc: Acc) {
    (acc.folded <==> exists x :: x in values && x.Fin?) &&
    (!acc.folded ==> acc.merged == NegInf) &&
    (acc.folded ==> acc.merged.Fin? && acc.merged in values && forall x :: x in values && x.Fin? ==> x.v <= acc.merged.v)
  }

  lemma LeastStep(values: seq<F64>, acc: Acc, x: F64)
    requires Least(values, acc)
    ensures Least(values + [x], FoldMin(acc, x))
  {
    var all := values + [x];
    assert x in all && forall y :: y in values ==> y in all;
    forall y | y in all ensures y in values || y == x {
    }
  }

  lemma GreatestStep(values: seq<F64>, acc: Acc, x: F64)
    requires Greatest(values, acc)
    ensures Greatest(values + [x], FoldMax(acc, x))
  {
    var all := values + [x];
    assert x in all && forall y :: y in values ==> y in all;
    forall y | y in all ensures y in values || y == x {
    }
  }

  /** The fold over the files seen so far. */
  ghost predicate Folded(stats: seq<FieldStats>, anyNoData: bool, mins: seq<Acc>, maxs: seq<Acc>) {
    (anyNoData <==> exists s :: s in stats && s.hasNoData) && |mins| == 3 && |maxs| == 3 &&
    (forall a: nat :: a < 3 ==> Least(MinColumn(stats, a), mins[a])) &&
    (forall a: nat :: a < 3 ==> Greatest(MaxColumn(stats, a), maxs[a]))
  }

  ghost predicate ThreeAxes(s: FieldStats) {
    |s.min| == 3 && |s.max| == 3
  }

  lemma ColumnSnoc(stats: seq<FieldStats>, s: FieldStats, a: nat)
    requires ThreeAxes(s) && a < 3
    ensures MinColumn(stats + [s], a) == MinColumn(stats, a) + (if s.hasMin then [s.min[a]] else [])
    ensures MaxColumn(stats + [s], a) == MaxColumn(stats, a) + (if s.hasMax then [s.max[a]] else [])
  {
    assert (stats + [s])[..|stats|] == stats;
  }

  lemma FoldedStep(stats: seq<FieldStats>, s: FieldStats, anyNoData: bool, mins: seq<Acc>, maxs: seq<Acc>, mins': seq<Acc>, maxs': seq<Acc>)
    requires Folded(stats, anyNoData, mins, maxs) && ThreeAxes(s) && |mins'| == 3 && |maxs'| == 3
    requires forall a: nat :: a < 3 ==> mins'[a] == if s.hasMin then FoldMin(mins[a], s.min[a]) else mins[a]
    requires forall a: nat :: a < 3 ==> maxs'[a] == if s.hasMax then FoldMax(maxs[a], s.max[a]) else maxs[a]
    ensures Folded(stats + [s], anyNoData || s.hasNoData, mins', maxs')
  {
    forall a: nat | a < 3
      ensures Least(MinColumn(stats + [s], a), mins'[a]) && Greatest(MaxColumn(stats + [s], a), maxs'[a])
    {
      ColumnSnoc(stats, s, a);
      LeastStep(MinColumn(stats, a), mins[a], s.min[a]);
      GreatestStep(MaxColumn(stats, a), maxs[a], s.max[a]);
      assert MinColumn(stats, a) + [] == MinColumn(stats, a) && MaxColumn(stats, a) + [] == MaxColumn(stats, a);
    }
    assert forall x :: x in stats + [s] <==> x in stats || x == s;
  }

  method FoldAxes(accs: seq<Acc>, incoming: seq<F64>, least: bool) returns (out: seq<Acc>)
    requires |accs| == 3 && |incoming| == 3
    ensures |out| == 3
    ensures forall a: nat :: a < 3 ==> out[a] == if least then FoldMin(accs[a], incoming[a]) else FoldMax(accs[a], incoming[a])
  {
    out := accs;
    for a := 0 to 3
      invariant |out| == 3
      invariant forall b: nat :: b < a ==> out[b] == if least then FoldMin(accs[b], incoming[b]) else FoldMax(accs[b], incoming[b])
      invariant forall b: nat :: a <= b < 3 ==> out[b] == accs[b]
    {
      out := out[a := if least then FoldMin(out[a], incoming[a]) else FoldMax(out[a], incoming[a])];
    }
  }

  /** Fold one field over all files. */
  method FoldField(stats: seq<FieldStats>) returns (anyNoData: bool, mins: seq<Acc>, maxs: seq<Acc>)
    requires forall s :: s in stats ==> ThreeAxes(s)
    ensures Folded(stats, anyNoData, mins, maxs)
  {
    anyNoData := false;
    mins, maxs := [Acc(false, PosInf), Acc(false, PosInf), Acc(false, PosInf)], [Acc(false, NegInf), Acc(false, NegInf), Acc(false, NegInf)];
    for i := 0 to |stats|
      invariant Folded(stats[..i], anyNoData, mins, maxs)
    {
      var s := stats[i];
      assert s in stats;
      var mins', maxs' := mins, maxs;
      if s.hasMin {
        mins' := FoldAxes(mins, s.min, true);
      }
      if s.hasMax {
        maxs' := FoldAxes(maxs, s.max, false);
      }
      FoldedStep(stats[..i], s, anyNoData, mins, maxs, mins', maxs');
      assert stats[..i + 1] == stats[..i] + [s];
      mins, maxs, anyNoData := mins', maxs', anyNoData || s.hasNoData;
    }
    assert stats[..|stats|] == stats;
  }

  /** The fold depends on which values there are, not on the order of the files. */
  lemma LeastUnique(a: seq<F64>, b: seq<F64>, x: Acc, y: Acc)
    requires Least(a, x) && Least(b, y) && forall v :: v in a <==> v in b
    ensures x == y
  {
  }

  lemma GreatestUnique(a: seq<F64>, b: seq<F64>, x: Acc, y: Acc)
    requires Greatest(a, x) && Greatest(b, y) && forall v :: v in a <==> v in b
    ensures x == y
  {
  }

  predicate HasMinValue(s: FieldStats, a: nat, v: F64) {
    s.hasMin && a < |s.min| && s.min[a] == v
  }

  predicate HasMaxValue(s: FieldStats, a: nat, v: F64) {
    s.hasMax && a < |s.max| && s.max[a] == v
  }

  lemma {:induction false} MinColumnValues(stats: seq<FieldStats>, a: nat, v: F64)
    requires a < 3 && forall s :: s in stats ==> ThreeAxes(s)
    ensures v in MinColumn(stats, a) <==> exists s :: s in stats && HasMinValue(s, a, v)
  {
    if stats != [] {
      var n := |stats| - 1;
      MinColumnValues(stats[..n], a, v);
      MembersSnoc(stats[..n], stats[n]);
      assert stats == stats[..n] + [stats[n]] && stats[n] in stats;
    }
  }

  lemma {:induction false} MaxColumnValues(stats: seq<FieldStats>, a: nat, v: F64)
    requires a < 3 && forall s :: s in stats ==> ThreeAxes(s)
    ensures v in MaxColumn(stats, a) <==> exists s :: s in stats && HasMaxValue(s, a, v)
  {
    if stats != [] {
      var n := |stats| - 1;
      MaxColumnValues(stats[..n], a, v);
      MembersSnoc(stats[..n], stats[n]);
      assert stats == stats[..n] + [stats[n]] && stats[n] in stats;
    }
  }

  lemma MembersSnoc<T>(a: seq<T>, x: T)
    ensures forall y :: y in a + [x] <==> y in a || y == x
  {
  }

  /** Merging the same files in another order gives the same result. */
  lemma OrderIrrelevant(a: seq<FieldStats>, b: seq<FieldStats>, nd: bool, mins: seq<Acc>, maxs: seq<Acc>,
                        nd': bool, mins': seq<Acc>, maxs': seq<Acc>)
    requires Folded(a, nd, mins, maxs) && Folded(b, nd', mins', maxs')
    requires (forall s :: s in a <==> s in b) && forall s :: s in a ==> ThreeAxes(s)
    ensures nd == nd' && mins == mins' && maxs == maxs'
  {
    forall x: nat | x < 3 ensures mins[x] == mins'[x] && maxs[x] == maxs'[x] {
      forall v ensures (v in MinColumn(a, x) <==> v in MinColumn(b, x)) && (v in MaxColumn(a, x) <==> v in MaxColumn(b, x)) {
        MinColumnValues(a, x, v);
        MaxColumnValues(a, x, v);
        MinColumnValues(b, x, v);
        MaxColumnValues(b, x, v);
      }
      LeastUnique(MinColumn(a, x), MinColumn(b, x), mins[x], mins'[x]);
      GreatestUnique(MaxColumn(a, x), MaxColumn(b, x), maxs[x], maxs'[x]);
    }
  }

  /** The merged options byte: structural bits kept, statistic bits from the fold of axis 0. */
  function NewOptions(options: U8, anyNoData: bool, anyMin: bool, anyMax: bool): U8 {
    StructuralBits(options) + (if anyNoData then NO_DATA else 0) + (if anyMin then MIN else 0) + (if anyMax then MAX else 0)
  }

  lemma NewOptionsBits(options: U8, anyNoData: bool, anyMin: bool, anyMax: bool)
    ensures var o := NewOptions(options, anyNoData, anyMin, anyMax);
            (HasBit(o, NO_DATA) <==> anyNoData) && (HasBit(o, MIN) <==> anyMin) && (HasBit(o, MAX) <==> anyMax) &&
            StructuralBits(o) == StructuralBits(options)
  {
  }

  /** The word written for an axis; axes nothing was folded into are zeroed. */
  function RawOf(c: Codec, dataType: U8, acc: Acc): U64 {
    if !acc.folded then 0
    else
      match Encode(c, dataType, acc.merged)
      case Some(raw) => raw
      case None => 0
  }

  function PutAt(d: seq<U8>, at: nat, bytes: seq<U8>): (r: seq<U8>)
    requires at + |bytes| <= |d|
    ensures |r| == |d|
  {
    d[..at] + bytes + d[at + |bytes|..]
  }

  function SlotBytes(c: Codec, dataType: U8, accs: seq<Acc>): (b: seq<U8>)
    requires |accs| == 3
    ensures |b| == 24
  {
    ToLE(RawOf(c, dataType, accs[0]), 8) + ToLE(RawOf(c, dataType, accs[1]), 8) + ToLE(RawOf(c, dataType, accs[2]), 8)
  }

  /** A descriptor after merging. */
  function Merged(c: Codec, d: seq<U8>, anyNoData: bool, mins: seq<Acc>, maxs: seq<Acc>): (r: seq<U8>)
    requires |d| == DESCRIPTOR_SIZE && |mins| == 3 && |maxs| == 3
    ensures |r| == DESCRIPTOR_SIZE
  {
    var d1 := PutAt(d, 3, [NewOptions(d[3], anyNoData, mins[0].folded, maxs[0].folded)]);
    var d2 := if mins[0].folded then PutAt(d1, MIN_AT, SlotBytes(c, d[2], mins)) else d1;
    if maxs[0].folded then PutAt(d2, MAX_AT, SlotBytes(c, d[2], maxs)) else d2
  }

  /** Only the options byte and the min and max slots can differ. */
  lemma MergedFrame(c: Codec, d: seq<U8>, anyNoData: bool, mins: seq<Acc>, maxs: seq<Acc>)
    requires |d| == DESCRIPTOR_SIZE && |mins| == 3 && |maxs| == 3
    ensures var r := Merged(c, d, anyNoData, mins, maxs);
            r[..3] == d[..3] && r[4..MIN_AT] == d[4..MIN_AT] && r[112..] == d[112..] &&
            r[3] == NewOptions(d[3], anyNoData, mins[0].folded, maxs[0].folded)
  {
    var d1 := PutAt(d, 3, [NewOptions(d[3], anyNoData, mins[0].folded, maxs[0].folded)]);
    PutFrame(d, 3, [NewOptions(d[3], anyNoData, mins[0].folded, maxs[0].folded)]);
    SubSlice(d1, d, 4, DESCRIPTOR_SIZE, 4, MIN_AT);
    SubSlice(d1, d, 4, DESCRIPTOR_SIZE, 112, DESCRIPTOR_SIZE);
    SlotsFrame(c, d1, d[2], mins, maxs);
  }

  /** Writing the slots leaves the rest alone. */
  lemma SlotsFrame(c: Codec, d1: seq<U8>, dataType: U8, mins: seq<Acc>, maxs: seq<Acc>)
    requires |d1| == DESCRIPTOR_SIZE && |mins| == 3 && |maxs| == 3
    ensures var d2 := if mins[0].folded then PutAt(d1, MIN_AT, SlotBytes(c, dataType, mins)) else d1;
            var r := if maxs[0].folded then PutAt(d2, MAX_AT, SlotBytes(c, dataType, maxs)) else d2;
            r[..3] == d1[..3] && r[3] == d1[3] && r[4..MIN_AT] == d1[4..MIN_AT] && r[112..] == d1[112..]
  {
    var d2 := if mins[0].folded then PutAt(d1, MIN_AT, SlotBytes(c, dataType, mins)) else d1;
    if mins[0].folded {
      SlotFrame(d1, MIN_AT, SlotBytes(c, dataType, mins));
    }
    if maxs[0].folded {
      SlotFrame(d2, MAX_AT, SlotBytes(c, dataType, maxs));
    }
  }

  lemma SlotFrame(d: seq<U8>, at: nat, bytes: seq<U8>)
    requires |d| == DESCRIPTOR_SIZE && MIN_AT <= at && |bytes| == 24 && at + 24 <= 112
    ensures var r := PutAt(d, at, bytes);
            r[..3] == d[..3] && r[3] == d[3] && r[4..MIN_AT] == d[4..MIN_AT] && r[112..] == d[112..]
  {
    var r := PutAt(d, at, bytes);
    PutFrame(d, at, bytes);
    SubSlice(r, d, 0, at, 0, 3);
    SubSlice(r, d, 0, at, 3, 4);
    SubSlice(r, d, 0, at, 4, MIN_AT);
    SubSlice(r, d, at + 24, DESCRIPTOR_SIZE, 112, DESCRIPTOR_SIZE);
    assert r[3..4][0] == d[3..4][0];
  }

  /** Writing bytes changes nothing before or after them. */
  lemma PutFrame(d: seq<U8>, at: nat, bytes: seq<U8>)
    requires at + |bytes| <= |d|
    ensures PutAt(d, at, bytes)[0..at] == d[0..at] && PutAt(d, at, bytes)[at + |bytes|..|d|] == d[at + |bytes|..|d|]
    ensures forall i :: 0 <= i < |bytes| ==> PutAt(d, at, bytes)[at + i] == bytes[i]
  {
    var r := PutAt(d, at, bytes);
    assert r == d[..at] + (bytes + d[at + |bytes|..]);
    forall i | at + |bytes| <= i < |d| ensures r[i] == d[i] {
    }
  }

  /** The structural part of every field is unchanged. */
  lemma MergeKeepsStructure(c: Codec, d: seq<U8>, anyNoData: bool, mins: seq<Acc>, maxs: seq<Acc>)
    requires |d| == DESCRIPTOR_SIZE && |mins| == 3 && |maxs| == 3
    ensures FieldOf(Merged(c, d, anyNoData, mins, maxs)) == FieldOf(d)
  {
    var r := Merged(c, d, anyNoData, mins, maxs);
    MergedFrame(c, d, anyNoData, mins, maxs);
    NewOptionsBits(d[3], anyNoData, mins[0].folded, maxs[0].folded);
    SubSlice(r, d, 0, 3, 2, 3);
    SubSlice(r, d, 4, MIN_AT, 4, 36);
    SubSlices(r, d, 4, MIN_AT, 40);
    SubSlices(r, d, 112, DESCRIPTOR_SIZE, 112);
    SubSlices(r, d, 112, DESCRIPTOR_SIZE, 136);
    SubSlice(r, d, 112, DESCRIPTOR_SIZE, 160, 192);
    assert r[..3][2] == d[..3][2];
  }

  lemma SubSlice(r: seq<U8>, d: seq<U8>, from: nat, to: nat, lo: nat, hi: nat)
    requires from <= lo <= hi <= to <= |r| == |d| && r[from..to] == d[from..to]
    ensures r[lo..hi] == d[lo..hi]
  {
    SliceOfSlice(r, from, to, lo, hi);
    SliceOfSlice(d, from, to, lo, hi);
  }

  lemma SliceOfSlice(s: seq<U8>, from: nat, to: nat, lo: nat, hi: nat)
    requires from <= lo <= hi <= to <= |s|
    ensures s[from..to][lo - from..hi - from] == s[lo..hi]
  {
    assert |s[from..to][lo - from..hi - from]| == |s[lo..hi]|;
    forall i | 0 <= i < hi - lo ensures s[from..to][lo - from..hi - from][i] == s[lo..hi][i] {
    }
  }

  lemma SubSlices(r: seq<U8>, d: seq<U8>, from: nat, to: nat, at: nat)
    requires from <= at && at + 24 <= to <= |r| == |d| && r[from..to] == d[from..to]
    ensures Slots(r, at) == Slots(d, at)
  {
    SubSlice(r, d, from, to, at, at + 8);
    SubSlice(r, d, from, to, at + 8, at + 16);
    SubSlice(r, d, from, to, at + 16, at + 24);
  }

  lemma WordRoundTrip(x: U64)
    ensures Word(ToLE(x, 8)) == x
  {
    Spans();
    LERoundTrip(x, 8);
  }

  lemma ThreeWords(b: seq<U8>, x: seq<U8>, y: seq<U8>, z: seq<U8>)
    requires |x| == 8 && |y| == 8 && |z| == 8 && b == x + y + z
    ensures b[0..8] == x && b[8..16] == y && b[16..24] == z
  {
  }

  lemma SlotsOfBytes(d: seq<U8>, at: nat, x: U64, y: U64, z: U64)
    requires at + 24 <= |d| && d[at..at + 24] == ToLE(x, 8) + ToLE(y, 8) + ToLE(z, 8)
    ensures Slots(d, at) == [x, y, z]
  {
    ThreeWords(d[at..at + 24], ToLE(x, 8), ToLE(y, 8), ToLE(z, 8));
    SliceOfSlice(d, at, at + 24, at, at + 8);
    SliceOfSlice(d, at, at + 24, at + 8, at + 16);
    SliceOfSlice(d, at, at + 24, at + 16, at + 24);
    WordRoundTrip(x);
    WordRoundTrip(y);
    WordRoundTrip(z);
  }

  lemma MergedSlots(c: Codec, d: seq<U8>, anyNoData: bool, mins: seq<Acc>, maxs: seq<Acc>)
    requires |d| == DESCRIPTOR_SIZE && |mins| == 3 && |maxs| == 3
    ensures var r := Merged(c, d, anyNoData, mins, maxs);
            (mins[0].folded ==> r[MIN_AT..MIN_AT + 24] == SlotBytes(c, d[2], mins)) &&
            (maxs[0].folded ==> r[MAX_AT..MAX_AT + 24] == SlotBytes(c, d[2], maxs))
  {
  }

  /** The statistic bits of the result say whether axis 0 has a finite value in some file that has
      the statistic. */
  lemma MergedBits(c: Codec, d: seq<U8>, stats: seq<FieldStats>, anyNoData: bool, mins: seq<Acc>, maxs: seq<Acc>)
    requires |d| == DESCRIPTOR_SIZE && Documented(d[2]) && Folded(stats, anyNoData, mins, maxs)
    ensures var s := StatsOf(c, Merged(c, d, anyNoData, mins, maxs));
            (s.hasMin <==> exists x :: x in MinColumn(stats, 0) && x.Fin?) &&
            (s.hasMax <==> exists x :: x in MaxColumn(stats, 0) && x.Fin?) &&
            (s.hasNoData <==> exists f :: f in stats && f.hasNoData)
  {
    var r := Merged(c, d, anyNoData, mins, maxs);
    MergedFrame(c, d, anyNoData, mins, maxs);
    assert r[2] == r[..3][2] == d[..3][2];
    NewOptionsBits(d[3], anyNoData, mins[0].folded, maxs[0].folded);
    assert Least(MinColumn(stats, 0), mins[0]) && Greatest(MaxColumn(stats, 0), maxs[0]);
  }

  /** Every finite value of the axis was read from a slot with this data type. */
  ghost predicate ReadWith(c: Codec, dataType: U8, values: seq<F64>) {
    forall x :: x in values ==> exists raw: U64 :: DecodeOrNaN(c, dataType, raw) == x
  }

  /** Each written minimum reads back as the least finite value of its axis over the files that
      have the statistic. The canonical descriptor has the data type the values were read with. */
  lemma MergedMin(c: Codec, d: seq<U8>, stats: seq<FieldStats>, anyNoData: bool, mins: seq<Acc>, maxs: seq<Acc>, axis: nat)
    requires CodecOk(c) && |d| == DESCRIPTOR_SIZE && Documented(d[2]) && axis < 3
    requires Folded(stats, anyNoData, mins, maxs) && ReadWith(c, d[2], MinColumn(stats, axis))
    requires mins[0].folded && mins[axis].folded
    ensures Least(MinColumn(stats, axis), Acc(true, StatsOf(c, Merged(c, d, anyNoData, mins, maxs)).min[axis]))
  {
    var r := Merged(c, d, anyNoData, mins, maxs);
    MergedFrame(c, d, anyNoData, mins, maxs);
    assert r[2] == r[..3][2] == d[..3][2];
    MergedSlots(c, d, anyNoData, mins, maxs);
    assert Least(MinColumn(stats, axis), mins[axis]);
    WrittenSlot(c, d[2], r, MIN_AT, mins, axis);
  }

  /** The same for the maximum. */
  lemma MergedMax(c: Codec, d: seq<U8>, stats: seq<FieldStats>, anyNoData: bool, mins: seq<Acc>, maxs: seq<Acc>, axis: nat)
    requires CodecOk(c) && |d| == DESCRIPTOR_SIZE && Documented(d[2]) && axis < 3
    requires Folded(stats, anyNoData, mins, maxs) && ReadWith(c, d[2], MaxColumn(stats, axis))
    requires maxs[0].folded && maxs[axis].folded
    ensures Greatest(MaxColumn(stats, axis), Acc(true, StatsOf(c, Merged(c, d, anyNoData, mins, maxs)).max[axis]))
  {
    var r := Merged(c, d, anyNoData, mins, maxs);
    MergedFrame(c, d, anyNoData, mins, maxs);
    assert r[2] == r[..3][2] == d[..3][2];
    MergedSlots(c, d, anyNoData, mins, maxs);
    assert Greatest(MaxColumn(stats, axis), maxs[axis]);
    WrittenSlot(c, d[2], r, MAX_AT, maxs, axis);
  }

  lemma WrittenSlot(c: Codec, dataType: U8, r: seq<U8>, at: nat, accs: seq<Acc>, axis: nat)
    requires CodecOk(c) && Documented(dataType) && |accs| == 3 && axis < 3 && at + 24 <= |r|
    requires r[at..at + 24] == SlotBytes(c, dataType, accs) && accs[axis].folded && accs[axis].merged.Fin?
    requires exists raw: U64 :: DecodeOrNaN(c, dataType, raw) == accs[axis].merged
    ensures DecodeOrNaN(c, dataType, Slots(r, at)[axis]) == accs[axis].merged
  {
    SlotsOfBytes(r, at, RawOf(c, dataType, accs[0]), RawOf(c, dataType, accs[1]), RawOf(c, dataType, accs[2]));
    var raw: U64 :| DecodeOrNaN(c, dataType, raw) == accs[axis].merged;
    SlotRoundTrip(c, dataType, raw, accs[axis].merged);
  }

  /** The first `i` of the bytes put in place. */
  function Spliced<T>(was: seq<T>, at: nat, bytes: seq<T>, i: nat): seq<T>
    requires at + |bytes| <= |was| && i <= |bytes|
  {
    was[..at] + bytes[..i] + was[at + i..]
  }

  lemma SplicedEnds<T>(was: seq<T>, at: nat, bytes: seq<T>)
    requires at + |bytes| <= |was|
    ensures Spliced(was, at, bytes, 0) == was
    ensures Spliced(was, at, bytes, |bytes|) == was[..at] + bytes + was[at + |bytes|..]
  {
    assert bytes[..|bytes|] == bytes;
  }

  lemma SplicedStep<T>(was: seq<T>, at: nat, bytes: seq<T>, i: nat)
    requires at + |bytes| <= |was| && i < |bytes|
    ensures |Spliced(was, at, bytes, i)| == |was|
    ensures Spliced(was, at, bytes, i)[at + i := bytes[i]] == Spliced(was, at, bytes, i + 1)
  {
    var a, b, c := was[..at], bytes[..i], was[at + i..];
    assert (a + b + c)[at + i := bytes[i]] == a + b + c[0 := bytes[i]];
    assert c[0 := bytes[i]] == [bytes[i]] + was[at + i + 1..];
    assert bytes[..i + 1] == b + [bytes[i]];
  }

  /** Write bytes in place. */
  method WriteAt(buf: array<U8>, at: nat, bytes: seq<U8>)
    requires at + |bytes| <= buf.Length
    modifies buf
    ensures buf[..] == PutAt(old(buf[..]), at, bytes)
  {
    ghost var was := buf[..];
    SplicedEnds(was, at, bytes);
    for i := 0 to |bytes|
      invariant buf[..] == Spliced(was, at, bytes, i)
    {
      ghost var now := buf[..];
      SplicedStep(was, at, bytes, i);
      buf[at + i] := bytes[i];
      assert buf[..] == now[at + i := bytes[i]];
    }
  }

  lemma PutInside(b: seq<U8>, off: nat, at: nat, bytes: seq<U8>)
    requires off + DESCRIPTOR_SIZE <= |b| && at + |bytes| <= DESCRIPTOR_SIZE
    ensures var d := b[off..off + DESCRIPTOR_SIZE];
            PutAt(b, off + at, bytes) == PutAt(b, off, PutAt(d, at, bytes))
  {
  }

  lemma PutPut(b: seq<U8>, off: nat, x: seq<U8>, y: seq<U8>)
    requires off + |x| <= |b| && |x| == |y|
    ensures PutAt(PutAt(b, off, x), off, y) == PutAt(b, off, y)
    ensures PutAt(b, off, x)[off..off + |x|] == x
  {
  }

  /** Patch one descriptor of the canonical buffer. */
  method PatchDescriptor(c: Codec, buf: array<U8>, off: nat, anyNoData: bool, mins: seq<Acc>, maxs: seq<Acc>)
    requires off + DESCRIPTOR_SIZE <= buf.Length && |mins| == 3 && |maxs| == 3
    modifies buf
    ensures buf[..] == PutAt(old(buf[..]), off, Merged(c, old(buf[off..off + DESCRIPTOR_SIZE]), anyNoData, mins, maxs))
  {
    ghost var b, d := buf[..], buf[off..off + DESCRIPTOR_SIZE];
    var dataType := buf[off + 2];
    var options := NewOptions(buf[off + 3], anyNoData, mins[0].folded, maxs[0].folded);
    PutSelf(b, off);
    ghost var d1 := PutAt(d, 3, [options]);
    WriteField(buf, off, 3, [options], b, d);
    ghost var d2 := d1;
    if mins[0].folded {
      d2 := PutAt(d1, MIN_AT, SlotBytes(c, dataType, mins));
      WriteField(buf, off, MIN_AT, SlotBytes(c, dataType, mins), b, d1);
    }
    if maxs[0].folded {
      WriteField(buf, off, MAX_AT, SlotBytes(c, dataType, maxs), b, d2);
    }
  }

  lemma PutSelf(b: seq<U8>, off: nat)
    requires off + DESCRIPTOR_SIZE <= |b|
    ensures PutAt(b, off, b[off..off + DESCRIPTOR_SIZE]) == b
  {
  }

  /** Write one field of the descriptor at `off`, which so far reads `d`. */
  method WriteField(buf: array<U8>, off: nat, at: nat, bytes: seq<U8>, ghost b: seq<U8>, ghost d: seq<U8>)
    requires |d| == DESCRIPTOR_SIZE && off + DESCRIPTOR_SIZE <= |b| && at + |bytes| <= DESCRIPTOR_SIZE && buf[..] == PutAt(b, off, d)
    modifies buf
    ensures buf[..] == PutAt(b, off, PutAt(d, at, bytes))
  {
    WriteAt(buf, off + at, bytes);
    PutPut(b, off, d, PutAt(d, at, bytes));
    PutInside(PutAt(b, off, d), off, at, bytes);
  }

  /** Parsed files as `Parse` makes them. */
  ghost predicate WellFormed(files: seq<Parsed>) {
    forall f :: f in files ==> |f.stats| == |f.fields| && forall s :: s in f.stats ==> ThreeAxes(s)
  }

  ghost predicate SameCount(files: seq<Parsed>, n: nat) {
    forall f :: f in files ==> |f.fields| == n
  }

  /** `stats` are the statistics of field `i` over all files. */
  ghost predicate Column(files: seq<Parsed>, i: nat, stats: seq<FieldStats>) {
    |stats| == |files| &&
    forall j :: 0 <= j < |files| ==> i < |files[j].stats| && stats[j] == files[j].stats[i]
  }

  /** Descriptor `after` is the merge of field `i` of all files into `before`. */
  ghost predicate MergedFrom(c: Codec, files: seq<Parsed>, i: nat, before: seq<U8>, after: seq<U8>)
    requires |before| == DESCRIPTOR_SIZE
  {
    exists stats, nd, mins, maxs ::
      Column(files, i, stats) && Folded(stats, nd, mins, maxs) && after == Merged(c, before, nd, mins, maxs)
  }

  /** Collect one field's statistics, checking the field counts. */
  method CollectColumn(files: seq<Parsed>, n: nat, i: nat) returns (ok: bool, stats: seq<FieldStats>)
    requires WellFormed(files) && i < n
    ensures ok <==> SameCount(files, n)
    ensures ok ==> Column(files, i, stats) && forall s :: s in stats ==> ThreeAxes(s)
  {
    stats := [];
    for j := 0 to |files|
      invariant SameCount(files[..j], n) && Column(files[..j], i, stats)
      invariant forall s :: s in stats ==> ThreeAxes(s)
    {
      assert files[j] in files;
      if |files[j].fields| != n {
        return false, [];
      }
      assert files[..j + 1] == files[..j] + [files[j]];
      assert files[j].stats[i] in files[j].stats;
      stats := stats + [files[j].stats[i]];
    }
    assert files[..|files|] == files;
    ok := true;
  }

  /** The first `k` descriptors are merged, the others untouched. */
  ghost predicate MergedTo(c: Codec, files: seq<Parsed>, was: seq<U8>, now: seq<U8>, n: nat, k: nat)
    requires |was| == |now| == n * DESCRIPTOR_SIZE && k <= n
  {
    (forall i: nat :: i < k ==> MergedFrom(c, files, i, DescriptorAt(was, i), DescriptorAt(now, i))) &&
    (forall i: nat :: k <= i < n ==> DescriptorAt(now, i) == DescriptorAt(was, i))
  }

  lemma PutDescriptor(b: seq<U8>, n: nat, k: nat, d: seq<U8>, i: nat)
    requires |b| == n * DESCRIPTOR_SIZE && k < n && i < n && |d| == DESCRIPTOR_SIZE
    ensures DescriptorAt(PutAt(b, k * DESCRIPTOR_SIZE, d), i) == if i == k then d else DescriptorAt(b, i)
  {
  }

  lemma MergedStep(c: Codec, files: seq<Parsed>, was: seq<U8>, now: seq<U8>, n: nat, k: nat, d: seq<U8>)
    requires |was| == |now| == n * DESCRIPTOR_SIZE && k < n && MergedTo(c, files, was, now, n, k)
    requires |d| == DESCRIPTOR_SIZE && MergedFrom(c, files, k, DescriptorAt(was, k), d)
    ensures MergedTo(c, files, was, PutAt(now, k * DESCRIPTOR_SIZE, d), n, k + 1)
  {
    var now' := PutAt(now, k * DESCRIPTOR_SIZE, d);
    forall i: nat | i < n ensures DescriptorAt(now', i) == if i == k then d else DescriptorAt(now, i) {
      PutDescriptor(now, n, k, d, i);
    }
  }

  /** `merge_stats_into_canonical`: on success every descriptor is the merge of its field over all
      files; on failure, and when there are no files, the buffer is untouched. */
  method MergeStats(c: Codec, canonical: array<U8>, files: seq<Parsed>) returns (ok: bool)
    requires WellFormed(files)
    modifies canonical
    ensures ok <==> files == [] || (canonical.Length % DESCRIPTOR_SIZE == 0 &&
                                    (canonical.Length == 0 || SameCount(files, canonical.Length / DESCRIPTOR_SIZE)))
    ensures !ok || files == [] ==> canonical[..] == old(canonical[..])
    ensures ok && files != [] ==>
              MergedTo(c, files, old(canonical[..]), canonical[..], canonical.Length / DESCRIPTOR_SIZE,
                       canonical.Length / DESCRIPTOR_SIZE)
  {
    if files == [] {
      return true;
    }
    if canonical.Length % DESCRIPTOR_SIZE != 0 {
      return false;
    }
    var n := canonical.Length / DESCRIPTOR_SIZE;
    ghost var was := canonical[..];
    for k := 0 to n
      invariant MergedTo(c, files, was, canonical[..], n, k)
      invariant k == 0 ==> canonical[..] == was
      invariant k > 0 ==> SameCount(files, n)
    {
      var counted, stats := CollectColumn(files, n, k);
      if !counted {
        return false;
      }
      MergeField(c, canonical, files, n, k, stats, was);
    }
    ok := true;
  }

  /** Fold and patch one field. */
  method MergeField(c: Codec, canonical: array<U8>, ghost files: seq<Parsed>, n: nat, k: nat, stats: seq<FieldStats>, ghost was: seq<U8>)
    requires |was| == canonical.Length == n * DESCRIPTOR_SIZE && k < n && MergedTo(c, files, was, canonical[..], n, k)
    requires Column(files, k, stats) && forall s :: s in stats ==> ThreeAxes(s)
    modifies canonical
    ensures MergedTo(c, files, was, canonical[..], n, k + 1)
  {
    var nd, mins, maxs := FoldField(stats);
    ghost var now := canonical[..];
    var off := k * DESCRIPTOR_SIZE;
    assert canonical[off..off + DESCRIPTOR_SIZE] == DescriptorAt(now, k) == DescriptorAt(was, k);
    PatchDescriptor(c, canonical, off, nd, mins, maxs);
    ghost var d := Merged(c, DescriptorAt(was, k), nd, mins, maxs);
    assert MergedFrom(c, files, k, DescriptorAt(was, k), d);
    MergedStep(c, files, was, now, n, k, d);
  }
}
