/** What the merged Extra Bytes descriptors say, stated on the bytes of the input files
    (the statistics merge of src/validate.rs and src/extra_bytes.rs): ranges are the least and
    greatest over all files, the layout is the first file's, and the order of files is irrelevant. */
module ExtraBytesMerge {
  import opened Bytes
  import opened ExtraBytes

  /** Every payload holds `n` descriptors. */
  ghost predicate SameSize(payloads: seq<seq<U8>>, n: nat) {
    forall j :: 0 <= j < |payloads| ==> |payloads[j]| == n * DESCRIPTOR_SIZE
  }

  /** `files` are the payloads as `Parse` gives them. */
  ghost predicate FromPayloads(c: Codec, payloads: seq<seq<U8>>, n: nat, files: seq<Parsed>)
    requires SameSize(payloads, n)
  {
    |files| == |payloads| && forall j :: 0 <= j < |files| ==> ParsesTo(c, payloads[j], n, files[j])
  }

  /** The descriptors of one field, file by file. */
  ghost function Descriptors(payloads: seq<seq<U8>>, n: nat, i: nat): (ds: seq<seq<U8>>)
    requires SameSize(payloads, n) && i < n
    ensures |ds| == |payloads|
    ensures forall j :: 0 <= j < |ds| ==> |ds[j]| == DESCRIPTOR_SIZE && ds[j] == DescriptorAt(payloads[j], i)
  {
    seq(|payloads|, j requires 0 <= j < |payloads| => DescriptorAt(payloads[j], i))
  }

  ghost predicate Sized(ds: seq<seq<U8>>) {
    forall j :: 0 <= j < |ds| ==> |ds[j]| == DESCRIPTOR_SIZE
  }

  /** Statistics of one field over all files. */
  ghost function StatsColumn(c: Codec, ds: seq<seq<U8>>): (s: seq<FieldStats>)
    requires Sized(ds)
    ensures |s| == |ds| && (forall j :: 0 <= j < |s| ==> s[j] == StatsOf(c, ds[j])) && forall x :: x in s ==> ThreeAxes(x)
  {
    seq(|ds|, j requires 0 <= j < |ds| => StatsOf(c, ds[j]))
  }

  /** Some file advertises `x` as its minimum on an axis. */
  ghost predicate SomeMin(stats: seq<FieldStats>, axis: nat, x: real) {
    exists s :: s in stats && HasMinValue(s, axis, Fin(x))
  }

  ghost predicate SomeMax(stats: seq<FieldStats>, axis: nat, x: real) {
    exists s :: s in stats && HasMaxValue(s, axis, Fin(x))
  }

  /** `x` is the least minimum any file advertises. */
  ghost predicate LeastMin(stats: seq<FieldStats>, axis: nat, x: real) {
    SomeMin(stats, axis, x) && forall y :: SomeMin(stats, axis, y) ==> x <= y
  }

  ghost predicate GreatestMax(stats: seq<FieldStats>, axis: nat, x: real) {
    SomeMax(stats, axis, x) && forall y :: SomeMax(stats, axis, y) ==> y <= x
  }

  ghost predicate SomeNoData(stats: seq<FieldStats>) {
    exists s :: s in stats && s.hasNoData
  }

  ghost predicate AllThreeAxes(stats: seq<FieldStats>) {
    forall s :: s in stats ==> ThreeAxes(s)
  }

  lemma ColumnIsStats(c: Codec, payloads: seq<seq<U8>>, n: nat, files: seq<Parsed>, i: nat, stats: seq<FieldStats>)
    requires SameSize(payloads, n) && FromPayloads(c, payloads, n, files) && i < n && Column(files, i, stats)
    ensures stats == StatsColumn(c, Descriptors(payloads, n, i))
  {
    var ds := Descriptors(payloads, n, i);
    forall j | 0 <= j < |stats| ensures stats[j] == StatsOf(c, ds[j]) {
      assert ParsesTo(c, payloads[j], n, files[j]);
    }
  }

  /** All files read the field with one data type. */
  ghost predicate OneType(ds: seq<seq<U8>>, dataType: U8)
    requires Sized(ds)
  {
    forall j :: 0 <= j < |ds| ==> ds[j][2] == dataType
  }

  lemma StatWasRead(c: Codec, d: seq<U8>, axis: nat)
    requires |d| == DESCRIPTOR_SIZE && axis < 3
    ensures exists raw: U64 :: DecodeOrNaN(c, d[2], raw) == StatsOf(c, d).min[axis]
    ensures exists raw: U64 :: DecodeOrNaN(c, d[2], raw) == StatsOf(c, d).max[axis]
  {
    var lo, hi := Slots(d, MIN_AT)[axis], Slots(d, MAX_AT)[axis];
    assert DecodeOrNaN(c, d[2], lo) == StatsOf(c, d).min[axis];
    assert DecodeOrNaN(c, d[2], hi) == StatsOf(c, d).max[axis];
  }

  lemma StatsWereRead(c: Codec, ds: seq<seq<U8>>, dataType: U8, axis: nat)
    requires Sized(ds) && OneType(ds, dataType) && axis < 3
    ensures ReadWith(c, dataType, MinColumn(StatsColumn(c, ds), axis)) && ReadWith(c, dataType, MaxColumn(StatsColumn(c, ds), axis))
  {
    var stats := StatsColumn(c, ds);
    forall s | s in stats
      ensures exists raw: U64 :: DecodeOrNaN(c, dataType, raw) == s.min[axis]
      ensures exists raw: U64 :: DecodeOrNaN(c, dataType, raw) == s.max[axis]
    {
      var j :| 0 <= j < |stats| && stats[j] == s;
      StatWasRead(c, ds[j], axis);
    }
    ColumnsWereRead(c, stats, dataType, axis);
  }

  lemma ColumnsWereRead(c: Codec, stats: seq<FieldStats>, dataType: U8, axis: nat)
    requires AllThreeAxes(stats) && axis < 3
    requires forall s :: s in stats ==> exists raw: U64 :: DecodeOrNaN(c, dataType, raw) == s.min[axis]
    requires forall s :: s in stats ==> exists raw: U64 :: DecodeOrNaN(c, dataType, raw) == s.max[axis]
    ensures ReadWith(c, dataType, MinColumn(stats, axis)) && ReadWith(c, dataType, MaxColumn(stats, axis))
  {
    forall v | v in MinColumn(stats, axis) ensures exists raw: U64 :: DecodeOrNaN(c, dataType, raw) == v {
      MinColumnValues(stats, axis, v);
      var s :| s in stats && HasMinValue(s, axis, v);
    }
    forall v | v in MaxColumn(stats, axis) ensures exists raw: U64 :: DecodeOrNaN(c, dataType, raw) == v {
      MaxColumnValues(stats, axis, v);
      var s :| s in stats && HasMaxValue(s, axis, v);
    }
  }

  lemma FiniteMin(stats: seq<FieldStats>, axis: nat)
    requires AllThreeAxes(stats) && axis < 3
    ensures (exists v :: v in MinColumn(stats, axis) && v.Fin?) <==> exists x :: SomeMin(stats, axis, x)
  {
    if v :| v in MinColumn(stats, axis) && v.Fin? {
      MinColumnValues(stats, axis, v);
      assert SomeMin(stats, axis, v.v);
    }
    if x :| SomeMin(stats, axis, x) {
      MinColumnValues(stats, axis, Fin(x));
    }
  }

  lemma FiniteMax(stats: seq<FieldStats>, axis: nat)
    requires AllThreeAxes(stats) && axis < 3
    ensures (exists v :: v in MaxColumn(stats, axis) && v.Fin?) <==> exists x :: SomeMax(stats, axis, x)
  {
    if v :| v in MaxColumn(stats, axis) && v.Fin? {
      MaxColumnValues(stats, axis, v);
      assert SomeMax(stats, axis, v.v);
    }
    if x :| SomeMax(stats, axis, x) {
      MaxColumnValues(stats, axis, Fin(x));
    }
  }

  lemma LeastIsLeastMin(stats: seq<FieldStats>, axis: nat, x: F64)
    requires AllThreeAxes(stats) && axis < 3 && Least(MinColumn(stats, axis), Acc(true, x))
    ensures x.Fin? && LeastMin(stats, axis, x.v)
  {
    MinColumnValues(stats, axis, x);
    forall y | SomeMin(stats, axis, y) ensures x.v <= y {
      MinColumnValues(stats, axis, Fin(y));
    }
  }

  lemma GreatestIsGreatestMax(stats: seq<FieldStats>, axis: nat, x: F64)
    requires AllThreeAxes(stats) && axis < 3 && Greatest(MaxColumn(stats, axis), Acc(true, x))
    ensures x.Fin? && GreatestMax(stats, axis, x.v)
  {
    MaxColumnValues(stats, axis, x);
    forall y | SomeMax(stats, axis, y) ensures y <= x.v {
      MaxColumnValues(stats, axis, Fin(y));
    }
  }

  /** What a merged descriptor of a documented type advertises, given every file's statistics: a
      minimum exactly when some file has a finite one on axis 0, and on every axis with finite ones
      the least of them; likewise the maximum; the no-data bit when some file has it; and the
      first file's layout. */
  ghost predicate Advertises(c: Codec, stats: seq<FieldStats>, before: seq<U8>, after: seq<U8>)
    requires |before| == |after| == DESCRIPTOR_SIZE
  {
    FieldOf(after) == FieldOf(before) && SaysRange(StatsOf(c, after), stats)
  }

  ghost predicate SaysRange(s: FieldStats, stats: seq<FieldStats>) {
    (s.hasMin <==> exists x :: SomeMin(stats, 0, x)) && (s.hasMax <==> exists x :: SomeMax(stats, 0, x)) &&
    (s.hasNoData <==> SomeNoData(stats)) && ThreeAxes(s) &&
    (forall a: nat :: a < 3 && s.hasMin && (exists x :: SomeMin(stats, a, x)) ==> s.min[a].Fin? && LeastMin(stats, a, s.min[a].v)) &&
    (forall a: nat :: a < 3 && s.hasMax && (exists x :: SomeMax(stats, a, x)) ==> s.max[a].Fin? && GreatestMax(stats, a, s.max[a].v))
  }

  lemma MinAdvertised(c: Codec, before: seq<U8>, stats: seq<FieldStats>, nd: bool, mins: seq<Acc>, maxs: seq<Acc>, axis: nat)
    requires CodecOk(c) && |before| == DESCRIPTOR_SIZE && Documented(before[2]) && AllThreeAxes(stats)
    requires Folded(stats, nd, mins, maxs) && axis < 3 && ReadWith(c, before[2], MinColumn(stats, axis))
    requires mins[0].folded && exists x :: SomeMin(stats, axis, x)
    ensures var v := StatsOf(c, Merged(c, before, nd, mins, maxs)).min[axis]; v.Fin? && LeastMin(stats, axis, v.v)
  {
    FiniteMin(stats, axis);
    assert Least(MinColumn(stats, axis), mins[axis]);
    MergedMin(c, before, stats, nd, mins, maxs, axis);
    LeastIsLeastMin(stats, axis, StatsOf(c, Merged(c, before, nd, mins, maxs)).min[axis]);
  }

  lemma MaxAdvertised(c: Codec, before: seq<U8>, stats: seq<FieldStats>, nd: bool, mins: seq<Acc>, maxs: seq<Acc>, axis: nat)
    requires CodecOk(c) && |before| == DESCRIPTOR_SIZE && Documented(before[2]) && AllThreeAxes(stats)
    requires Folded(stats, nd, mins, maxs) && axis < 3 && ReadWith(c, before[2], MaxColumn(stats, axis))
    requires maxs[0].folded && exists x :: SomeMax(stats, axis, x)
    ensures var v := StatsOf(c, Merged(c, before, nd, mins, maxs)).max[axis]; v.Fin? && GreatestMax(stats, axis, v.v)
  {
    FiniteMax(stats, axis);
    assert Greatest(MaxColumn(stats, axis), maxs[axis]);
    MergedMax(c, before, stats, nd, mins, maxs, axis);
    GreatestIsGreatestMax(stats, axis, StatsOf(c, Merged(c, before, nd, mins, maxs)).max[axis]);
  }

  lemma BitsAdvertised(c: Codec, before: seq<U8>, stats: seq<FieldStats>, nd: bool, mins: seq<Acc>, maxs: seq<Acc>, s: FieldStats)
    requires |before| == DESCRIPTOR_SIZE && Documented(before[2]) && AllThreeAxes(stats) && Folded(stats, nd, mins, maxs)
    requires s == StatsOf(c, Merged(c, before, nd, mins, maxs))
    ensures (s.hasMin <==> mins[0].folded) && (s.hasMax <==> maxs[0].folded) && (s.hasNoData <==> SomeNoData(stats))
    ensures (s.hasMin <==> exists x :: SomeMin(stats, 0, x)) && (s.hasMax <==> exists x :: SomeMax(stats, 0, x))
  {
    MergedBits(c, before, stats, nd, mins, maxs);
    FiniteMin(stats, 0);
    FiniteMax(stats, 0);
    assert Least(MinColumn(stats, 0), mins[0]) && Greatest(MaxColumn(stats, 0), maxs[0]);
  }

  lemma FoldAdvertised(c: Codec, before: seq<U8>, stats: seq<FieldStats>, nd: bool, mins: seq<Acc>, maxs: seq<Acc>, s: FieldStats)
    requires CodecOk(c) && |before| == DESCRIPTOR_SIZE && Documented(before[2]) && AllThreeAxes(stats)
    requires Folded(stats, nd, mins, maxs) && s == StatsOf(c, Merged(c, before, nd, mins, maxs))
    requires forall a: nat :: a < 3 ==> ReadWith(c, before[2], MinColumn(stats, a)) && ReadWith(c, before[2], MaxColumn(stats, a))
    ensures SaysRange(s, stats)
  {
    BitsAdvertised(c, before, stats, nd, mins, maxs, s);
    forall a: nat | a < 3 && s.hasMin && exists x :: SomeMin(stats, a, x)
      ensures s.min[a].Fin? && LeastMin(stats, a, s.min[a].v)
    {
      MinAdvertised(c, before, stats, nd, mins, maxs, a);
    }
    forall a: nat | a < 3 && s.hasMax && exists x :: SomeMax(stats, a, x)
      ensures s.max[a].Fin? && GreatestMax(stats, a, s.max[a].v)
    {
      MaxAdvertised(c, before, stats, nd, mins, maxs, a);
    }
  }

  /** A merged field of a documented type advertises exactly the range over all files. */
  lemma MergeAdvertises(c: Codec, payloads: seq<seq<U8>>, n: nat, files: seq<Parsed>, i: nat, before: seq<U8>, after: seq<U8>)
    requires CodecOk(c) && SameSize(payloads, n) && FromPayloads(c, payloads, n, files) && i < n
    requires |before| == DESCRIPTOR_SIZE && MergedFrom(c, files, i, before, after)
    requires Documented(before[2]) && OneType(Descriptors(payloads, n, i), before[2])
    ensures |after| == DESCRIPTOR_SIZE && Advertises(c, StatsColumn(c, Descriptors(payloads, n, i)), before, after)
  {
    var ds := Descriptors(payloads, n, i);
    var stats, nd, mins, maxs :|
      Column(files, i, stats) && Folded(stats, nd, mins, maxs) && after == Merged(c, before, nd, mins, maxs);
    ColumnIsStats(c, payloads, n, files, i, stats);
    forall a: nat | a < 3 ensures ReadWith(c, before[2], MinColumn(stats, a)) && ReadWith(c, before[2], MaxColumn(stats, a)) {
      StatsWereRead(c, ds, before[2], a);
    }
    FoldAdvertised(c, before, stats, nd, mins, maxs, StatsOf(c, after));
    MergeKeepsStructure(c, before, nd, mins, maxs);
  }

  /** Bytes of the minimum and the maximum of one axis. */
  function MinSlot(d: seq<U8>, axis: nat): (s: seq<U8>)
    requires |d| == DESCRIPTOR_SIZE && axis < 3
    ensures |s| == 8
  {
    d[64 + 8 * axis..72 + 8 * axis]
  }

  function MaxSlot(d: seq<U8>, axis: nat): (s: seq<U8>)
    requires |d| == DESCRIPTOR_SIZE && axis < 3
    ensures |s| == 8
  {
    d[88 + 8 * axis..96 + 8 * axis]
  }

  /** The integer in a slot: codes 2, 4, 6 and 8 are signed, 1, 3, 5 and 7 are not. */
  function IntegerIn(dataType: U8, slot: seq<U8>): int
    requires |slot| == 8
  {
    var raw := Word(slot);
    if dataType % 2 == 0 && raw >= 0x8000_0000_0000_0000 then raw - 0x1_0000_0000_0000_0000 else raw
  }

  /** Bit 1 of the options byte says that the minimum is valid, bit 2 the maximum. */
  predicate MinBit(d: seq<U8>)
    requires |d| == DESCRIPTOR_SIZE
  {
    d[3] / 2 % 2 == 1
  }

  predicate MaxBit(d: seq<U8>)
    requires |d| == DESCRIPTOR_SIZE
  {
    d[3] / 4 % 2 == 1
  }

  lemma IntegerDecoded(c: Codec, dataType: U8, slot: seq<U8>)
    requires 1 <= dataType <= 8 && |slot| == 8
    ensures Documented(dataType) && DecodeOrNaN(c, dataType, Word(slot)) == Fin(IntegerIn(dataType, slot) as real)
  {
    assert dataType in {1, 2, 3, 4, 5, 6, 7, 8};
  }

  /** The statistics of an integer field are the integers in its descriptor. */
  lemma IntegerStats(c: Codec, d: seq<U8>, axis: nat)
    requires |d| == DESCRIPTOR_SIZE && axis < 3 && 1 <= d[2] <= 8
    ensures var s := StatsOf(c, d);
            (s.hasMin <==> MinBit(d)) && (s.hasMax <==> MaxBit(d)) &&
            s.min[axis] == Fin(IntegerIn(d[2], MinSlot(d, axis)) as real) &&
            s.max[axis] == Fin(IntegerIn(d[2], MaxSlot(d, axis)) as real)
  {
    IntegerDecoded(c, d[2], MinSlot(d, axis));
    IntegerDecoded(c, d[2], MaxSlot(d, axis));
    assert Slots(d, MIN_AT)[axis] == Word(MinSlot(d, axis));
    assert Slots(d, MAX_AT)[axis] == Word(MaxSlot(d, axis));
  }

  /** `x` is the least minimum in the descriptors whose minimum is valid. */
  ghost predicate LeastInteger(ds: seq<seq<U8>>, axis: nat, x: int)
    requires Sized(ds) && axis < 3
  {
    (exists j :: 0 <= j < |ds| && MinBit(ds[j]) && IntegerIn(ds[j][2], MinSlot(ds[j], axis)) == x) &&
    forall j :: 0 <= j < |ds| && MinBit(ds[j]) ==> x <= IntegerIn(ds[j][2], MinSlot(ds[j], axis))
  }

  ghost predicate GreatestInteger(ds: seq<seq<U8>>, axis: nat, x: int)
    requires Sized(ds) && axis < 3
  {
    (exists j :: 0 <= j < |ds| && MaxBit(ds[j]) && IntegerIn(ds[j][2], MaxSlot(ds[j], axis)) == x) &&
    forall j :: 0 <= j < |ds| && MaxBit(ds[j]) ==> IntegerIn(ds[j][2], MaxSlot(ds[j], axis)) <= x
  }

  /** The descriptor has a valid minimum, `x`. */
  ghost predicate IntegerMinAt(d: seq<U8>, axis: nat, x: real)
    requires |d| == DESCRIPTOR_SIZE && axis < 3
  {
    MinBit(d) && IntegerIn(d[2], MinSlot(d, axis)) as real == x
  }

  lemma IntegerMinIsStat(c: Codec, d: seq<U8>, axis: nat, x: real)
    requires |d| == DESCRIPTOR_SIZE && axis < 3 && 1 <= d[2] <= 8
    ensures HasMinValue(StatsOf(c, d), axis, Fin(x)) <==> IntegerMinAt(d, axis, x)
  {
    IntegerStats(c, d, axis);
  }

  lemma SomeIntegerMin(c: Codec, ds: seq<seq<U8>>, dataType: U8, axis: nat, x: real)
    requires Sized(ds) && OneType(ds, dataType) && 1 <= dataType <= 8 && axis < 3
    ensures SomeMin(StatsColumn(c, ds), axis, x) <==> exists j :: 0 <= j < |ds| && IntegerMinAt(ds[j], axis, x)
  {
    var stats := StatsColumn(c, ds);
    if SomeMin(stats, axis, x) {
      var s :| s in stats && HasMinValue(s, axis, Fin(x));
      var j :| 0 <= j < |stats| && stats[j] == s;
      IntegerMinIsStat(c, ds[j], axis, x);
    }
    if j :| 0 <= j < |ds| && IntegerMinAt(ds[j], axis, x) {
      IntegerMinIsStat(c, ds[j], axis, x);
      assert stats[j] in stats;
    }
  }

  /** The descriptor has a valid maximum, `x`. */
  ghost predicate IntegerMaxAt(d: seq<U8>, axis: nat, x: real)
    requires |d| == DESCRIPTOR_SIZE && axis < 3
  {
    MaxBit(d) && IntegerIn(d[2], MaxSlot(d, axis)) as real == x
  }

  lemma IntegerMaxIsStat(c: Codec, d: seq<U8>, axis: nat, x: real)
    requires |d| == DESCRIPTOR_SIZE && axis < 3 && 1 <= d[2] <= 8
    ensures HasMaxValue(StatsOf(c, d), axis, Fin(x)) <==> IntegerMaxAt(d, axis, x)
  {
    IntegerStats(c, d, axis);
  }

  lemma SomeIntegerMax(c: Codec, ds: seq<seq<U8>>, dataType: U8, axis: nat, x: real)
    requires Sized(ds) && OneType(ds, dataType) && 1 <= dataType <= 8 && axis < 3
    ensures SomeMax(StatsColumn(c, ds), axis, x) <==> exists j :: 0 <= j < |ds| && IntegerMaxAt(ds[j], axis, x)
  {
    var stats := StatsColumn(c, ds);
    if SomeMax(stats, axis, x) {
      var s :| s in stats && HasMaxValue(s, axis, Fin(x));
      var j :| 0 <= j < |stats| && stats[j] == s;
      IntegerMaxIsStat(c, ds[j], axis, x);
    }
    if j :| 0 <= j < |ds| && IntegerMaxAt(ds[j], axis, x) {
      IntegerMaxIsStat(c, ds[j], axis, x);
      assert stats[j] in stats;
    }
  }

  lemma LeastMinIsInteger(c: Codec, ds: seq<seq<U8>>, dataType: U8, axis: nat, x: int)
    requires Sized(ds) && OneType(ds, dataType) && 1 <= dataType <= 8 && axis < 3
    requires LeastMin(StatsColumn(c, ds), axis, x as real)
    ensures LeastInteger(ds, axis, x)
  {
    SomeIntegerMin(c, ds, dataType, axis, x as real);
    forall j | 0 <= j < |ds| && MinBit(ds[j]) ensures x <= IntegerIn(ds[j][2], MinSlot(ds[j], axis)) {
      assert IntegerMinAt(ds[j], axis, IntegerIn(ds[j][2], MinSlot(ds[j], axis)) as real);
      SomeIntegerMin(c, ds, dataType, axis, IntegerIn(ds[j][2], MinSlot(ds[j], axis)) as real);
    }
  }

  lemma GreatestMaxIsInteger(c: Codec, ds: seq<seq<U8>>, dataType: U8, axis: nat, x: int)
    requires Sized(ds) && OneType(ds, dataType) && 1 <= dataType <= 8 && axis < 3
    requires GreatestMax(StatsColumn(c, ds), axis, x as real)
    ensures GreatestInteger(ds, axis, x)
  {
    SomeIntegerMax(c, ds, dataType, axis, x as real);
    forall j | 0 <= j < |ds| && MaxBit(ds[j]) ensures IntegerIn(ds[j][2], MaxSlot(ds[j], axis)) <= x {
      assert IntegerMaxAt(ds[j], axis, IntegerIn(ds[j][2], MaxSlot(ds[j], axis)) as real);
      SomeIntegerMax(c, ds, dataType, axis, IntegerIn(ds[j][2], MaxSlot(ds[j], axis)) as real);
    }
  }

  /** On the bytes: a merged field of an integer type has a valid minimum exactly when some file's
      descriptor has one, and then its slot holds the least of them; likewise the maximum. */
  lemma MergedIntegers(c: Codec, payloads: seq<seq<U8>>, n: nat, files: seq<Parsed>, i: nat, before: seq<U8>, after: seq<U8>, axis: nat)
    requires CodecOk(c) && SameSize(payloads, n) && FromPayloads(c, payloads, n, files) && i < n
    requires |before| == DESCRIPTOR_SIZE && MergedFrom(c, files, i, before, after)
    requires 1 <= before[2] <= 8 && OneType(Descriptors(payloads, n, i), before[2]) && axis < 3
    ensures var ds := Descriptors(payloads, n, i);
            |after| == DESCRIPTOR_SIZE && after[2] == before[2] &&
            (MinBit(after) <==> exists j :: 0 <= j < |ds| && MinBit(ds[j])) &&
            (MaxBit(after) <==> exists j :: 0 <= j < |ds| && MaxBit(ds[j])) &&
            (MinBit(after) ==> LeastInteger(ds, axis, IntegerIn(after[2], MinSlot(after, axis)))) &&
            (MaxBit(after) ==> GreatestInteger(ds, axis, IntegerIn(after[2], MaxSlot(after, axis))))
  {
    var ds := Descriptors(payloads, n, i);
    IntegerDecoded(c, before[2], MinSlot(before, axis));
    MergeAdvertises(c, payloads, n, files, i, before, after);
    MergeKeepsLayout(c, files, i, before, after);
    IntegerStats(c, after, axis);
    if MinBit(after) || exists j :: 0 <= j < |ds| && MinBit(ds[j]) {
      MinOfIntegers(c, ds, before[2], after, axis);
    }
    if MaxBit(after) || exists j :: 0 <= j < |ds| && MaxBit(ds[j]) {
      MaxOfIntegers(c, ds, before[2], after, axis);
    }
  }

  lemma MinOfIntegers(c: Codec, ds: seq<seq<U8>>, dataType: U8, after: seq<U8>, axis: nat)
    requires Sized(ds) && OneType(ds, dataType) && 1 <= dataType <= 8 && axis < 3 && |after| == DESCRIPTOR_SIZE && after[2] == dataType
    requires SaysRange(StatsOf(c, after), StatsColumn(c, ds)) && (MinBit(after) || exists j :: 0 <= j < |ds| && MinBit(ds[j]))
    ensures MinBit(after) && (exists j :: 0 <= j < |ds| && MinBit(ds[j]))
    ensures LeastInteger(ds, axis, IntegerIn(after[2], MinSlot(after, axis)))
  {
    var stats := StatsColumn(c, ds);
    IntegerStats(c, after, axis);
    if j :| 0 <= j < |ds| && MinBit(ds[j]) {
      assert IntegerMinAt(ds[j], 0, IntegerIn(ds[j][2], MinSlot(ds[j], 0)) as real);
      SomeIntegerMin(c, ds, dataType, 0, IntegerIn(ds[j][2], MinSlot(ds[j], 0)) as real);
    } else {
      var x :| SomeMin(stats, 0, x);
      SomeIntegerMin(c, ds, dataType, 0, x);
    }
    var j :| 0 <= j < |ds| && MinBit(ds[j]);
    assert IntegerMinAt(ds[j], axis, IntegerIn(ds[j][2], MinSlot(ds[j], axis)) as real);
    SomeIntegerMin(c, ds, dataType, axis, IntegerIn(ds[j][2], MinSlot(ds[j], axis)) as real);
    LeastMinIsInteger(c, ds, dataType, axis, IntegerIn(after[2], MinSlot(after, axis)));
  }

  lemma MaxOfIntegers(c: Codec, ds: seq<seq<U8>>, dataType: U8, after: seq<U8>, axis: nat)
    requires Sized(ds) && OneType(ds, dataType) && 1 <= dataType <= 8 && axis < 3 && |after| == DESCRIPTOR_SIZE && after[2] == dataType
    requires SaysRange(StatsOf(c, after), StatsColumn(c, ds)) && (MaxBit(after) || exists j :: 0 <= j < |ds| && MaxBit(ds[j]))
    ensures MaxBit(after) && (exists j :: 0 <= j < |ds| && MaxBit(ds[j]))
    ensures GreatestInteger(ds, axis, IntegerIn(after[2], MaxSlot(after, axis)))
  {
    var stats := StatsColumn(c, ds);
    IntegerStats(c, after, axis);
    if j :| 0 <= j < |ds| && MaxBit(ds[j]) {
      assert IntegerMaxAt(ds[j], 0, IntegerIn(ds[j][2], MaxSlot(ds[j], 0)) as real);
      SomeIntegerMax(c, ds, dataType, 0, IntegerIn(ds[j][2], MaxSlot(ds[j], 0)) as real);
    } else {
      var x :| SomeMax(stats, 0, x);
      SomeIntegerMax(c, ds, dataType, 0, x);
    }
    var j :| 0 <= j < |ds| && MaxBit(ds[j]);
    assert IntegerMaxAt(ds[j], axis, IntegerIn(ds[j][2], MaxSlot(ds[j], axis)) as real);
    SomeIntegerMax(c, ds, dataType, axis, IntegerIn(ds[j][2], MaxSlot(ds[j], axis)) as real);
    GreatestMaxIsInteger(c, ds, dataType, axis, IntegerIn(after[2], MaxSlot(after, axis)));
  }

  /** Whatever the data types, the layout of every field is the first file's. */
  lemma MergeKeepsLayout(c: Codec, files: seq<Parsed>, i: nat, before: seq<U8>, after: seq<U8>)
    requires |before| == DESCRIPTOR_SIZE && MergedFrom(c, files, i, before, after)
    ensures |after| == DESCRIPTOR_SIZE && FieldOf(after) == FieldOf(before)
  {
    var stats, nd, mins, maxs :|
      Column(files, i, stats) && Folded(stats, nd, mins, maxs) && after == Merged(c, before, nd, mins, maxs);
    MergeKeepsStructure(c, before, nd, mins, maxs);
  }

  lemma StatOfUndocumented(c: Codec, d: seq<U8>)
    requires |d| == DESCRIPTOR_SIZE && !Documented(d[2])
    ensures var s := StatsOf(c, d); !s.hasMin && !s.hasMax && (s.hasNoData <==> HasBit(d[3], NO_DATA))
  {
  }

  lemma NothingFolds(stats: seq<FieldStats>, nd: bool, mins: seq<Acc>, maxs: seq<Acc>)
    requires AllThreeAxes(stats) && (forall s :: s in stats ==> !s.hasMin && !s.hasMax) && Folded(stats, nd, mins, maxs)
    ensures !mins[0].folded && !maxs[0].folded && (nd <==> SomeNoData(stats))
  {
    FiniteMin(stats, 0);
    FiniteMax(stats, 0);
    assert Least(MinColumn(stats, 0), mins[0]) && Greatest(MaxColumn(stats, 0), maxs[0]);
  }

  /** Some file has the no-data bit set. */
  ghost predicate NoDataBit(ds: seq<seq<U8>>)
    requires Sized(ds)
  {
    exists j :: 0 <= j < |ds| && HasBit(ds[j][3], NO_DATA)
  }

  lemma UndocumentedColumn(c: Codec, ds: seq<seq<U8>>, stats: seq<FieldStats>)
    requires Sized(ds) && (forall j :: 0 <= j < |ds| ==> !Documented(ds[j][2])) && stats == StatsColumn(c, ds)
    ensures (forall s :: s in stats ==> !s.hasMin && !s.hasMax) && (SomeNoData(stats) <==> NoDataBit(ds))
  {
    forall j | 0 <= j < |ds|
      ensures !stats[j].hasMin && !stats[j].hasMax && (stats[j].hasNoData <==> HasBit(ds[j][3], NO_DATA))
    {
      StatOfUndocumented(c, ds[j]);
    }
    if NoDataBit(ds) {
      var j :| 0 <= j < |ds| && HasBit(ds[j][3], NO_DATA);
      assert stats[j] in stats;
    }
  }

  /** The options byte an undocumented field ends with. */
  ghost function KeptOptions(options: U8, ds: seq<seq<U8>>): U8
    requires Sized(ds)
  {
    StructuralBits(options) + if NoDataBit(ds) then NO_DATA else 0
  }

  lemma OnlyOptions(c: Codec, d: seq<U8>, nd: bool, mins: seq<Acc>, maxs: seq<Acc>)
    requires |d| == DESCRIPTOR_SIZE && |mins| == 3 && |maxs| == 3 && !mins[0].folded && !maxs[0].folded
    ensures Merged(c, d, nd, mins, maxs) == d[3 := StructuralBits(d[3]) + if nd then NO_DATA else 0]
  {
    var o := StructuralBits(d[3]) + if nd then NO_DATA else 0;
    assert Merged(c, d, nd, mins, maxs) == PutAt(d, 3, [o]);
    assert PutAt(d, 3, [o]) == d[3 := o];
  }

  /** A field whose type is undocumented in every file comes out unchanged exactly when its options
      byte already is its scale and offset bits plus the no-data bit of the union of the files: a
      minimum or maximum bit, an undefined bit, or a no-data bit only another file has, is changed. */
  lemma UndocumentedMerge(c: Codec, payloads: seq<seq<U8>>, n: nat, files: seq<Parsed>, i: nat, before: seq<U8>, after: seq<U8>)
    requires SameSize(payloads, n) && FromPayloads(c, payloads, n, files) && i < n
    requires |before| == DESCRIPTOR_SIZE && MergedFrom(c, files, i, before, after)
    requires forall j :: 0 <= j < |payloads| ==> !Documented(Descriptors(payloads, n, i)[j][2])
    ensures after == before <==> before[3] == KeptOptions(before[3], Descriptors(payloads, n, i))
    ensures after == before[3 := KeptOptions(before[3], Descriptors(payloads, n, i))]
  {
    var ds := Descriptors(payloads, n, i);
    UndocumentedOptions(c, payloads, n, files, i, ds, before, after);
    OneByte(before, 3, KeptOptions(before[3], ds));
  }

  /** Such a field is rewritten in its options byte only. */
  lemma UndocumentedOptions(c: Codec, payloads: seq<seq<U8>>, n: nat, files: seq<Parsed>, i: nat, ds: seq<seq<U8>>,
                            before: seq<U8>, after: seq<U8>)
    requires SameSize(payloads, n) && FromPayloads(c, payloads, n, files) && i < n && ds == Descriptors(payloads, n, i)
    requires |before| == DESCRIPTOR_SIZE && MergedFrom(c, files, i, before, after)
    requires forall j :: 0 <= j < |ds| ==> !Documented(ds[j][2])
    ensures after == before[3 := KeptOptions(before[3], ds)]
  {
    var stats, nd, mins, maxs :|
      Column(files, i, stats) && Folded(stats, nd, mins, maxs) && after == Merged(c, before, nd, mins, maxs);
    ColumnIsStats(c, payloads, n, files, i, stats);
    ColumnKeepsOptions(c, ds, stats, nd, mins, maxs, before);
  }

  lemma ColumnKeepsOptions(c: Codec, ds: seq<seq<U8>>, stats: seq<FieldStats>, nd: bool, mins: seq<Acc>, maxs: seq<Acc>, before: seq<U8>)
    requires Sized(ds) && (forall j :: 0 <= j < |ds| ==> !Documented(ds[j][2])) && stats == StatsColumn(c, ds)
    requires |before| == DESCRIPTOR_SIZE && AllThreeAxes(stats) && Folded(stats, nd, mins, maxs)
    ensures Merged(c, before, nd, mins, maxs) == before[3 := KeptOptions(before[3], ds)]
  {
    UndocumentedColumn(c, ds, stats);
    NothingFolds(stats, nd, mins, maxs);
    OnlyOptions(c, before, nd, mins, maxs);
  }

  lemma OneByte(d: seq<U8>, at: nat, x: U8)
    requires at < |d|
    ensures d[at := x] == d <==> d[at] == x
  {
    assert d[at := x][at] == x;
  }

  /** The descriptor of data type 0 with the given options and zeros everywhere else. */
  predicate Blank(d: seq<U8>, options: U8) {
    |d| == DESCRIPTOR_SIZE && d[3] == options && forall k :: 0 <= k < |d| && k != 3 ==> d[k] == 0
  }

  lemma BlankFacts(a: seq<U8>, b: seq<U8>)
    requires Blank(a, MIN) && Blank(b, NO_DATA)
    ensures !Documented(a[2]) && !Documented(b[2]) && HasBit(b[3], NO_DATA) && StructuralBits(a[3]) == 0
  {
  }

  lemma OneDescriptor(payloads: seq<seq<U8>>, a: seq<U8>, b: seq<U8>, n: nat)
    requires |a| == |b| == DESCRIPTOR_SIZE && payloads == [a, b] && n == 1
    ensures SameSize(payloads, n) && Descriptors(payloads, n, 0) == [a, b]
  {
    assert a[0..DESCRIPTOR_SIZE] == a && b[0..DESCRIPTOR_SIZE] == b;
  }

  lemma TwoKept(a: seq<U8>, b: seq<U8>, ds: seq<seq<U8>>)
    requires |a| == |b| == DESCRIPTOR_SIZE && ds == [a, b]
    requires !Documented(a[2]) && !Documented(b[2]) && HasBit(b[3], NO_DATA)
    ensures Sized(ds) && (forall j :: 0 <= j < |ds| ==> !Documented(ds[j][2])) && NoDataBit(ds)
  {
    assert HasBit(ds[1][3], NO_DATA);
  }

  lemma TwoFiles(c: Codec, a: seq<U8>, b: seq<U8>, payloads: seq<seq<U8>>, n: nat, files: seq<Parsed>, after: seq<U8>)
    requires |a| == |b| == DESCRIPTOR_SIZE && payloads == [a, b] && n == 1 && SameSize(payloads, n)
    requires !Documented(a[2]) && !Documented(b[2]) && HasBit(b[3], NO_DATA)
    requires FromPayloads(c, payloads, n, files) && MergedFrom(c, files, 0, a, after)
    ensures after == a[3 := StructuralBits(a[3]) + NO_DATA]
  {
    OneDescriptor(payloads, a, b, n);
    TwoKept(a, b, Descriptors(payloads, n, 0));
    UndocumentedMerge(c, payloads, n, files, 0, a, after);
  }

  /** Two files with one undocumented field, the first advertising a minimum and the second a no-data
      value: the merged descriptor differs from the first in its options byte. */
  lemma UndocumentedChanges(c: Codec, a: seq<U8>, b: seq<U8>, payloads: seq<seq<U8>>, n: nat, files: seq<Parsed>, after: seq<U8>)
    requires Blank(a, MIN) && Blank(b, NO_DATA) && payloads == [a, b] && n == 1 && SameSize(payloads, n)
    requires FromPayloads(c, payloads, n, files) && MergedFrom(c, files, 0, a, after)
    ensures |after| == DESCRIPTOR_SIZE && a[3] == 2 && after[3] == 1
  {
    BlankFacts(a, b);
    TwoFiles(c, a, b, payloads, n, files, after);
  }

  lemma SameFolds(c: Codec, files: seq<Parsed>, files': seq<Parsed>, i: nat, before: seq<U8>, after: seq<U8>, after': seq<U8>)
    requires WellFormed(files) && |before| == DESCRIPTOR_SIZE && (forall f :: f in files <==> f in files')
    requires MergedFrom(c, files, i, before, after) && MergedFrom(c, files', i, before, after')
    ensures after == after'
  {
    var stats, nd, mins, maxs :|
      Column(files, i, stats) && Folded(stats, nd, mins, maxs) && after == Merged(c, before, nd, mins, maxs);
    var stats', nd', mins', maxs' :|
      Column(files', i, stats') && Folded(stats', nd', mins', maxs') && after' == Merged(c, before, nd', mins', maxs');
    ColumnMembers(files, files', i, stats, stats');
    ColumnMembers(files', files, i, stats', stats);
    forall s | s in stats ensures ThreeAxes(s) {
      var j :| 0 <= j < |stats| && stats[j] == s;
      assert files[j] in files && s in files[j].stats;
    }
    OrderIrrelevant(stats, stats', nd, mins, maxs, nd', mins', maxs');
  }

  lemma ColumnMembers(files: seq<Parsed>, files': seq<Parsed>, i: nat, stats: seq<FieldStats>, stats': seq<FieldStats>)
    requires Column(files, i, stats) && Column(files', i, stats') && forall f :: f in files ==> f in files'
    ensures forall s :: s in stats ==> s in stats'
  {
    forall s | s in stats ensures s in stats' {
      var j :| 0 <= j < |stats| && stats[j] == s;
      assert files[j] in files';
      var k :| 0 <= k < |files'| && files'[k] == files[j];
      assert stats'[k] == s;
    }
  }

  /** Merging the same files in another order writes the same bytes. */
  lemma MergeOrderIrrelevant(c: Codec, files: seq<Parsed>, files': seq<Parsed>, was: seq<U8>, now: seq<U8>, now': seq<U8>, n: nat)
    requires WellFormed(files) && multiset(files) == multiset(files') && |was| == |now| == |now'| == n * DESCRIPTOR_SIZE
    requires MergedTo(c, files, was, now, n, n) && MergedTo(c, files', was, now', n, n)
    ensures now == now'
  {
    forall f ensures f in files <==> f in files' {
      assert f in files <==> f in multiset(files);
      assert f in files' <==> f in multiset(files');
    }
    forall i: nat | i < n ensures DescriptorAt(now, i) == DescriptorAt(now', i) {
      SameFolds(c, files, files', i, DescriptorAt(was, i), DescriptorAt(now, i), DescriptorAt(now', i));
    }
    SameDescriptors(now, now', n);
  }

  lemma SameDescriptors(a: seq<U8>, b: seq<U8>, n: nat)
    requires |a| == |b| == n * DESCRIPTOR_SIZE && forall i: nat :: i < n ==> DescriptorAt(a, i) == DescriptorAt(b, i)
    ensures a == b
  {
    forall k | 0 <= k < |a| ensures a[k] == b[k] {
      var i, o := k / DESCRIPTOR_SIZE, k % DESCRIPTOR_SIZE;
      assert DescriptorAt(a, i)[o] == DescriptorAt(b, i)[o];
    }
  }

  /** Every descriptor of the merged payload says what it should. */
  ghost predicate MergedPayload(c: Codec, payloads: seq<seq<U8>>, n: nat, now: seq<U8>)
    requires payloads != [] && SameSize(payloads, n) && |now| == n * DESCRIPTOR_SIZE
  {
    forall i: nat :: i < n ==>
      var ds, before, after := Descriptors(payloads, n, i), DescriptorAt(payloads[0], i), DescriptorAt(now, i);
      FieldOf(after) == FieldOf(before) &&
      (CodecOk(c) && Documented(before[2]) && OneType(ds, before[2]) ==> Advertises(c, StatsColumn(c, ds), before, after)) &&
      (!Documented(before[2]) && OneType(ds, before[2]) ==> after == before[3 := KeptOptions(before[3], ds)])
  }

  lemma PayloadMerged(c: Codec, payloads: seq<seq<U8>>, n: nat, files: seq<Parsed>, now: seq<U8>)
    requires payloads != [] && SameSize(payloads, n) && FromPayloads(c, payloads, n, files) && |now| == n * DESCRIPTOR_SIZE
    requires MergedTo(c, files, payloads[0], now, n, n)
    ensures MergedPayload(c, payloads, n, now)
  {
    forall i: nat | i < n
      ensures var ds, before, after := Descriptors(payloads, n, i), DescriptorAt(payloads[0], i), DescriptorAt(now, i);
              FieldOf(after) == FieldOf(before) &&
              (CodecOk(c) && Documented(before[2]) && OneType(ds, before[2]) ==> Advertises(c, StatsColumn(c, ds), before, after)) &&
              (!Documented(before[2]) && OneType(ds, before[2]) ==> after == before[3 := KeptOptions(before[3], ds)])
    {
      FieldMerged(c, payloads, n, files, i, DescriptorAt(payloads[0], i), DescriptorAt(now, i));
    }
  }

  lemma FieldMerged(c: Codec, payloads: seq<seq<U8>>, n: nat, files: seq<Parsed>, i: nat, before: seq<U8>, after: seq<U8>)
    requires SameSize(payloads, n) && FromPayloads(c, payloads, n, files) && i < n
    requires |before| == |after| == DESCRIPTOR_SIZE && MergedFrom(c, files, i, before, after)
    ensures FieldOf(after) == FieldOf(before)
    ensures var ds := Descriptors(payloads, n, i);
            (CodecOk(c) && Documented(before[2]) && OneType(ds, before[2]) ==> Advertises(c, StatsColumn(c, ds), before, after)) &&
            (!Documented(before[2]) && OneType(ds, before[2]) ==> after == before[3 := KeptOptions(before[3], ds)])
  {
    MergeKeepsLayout(c, files, i, before, after);
    var ds := Descriptors(payloads, n, i);
    if OneType(ds, before[2]) {
      if !Documented(before[2]) {
        UndocumentedMerge(c, payloads, n, files, i, before, after);
      } else if CodecOk(c) {
        MergeAdvertises(c, payloads, n, files, i, before, after);
      }
    }
  }

  /** Parsing every payload; they must be whole descriptors. */
  method ParseAll(c: Codec, payloads: seq<seq<U8>>, n: nat) returns (files: seq<Parsed>)
    requires SameSize(payloads, n)
    ensures FromPayloads(c, payloads, n, files) && WellFormed(files) && SameCount(files, n)
  {
    files := [];
    for j := 0 to |payloads|
      invariant SameSize(payloads[..j], n) && FromPayloads(c, payloads[..j], n, files)
      invariant WellFormed(files) && SameCount(files, n)
    {
      var p := ParseOne(c, payloads[j], n);
      ParsedSnoc(c, payloads, j, n, files, p);
      WellSnoc(files, p, n);
      files := files + [p];
    }
    assert payloads[..|payloads|] == payloads;
  }

  method ParseOne(c: Codec, payload: seq<U8>, n: nat) returns (p: Parsed)
    requires |payload| == n * DESCRIPTOR_SIZE
    ensures ParsesTo(c, payload, n, p) && |p.stats| == |p.fields| == n && forall s :: s in p.stats ==> ThreeAxes(s)
  {
    WholeDescriptors(n);
    var parsed := Parse(c, payload);
    p := parsed.value;
    ParsedWell(c, payload, n, p);
  }

  lemma ParsedSnoc(c: Codec, payloads: seq<seq<U8>>, j: nat, n: nat, files: seq<Parsed>, p: Parsed)
    requires SameSize(payloads, n) && j < |payloads| && SameSize(payloads[..j], n) && FromPayloads(c, payloads[..j], n, files)
    requires ParsesTo(c, payloads[j], n, p)
    ensures SameSize(payloads[..j + 1], n) && FromPayloads(c, payloads[..j + 1], n, files + [p])
  {
    FromSnoc(c, payloads[..j], n, files, payloads[j], p);
    assert payloads[..j] + [payloads[j]] == payloads[..j + 1];
  }

  lemma FromSnoc(c: Codec, payloads: seq<seq<U8>>, n: nat, files: seq<Parsed>, payload: seq<U8>, p: Parsed)
    requires SameSize(payloads, n) && FromPayloads(c, payloads, n, files)
    requires |payload| == n * DESCRIPTOR_SIZE && ParsesTo(c, payload, n, p)
    ensures SameSize(payloads + [payload], n) && FromPayloads(c, payloads + [payload], n, files + [p])
  {
    SizedSnoc(payloads, n, payload);
    var files', payloads' := files + [p], payloads + [payload];
    forall k | 0 <= k < |files'| ensures ParsesTo(c, payloads'[k], n, files'[k]) {
      if k < |files| {
        assert payloads'[k] == payloads[k] && files'[k] == files[k];
      }
    }
  }

  lemma SizedSnoc(payloads: seq<seq<U8>>, n: nat, payload: seq<U8>)
    requires SameSize(payloads, n) && |payload| == n * DESCRIPTOR_SIZE
    ensures SameSize(payloads + [payload], n)
  {
  }

  lemma WellSnoc(files: seq<Parsed>, p: Parsed, n: nat)
    requires WellFormed(files) && SameCount(files, n)
    requires |p.stats| == |p.fields| == n && forall s :: s in p.stats ==> ThreeAxes(s)
    ensures WellFormed(files + [p]) && SameCount(files + [p], n)
  {
    var files' := files + [p];
    assert forall f :: f in files' <==> f in files || f == p;
  }

  lemma WholeDescriptors(n: nat)
    ensures n * DESCRIPTOR_SIZE % DESCRIPTOR_SIZE == 0 && n * DESCRIPTOR_SIZE / DESCRIPTOR_SIZE == n
  {
  }

  lemma ParsedWell(c: Codec, payload: seq<U8>, n: nat, p: Parsed)
    requires |payload| == n * DESCRIPTOR_SIZE && ParsesTo(c, payload, n, p)
    ensures |p.stats| == |p.fields| == n && forall s :: s in p.stats ==> ThreeAxes(s)
  {
    forall s | s in p.stats ensures ThreeAxes(s) {
      var i: nat :| i < n && p.stats[i] == s;
    }
  }

  /** The merge the validation step makes: every file's payload is parsed, the first one is patched. */
  method MergePayloads(c: Codec, payloads: seq<seq<U8>>, n: nat) returns (canonical: array<U8>)
    requires payloads != [] && SameSize(payloads, n)
    ensures fresh(canonical) && canonical.Length == n * DESCRIPTOR_SIZE
    ensures MergedPayload(c, payloads, n, canonical[..])
  {
    canonical := new U8[|payloads[0]|](k requires 0 <= k < |payloads[0]| => payloads[0][k]);
    assert canonical[..] == payloads[0];
    var files := ParseAll(c, payloads, n);
    WholeDescriptors(n);
    var ok := MergeStats(c, canonical, files);
    PayloadMerged(c, payloads, n, files, canonical[..]);
  }
}
