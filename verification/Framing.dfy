/** The scratch-file batch format of src/octree.rs: a 32-bit point count followed by
    fixed-size records, batches laid back to back. */
module Framing {
  import opened Bytes
  import opened Voxel
  import opened Points

  const BASE_BYTE_SIZE: nat := 38
  const MAX_POINTS_PER_READ: nat := 65_536

  function RecordSize(nxb: nat): nat { BASE_BYTE_SIZE + nxb }

  /** Widths of the fixed fields, in record order. */
  function Widths(): seq<nat> { [4, 4, 4, 2, 1, 1, 1, 2, 1, 2, 8, 2, 2, 2, 2] }

  function FieldValues(p: RawPoint): seq<nat> {
    [Unsigned32(p.x), Unsigned32(p.y), Unsigned32(p.z), p.intensity, p.returnNumber, p.numberOfReturns,
     p.classification, Unsigned16(p.scanAngle), p.userData, p.pointSourceId, p.gpsTime,
     p.red, p.green, p.blue, p.nir]
  }

  lemma WidthsTotal()
    ensures TotalWidth(Widths()) == BASE_BYTE_SIZE
  {
    FirstWidths();
    LastWidths();
    TotalWidthConcat([4, 4, 4, 2, 1, 1, 1], [2, 1, 2, 8, 2, 2, 2, 2]);
    assert Widths() == [4, 4, 4, 2, 1, 1, 1] + [2, 1, 2, 8, 2, 2, 2, 2];
  }

  lemma FirstWidths()
    ensures TotalWidth([4, 4, 4, 2, 1, 1, 1]) == 17
  {
    assert TotalWidth([4, 4, 4]) == 12 && TotalWidth([2, 1, 1, 1]) == 5;
    TotalWidthConcat([4, 4, 4], [2, 1, 1, 1]);
    assert [4, 4, 4] + [2, 1, 1, 1] == [4, 4, 4, 2, 1, 1, 1];
  }

  lemma LastWidths()
    ensures TotalWidth([2, 1, 2, 8, 2, 2, 2, 2]) == 21
  {
    assert TotalWidth([2, 1, 2, 8]) == 13 && TotalWidth([2, 2, 2, 2]) == 8;
    TotalWidthConcat([2, 1, 2, 8], [2, 2, 2, 2]);
    assert [2, 1, 2, 8] + [2, 2, 2, 2] == [2, 1, 2, 8, 2, 2, 2, 2];
  }

  lemma FieldsFit(p: RawPoint)
    ensures Fit(FieldValues(p), Widths())
  {
    Spans();
  }

  function EncodeRecord(p: RawPoint): seq<U8> {
    EncodeWords(FieldValues(p), Widths()) + p.extras
  }

  predicate InFieldRanges(v: seq<nat>) {
    |v| == 15 && v[0] < 0x1_0000_0000 && v[1] < 0x1_0000_0000 && v[2] < 0x1_0000_0000 &&
    v[3] < 0x1_0000 && v[4] < 0x100 && v[5] < 0x100 && v[6] < 0x100 && v[7] < 0x1_0000 &&
    v[8] < 0x100 && v[9] < 0x1_0000 && v[10] < 0x1_0000_0000_0000_0000 &&
    v[11] < 0x1_0000 && v[12] < 0x1_0000 && v[13] < 0x1_0000 && v[14] < 0x1_0000
  }

  lemma FitInRanges(v: seq<nat>)
    requires Fit(v, Widths())
    ensures InFieldRanges(v)
  {
    Spans();
    var w := Widths();
    assert forall i :: 0 <= i < 15 ==> v[i] < Span(w[i]);
  }

  function PointOfFields(v: seq<nat>, extras: seq<U8>): RawPoint
    requires InFieldRanges(v)
  {
    RawPoint(Signed32(v[0]), Signed32(v[1]), Signed32(v[2]), v[3], v[4], v[5], v[6], Signed16(v[7]),
             v[8], v[9], v[10], v[11], v[12], v[13], v[14], extras)
  }

  /** `from_record`. */
  function DecodeRecord(rec: seq<U8>): RawPoint
    requires |rec| >= BASE_BYTE_SIZE
  {
    WidthsTotal();
    var v := DecodeWords(rec[..BASE_BYTE_SIZE], Widths());
    DecodeWordsFit(rec[..BASE_BYTE_SIZE], Widths());
    FitInRanges(v);
    PointOfFields(v, rec[BASE_BYTE_SIZE..])
  }

  lemma PrefixRoundTrip(v: seq<nat>, w: seq<nat>, extras: seq<U8>)
    requires Fit(v, w)
    ensures |EncodeWords(v, w)| == TotalWidth(w)
    ensures var b := EncodeWords(v, w) + extras;
            DecodeWords(b[..TotalWidth(w)], w) == v && b[TotalWidth(w)..] == extras
  {
    var b := EncodeWords(v, w);
    WordsRoundTrip(v, w, []);
    assert b + [] == b;
    assert (b + extras)[..|b|] == b;
  }

  lemma RecordRoundTrip(p: RawPoint)
    ensures |EncodeRecord(p)| == RecordSize(|p.extras|)
    ensures DecodeRecord(EncodeRecord(p)) == p
  {
    var v := FieldValues(p);
    WidthsTotal();
    FieldsFit(p);
    PrefixRoundTrip(v, Widths(), p.extras);
    FitInRanges(v);
    DecodeOfParts(EncodeRecord(p), v, p.extras);
    FieldsOfPoint(p);
  }

  lemma DecodeOfParts(rec: seq<U8>, v: seq<nat>, extras: seq<U8>)
    requires |rec| >= BASE_BYTE_SIZE == TotalWidth(Widths()) && InFieldRanges(v)
    requires DecodeWords(rec[..BASE_BYTE_SIZE], Widths()) == v && rec[BASE_BYTE_SIZE..] == extras
    ensures DecodeRecord(rec) == PointOfFields(v, extras)
  {
  }

  lemma FieldsOfPoint(p: RawPoint)
    requires InFieldRanges(FieldValues(p))
    ensures PointOfFields(FieldValues(p), p.extras) == p
  {
  }

  /** Every point carries exactly `nxb` extra bytes. */
  predicate Uniform(points: seq<RawPoint>, nxb: nat) {
    forall i :: 0 <= i < |points| ==> |points[i].extras| == nxb
  }

  function EncodeRecords(points: seq<RawPoint>): seq<U8> {
    if points == [] then []
    else EncodeRecords(points[..|points| - 1]) + EncodeRecord(points[|points| - 1])
  }

  function DecodeRecords(b: seq<U8>, n: nat, nxb: nat): seq<RawPoint>
    requires |b| >= n * RecordSize(nxb)
  {
    if n == 0 then []
    else
      assert n * RecordSize(nxb) == (n - 1) * RecordSize(nxb) + RecordSize(nxb);
      DecodeRecords(b, n - 1, nxb) + [DecodeRecord(b[(n - 1) * RecordSize(nxb)..n * RecordSize(nxb)])]
  }

  lemma {:induction false} DecodePrefix(b: seq<U8>, rest: seq<U8>, n: nat, nxb: nat)
    requires |b| >= n * RecordSize(nxb)
    ensures |b + rest| >= n * RecordSize(nxb)
    ensures DecodeRecords(b + rest, n, nxb) == DecodeRecords(b, n, nxb)
  {
    if n > 0 {
      var rs := RecordSize(nxb);
      assert n * rs == (n - 1) * rs + rs;
      DecodePrefix(b, rest, n - 1, nxb);
      assert (b + rest)[(n - 1) * rs..n * rs] == b[(n - 1) * rs..n * rs];
    }
  }

  lemma {:induction false} RecordsRoundTrip(points: seq<RawPoint>, nxb: nat)
    requires Uniform(points, nxb)
    ensures |EncodeRecords(points)| == |points| * RecordSize(nxb)
    ensures DecodeRecords(EncodeRecords(points), |points|, nxb) == points
  {
    if points != [] {
      var n := |points| - 1;
      RecordsRoundTrip(points[..n], nxb);
      RecordRoundTrip(points[n]);
      LastRecord(EncodeRecords(points[..n]), EncodeRecord(points[n]), n, nxb);
      assert DecodeRecords(EncodeRecords(points), n + 1, nxb) == points[..n] + [points[n]];
    }
  }

  lemma LastRecord(init: seq<U8>, last: seq<U8>, n: nat, nxb: nat)
    requires |init| == n * RecordSize(nxb) && |last| == RecordSize(nxb)
    ensures |init + last| == (n + 1) * RecordSize(nxb)
    ensures DecodeRecords(init + last, n + 1, nxb) == DecodeRecords(init, n, nxb) + [DecodeRecord(last)]
  {
    var rs := RecordSize(nxb);
    assert (n + 1) * rs == n * rs + rs;
    DecodePrefix(init, last, n, nxb);
    assert (init + last)[n * rs..(n + 1) * rs] == last;
  }

  /** A batch whose length fits its 32-bit header. */
  type Batch = s: seq<RawPoint> | |s| < 0x1_0000_0000

  /** `write_temp_batch` without compression. */
  function EncodeBatch(points: Batch): seq<U8> {
    ToLE(|points|, 4) + EncodeRecords(points)
  }

  function BatchCount(b: seq<U8>): nat
    requires |b| >= 4
  {
    FromLE(b[..4])
  }

  /** Reading batches to the end of the stream. A truncated header ends the stream; a truncated
      payload is an error. */
  function DecodeStream(b: seq<U8>, nxb: nat): Option<seq<RawPoint>>
    decreases |b|
  {
    if |b| < 4 then Some([])
    else
      var count, body := BatchCount(b), b[4..];
      if |body| < count * RecordSize(nxb) then None
      else
        match DecodeStream(body[count * RecordSize(nxb)..], nxb)
        case None => None
        case Some(more) => Some(DecodeRecords(body, count, nxb) + more)
  }

  /** Concatenation of the encoded batches. */
  function EncodeBatches(batches: seq<Batch>): seq<U8> {
    if batches == [] then [] else EncodeBatch(batches[0]) + EncodeBatches(batches[1..])
  }

  lemma {:induction false} EncodeBatchesAppend(a: seq<Batch>, b: seq<Batch>)
    ensures EncodeBatches(a + b) == EncodeBatches(a) + EncodeBatches(b)
  {
    if a == [] {
      assert a + b == b;
    } else {
      EncodeBatchesAppend(a[1..], b);
      assert (a + b)[1..] == a[1..] + b;
      Regroup(EncodeBatch(a[0]), EncodeBatches(a[1..]), EncodeBatches(b));
    }
  }

  lemma EncodeBatchesSnoc(a: seq<Batch>, b: Batch)
    ensures EncodeBatches(a + [b]) == EncodeBatches(a) + EncodeBatch(b)
  {
    EncodeBatchesAppend(a, [b]);
    assert EncodeBatches([b]) == EncodeBatch(b) + EncodeBatches([b][1..]) == EncodeBatch(b);
  }

  function Concat<T>(lists: seq<seq<T>>): seq<T> {
    if lists == [] then [] else lists[0] + Concat(lists[1..])
  }

  lemma Regroup<T>(a: seq<T>, b: seq<T>, c: seq<T>)
    ensures a + (b + c) == a + b + c
  {
  }

  lemma {:induction false} ConcatSnoc<T>(lists: seq<seq<T>>, last: seq<T>)
    ensures Concat(lists + [last]) == Concat(lists) + last
  {
    if lists == [] {
      assert lists + [last] == [last];
      assert [last][1..] == [];
    } else {
      ConcatSnoc(lists[1..], last);
      assert (lists + [last])[1..] == lists[1..] + [last];
      Regroup(lists[0], Concat(lists[1..]), last);
    }
  }

  lemma {:induction false} ConcatAppend<T>(a: seq<seq<T>>, b: seq<seq<T>>)
    ensures Concat(a + b) == Concat(a) + Concat(b)
  {
    if a == [] {
      assert a + b == b;
    } else {
      ConcatAppend(a[1..], b);
      assert (a + b)[1..] == a[1..] + b;
      Regroup(a[0], Concat(a[1..]), Concat(b));
    }
  }

  lemma ConcatTake<T>(lists: seq<seq<T>>, i: nat)
    requires i < |lists|
    ensures Concat(lists[..i + 1]) == Concat(lists[..i]) + lists[i]
  {
    ConcatSnoc(lists[..i], lists[i]);
    assert lists[..i + 1] == lists[..i] + [lists[i]];
  }

  lemma StreamStep(b: seq<U8>, head: seq<U8>, recs: seq<U8>, rest: seq<U8>, count: nat, nxb: nat)
    requires b == head + recs + rest && |head| == 4 && FromLE(head) == count
    requires |recs| == count * RecordSize(nxb)
    ensures DecodeStream(b, nxb) == match DecodeStream(rest, nxb)
                                    case None => None
                                    case Some(more) => Some(DecodeRecords(recs, count, nxb) + more)
  {
    assert b[..4] == head;
    assert b[4..] == recs + rest;
    DecodePrefix(recs, rest, count, nxb);
    assert (recs + rest)[|recs|..] == rest;
  }

  lemma BatchThenRest(points: Batch, rest: seq<U8>, nxb: nat)
    requires Uniform(points, nxb)
    ensures DecodeStream(EncodeBatch(points) + rest, nxb) ==
            match DecodeStream(rest, nxb)
            case None => None
            case Some(more) => Some(points + more)
  {
    Spans();
    LERoundTrip(|points|, 4);
    RecordsRoundTrip(points, nxb);
    StreamStep(EncodeBatch(points) + rest, ToLE(|points|, 4), EncodeRecords(points), rest, |points|, nxb);
  }

  /** Concatenated batches decode to the concatenated points. */
  lemma {:induction false} BatchesRoundTrip(batches: seq<Batch>, nxb: nat)
    requires forall i :: 0 <= i < |batches| ==> Uniform(batches[i], nxb)
    ensures DecodeStream(EncodeBatches(batches), nxb) == Some(Concat(batches))
  {
    if batches != [] {
      BatchesRoundTrip(batches[1..], nxb);
      BatchThenRest(batches[0], EncodeBatches(batches[1..]), nxb);
    }
  }
}
