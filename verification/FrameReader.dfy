/** Reading scratch files back (src/octree.rs): the reader that flattens concatenated LZ4
    frames, and the batch loop that runs over it. A plain file is the one-frame case. */
module FrameReader {
  import opened Bytes
  import opened Voxel
  import opened Points
  import opened Framing

  /** The frame decoder: reads at most the rest of one frame, then reports a zero-length read at
      the end of that frame, then starts the next frame. How much one read returns is arbitrary. */
  class FrameDecoder {
    var current: seq<U8>
    var inFrame: bool
    var pending: seq<seq<U8>>

    constructor (frames: seq<seq<U8>>)
      ensures current == [] && !inFrame && pending == frames
    {
      current, inFrame, pending := [], false, frames;
    }

    /** Bytes not read yet. */
    ghost function Rest(): seq<U8>
      reads this
    {
      current + Concat(pending)
    }

    ghost predicate Valid()
      reads this
    {
      (forall i :: 0 <= i < |pending| ==> pending[i] != []) && (current != [] ==> inFrame)
    }

    method Read(n: nat) returns (out: seq<U8>)
      requires Valid() && n > 0
      modifies this
      ensures Valid() && |out| <= n && old(Rest()) == out + Rest()
      ensures out == [] ==> !inFrame && (old(inFrame) || old(Rest()) == [])
    {
      if inFrame && current == [] {
        inFrame := false;
        assert Rest() == old(Rest());
        return [];
      }
      if !inFrame {
        if pending == [] {
          return [];
        }
        current, pending, inFrame := pending[0], pending[1..], true;
      }
      var k: nat :| 1 <= k <= n && k <= |current|;
      out := current[..k];
      assert current == out + current[k..];
      current := current[k..];
    }
  }

  /** `MultiFrameReader`: a zero-length read is retried once, so that an end of frame is not
      mistaken for the end of the stream. */
  class MultiFrameReader {
    const inner: FrameDecoder

    constructor (inner: FrameDecoder)
      ensures this.inner == inner
    {
      this.inner := inner;
    }

    method Read(n: nat) returns (out: seq<U8>)
      requires inner.Valid()
      modifies inner
      ensures inner.Valid() && |out| <= n && old(inner.Rest()) == out + inner.Rest()
      ensures n > 0 && out == [] ==> old(inner.Rest()) == []
    {
      if n == 0 {
        return [];
      }
      out := inner.Read(n);
      if out == [] {
        out := inner.Read(n);
      }
    }

    /** `read_exact`: fails exactly when the stream is too short. */
    method ReadExact(n: nat) returns (out: Option<seq<U8>>)
      requires inner.Valid()
      modifies inner
      ensures inner.Valid()
      ensures out.Some? <==> |old(inner.Rest())| >= n
      ensures out.Some? ==> out.value == old(inner.Rest())[..n] && inner.Rest() == old(inner.Rest())[n..]
    {
      var buf := [];
      ghost var all := inner.Rest();
      while |buf| < n
        invariant inner.Valid() && |buf| <= n && all == buf + inner.Rest()
        decreases n - |buf|
      {
        var more := Read(n - |buf|);
        if more == [] {
          return None;
        }
        buf := buf + more;
      }
      out := Some(buf);
    }
  }

  function Prepend<T>(a: seq<T>, b: Option<seq<T>>): Option<seq<T>> {
    if b.None? then None else Some(a + b.value)
  }

  /** The last record of a run. */
  lemma DecodeLast(b: seq<U8>, n: nat, nxb: nat, lo: nat, hi: nat)
    requires n > 0 && lo == (n - 1) * RecordSize(nxb) && hi == n * RecordSize(nxb) <= |b|
    ensures lo + RecordSize(nxb) == hi
    ensures DecodeRecords(b, n, nxb) == DecodeRecords(b, n - 1, nxb) + [DecodeRecord(b[lo..hi])]
  {
    SizeSplit(n - 1, 1, RecordSize(nxb));
  }

  /** One more record, at the end of both decodings. */
  lemma DecodeSplitStep(b: seq<U8>, done: nat, take: nat, nxb: nat, from: nat, lo: nat, hi: nat)
    requires take > 0 && from == done * RecordSize(nxb) && from + hi <= |b|
    requires lo == (take - 1) * RecordSize(nxb) && hi == take * RecordSize(nxb)
    requires from + lo == (done + take - 1) * RecordSize(nxb) && from + hi == (done + take) * RecordSize(nxb)
    requires DecodeRecords(b, done + take - 1, nxb) == DecodeRecords(b, done, nxb) + DecodeRecords(b[from..], take - 1, nxb)
    ensures DecodeRecords(b, done + take, nxb) == DecodeRecords(b, done, nxb) + DecodeRecords(b[from..], take, nxb)
  {
    DecodeLast(b, done + take, nxb, from + lo, from + hi);
    DecodeLast(b[from..], take, nxb, lo, hi);
    SliceOfTail(b, from, lo, hi);
    Regroup(DecodeRecords(b, done, nxb), DecodeRecords(b[from..], take - 1, nxb), [DecodeRecord(b[from + lo..from + hi])]);
  }

  lemma {:induction false} DecodeSplit(b: seq<U8>, done: nat, take: nat, nxb: nat)
    requires |b| >= (done + take) * RecordSize(nxb)
    ensures done * RecordSize(nxb) <= |b| && |b[done * RecordSize(nxb)..]| >= take * RecordSize(nxb)
    ensures DecodeRecords(b, done + take, nxb) ==
            DecodeRecords(b, done, nxb) + DecodeRecords(b[done * RecordSize(nxb)..], take, nxb)
    decreases take
  {
    var rs := RecordSize(nxb);
    SizeSplit(done, take, rs);
    if take > 0 {
      SizeSplit(done + (take - 1), 1, rs);
      SizeSplit(done, take - 1, rs);
      SizeSplit(take - 1, 1, rs);
      DecodeSplit(b, done, take - 1, nxb);
      DecodeSplitStep(b, done, take, nxb, done * rs, (take - 1) * rs, take * rs);
    }
  }

  lemma SliceOfTail(b: seq<U8>, from: nat, lo: nat, hi: nat)
    requires lo <= hi && from + hi <= |b|
    ensures b[from..][lo..hi] == b[from + lo..from + hi]
  {
  }

  lemma SizeSplit(a: nat, b: nat, rs: nat)
    ensures (a + b) * rs == a * rs + b * rs
    ensures a * rs >= 0 && b * rs >= 0
  {
  }

  /** After `done` records of the payload. */
  ghost predicate PayloadRead(b: seq<U8>, done: nat, nxb: nat, out: seq<RawPoint>, rest: seq<U8>) {
    |b| >= done * RecordSize(nxb) && out == DecodeRecords(b, done, nxb) && rest == b[done * RecordSize(nxb)..]
  }

  predicate TooShort(b: seq<U8>, count: nat, nxb: nat) {
    |b| < count * RecordSize(nxb)
  }

  /** One piece of `take` records taken from the front of `before`. */
  ghost predicate PieceRead(before: seq<U8>, take: nat, nxb: nat, recs: seq<RawPoint>, after: seq<U8>) {
    !TooShort(before, take, nxb) && after == before[take * RecordSize(nxb)..] &&
    recs == DecodeRecords(before[..take * RecordSize(nxb)], take, nxb)
  }

  lemma PayloadStep(b: seq<U8>, done: nat, nxb: nat, out: seq<RawPoint>, rest: seq<U8>, take: nat,
                    recs: seq<RawPoint>, after: seq<U8>)
    requires PayloadRead(b, done, nxb, out, rest) && PieceRead(rest, take, nxb, recs, after)
    ensures PayloadRead(b, done + take, nxb, out + recs, after)
  {
    var rs := RecordSize(nxb);
    SizeSplit(done, take, rs);
    DecodeSplit(b, done, take, nxb);
    DecodePrefix(rest[..take * rs], rest[take * rs..], take, nxb);
    assert rest[..take * rs] + rest[take * rs..] == rest;
    assert rest[take * rs..] == b[(done + take) * rs..];
  }

  lemma PayloadShort(b: seq<U8>, done: nat, nxb: nat, out: seq<RawPoint>, rest: seq<U8>, take: nat, count: nat)
    requires PayloadRead(b, done, nxb, out, rest) && TooShort(rest, take, nxb) && done + take <= count
    ensures TooShort(b, count, nxb)
  {
    var rs := RecordSize(nxb);
    SizeSplit(done, take, rs);
    SizeSplit(done + take, count - (done + take), rs);
  }

  lemma PayloadStart(b: seq<U8>, nxb: nat)
    ensures PayloadRead(b, 0, nxb, [], b)
  {
    assert 0 * RecordSize(nxb) == 0;
  }

  /** One bounded piece, record by record. */
  method DecodePiece(buf: seq<U8>, take: nat, nxb: nat) returns (recs: seq<RawPoint>)
    requires |buf| == take * RecordSize(nxb)
    ensures recs == DecodeRecords(buf, take, nxb)
  {
    recs := [];
    var pos := 0;
    for i := 0 to take
      invariant pos == i * RecordSize(nxb) && pos <= |buf|
      invariant recs == DecodeRecords(buf, i, nxb)
    {
      SizeSplit(i, 1, RecordSize(nxb));
      SizeSplit(i + 1, take - (i + 1), RecordSize(nxb));
      recs := recs + [DecodeRecord(buf[pos..pos + RecordSize(nxb)])];
      pos := pos + RecordSize(nxb);
    }
  }

  method ReadPiece(r: MultiFrameReader, take: nat, nxb: nat) returns (recs: Option<seq<RawPoint>>)
    requires r.inner.Valid()
    modifies r.inner
    ensures r.inner.Valid()
    ensures recs.None? <==> TooShort(old(r.inner.Rest()), take, nxb)
    ensures recs.Some? ==> PieceRead(old(r.inner.Rest()), take, nxb, recs.value, r.inner.Rest())
  {
    SizeSplit(take, 0, RecordSize(nxb));
    var need: nat := take * RecordSize(nxb);
    var buf := r.ReadExact(need);
    if buf == None {
      return None;
    }
    var points := DecodePiece(buf.value, take, nxb);
    recs := Some(points);
  }

  /** One more piece of a batch of `count` records, `b` being the bytes after its header. */
  method NextPiece(r: MultiFrameReader, ghost b: seq<U8>, ghost count: nat, done: nat, take: nat, nxb: nat, out: seq<RawPoint>)
    returns (more: Option<seq<RawPoint>>)
    requires r.inner.Valid() && PayloadRead(b, done, nxb, out, r.inner.Rest()) && done + take <= count
    modifies r.inner
    ensures r.inner.Valid() && (more.None? ==> TooShort(b, count, nxb))
    ensures more.Some? ==> PayloadRead(b, done + take, nxb, more.value, r.inner.Rest())
  {
    ghost var before := r.inner.Rest();
    var recs := ReadPiece(r, take, nxb);
    if recs == None {
      PayloadShort(b, done, nxb, out, before, take, count);
      return None;
    }
    PayloadStep(b, done, nxb, out, before, take, recs.value, r.inner.Rest());
    more := Some(out + recs.value);
  }

  /** The records of one batch, read in bounded pieces. */
  method ReadPayload(r: MultiFrameReader, count: nat, nxb: nat) returns (points: Option<seq<RawPoint>>)
    requires r.inner.Valid()
    modifies r.inner
    ensures r.inner.Valid()
    ensures points.None? ==> TooShort(old(r.inner.Rest()), count, nxb)
    ensures points.Some? ==> PayloadRead(old(r.inner.Rest()), count, nxb, points.value, r.inner.Rest())
  {
    ghost var b := r.inner.Rest();
    var out: seq<RawPoint> := [];
    var remaining := count;
    PayloadStart(b, nxb);
    while remaining > 0
      invariant 0 <= remaining <= count && r.inner.Valid()
      invariant PayloadRead(b, count - remaining, nxb, out, r.inner.Rest())
    {
      var take := if remaining < MAX_POINTS_PER_READ then remaining else MAX_POINTS_PER_READ;
      var more := NextPiece(r, b, count, count - remaining, take, nxb, out);
      if more == None {
        return None;
      }
      out, remaining := more.value, remaining - take;
    }
    points := Some(out);
  }

  lemma PrependNil<T>(x: Option<seq<T>>)
    ensures Prepend([], x) == x
  {
    if x.Some? { assert [] + x.value == x.value; }
  }

  lemma PrependConcat<T>(a: seq<T>, b: seq<T>, x: Option<seq<T>>)
    ensures Prepend(a + b, x) == Prepend(a, Prepend(b, x))
  {
    if x.Some? { assert (a + b) + x.value == a + (b + x.value); }
  }

  lemma BatchRead(before: seq<U8>, nxb: nat, batch: seq<RawPoint>, rest: seq<U8>)
    requires |before| >= 4 && PayloadRead(before[4..], BatchCount(before), nxb, batch, rest)
    ensures DecodeStream(before, nxb) == Prepend(batch, DecodeStream(rest, nxb))
  {
  }

  /** One batch, or the end of the stream when no header can be read. */
  method ReadBatch(r: MultiFrameReader, nxb: nat) returns (ended: bool, batch: Option<seq<RawPoint>>)
    requires r.inner.Valid()
    modifies r.inner
    ensures r.inner.Valid()
    ensures ended ==> DecodeStream(old(r.inner.Rest()), nxb) == Some([])
    ensures !ended && batch == None ==> DecodeStream(old(r.inner.Rest()), nxb) == None
    ensures !ended && batch.Some? ==> |r.inner.Rest()| < |old(r.inner.Rest())|
    ensures !ended && batch.Some? ==>
              DecodeStream(old(r.inner.Rest()), nxb) == Prepend(batch.value, DecodeStream(r.inner.Rest(), nxb))
  {
    ghost var before := r.inner.Rest();
    var header := r.ReadExact(4);
    if header == None {
      return true, None;
    }
    batch := ReadPayload(r, FromLE(header.value), nxb);
    ended := false;
    if batch.Some? {
      BatchRead(before, nxb, batch.value, r.inner.Rest());
    }
  }

  /** `for_each_point_in_batches`, collecting the points: read batches until a header cannot be
      read. */
  method ReadBatches(r: MultiFrameReader, nxb: nat) returns (points: Option<seq<RawPoint>>)
    requires r.inner.Valid()
    modifies r.inner
    ensures r.inner.Valid() && points == DecodeStream(old(r.inner.Rest()), nxb)
  {
    ghost var all := DecodeStream(r.inner.Rest(), nxb);
    var out: seq<RawPoint> := [];
    PrependNil(all);
    while true
      invariant r.inner.Valid()
      invariant all == Prepend(out, DecodeStream(r.inner.Rest(), nxb))
      decreases |r.inner.Rest()|
    {
      var ended, batch := ReadBatch(r, nxb);
      if ended {
        assert out + [] == out;
        return Some(out);
      }
      if batch == None {
        return None;
      }
      PrependConcat(out, batch.value, DecodeStream(r.inner.Rest(), nxb));
      out := out + batch.value;
    }
  }

  /** `read_temp_batches` over frames: each batch is one frame, a plain file is one frame. */
  method ReadTempBatches(frames: seq<seq<U8>>, nxb: nat) returns (points: Option<seq<RawPoint>>)
    requires forall i :: 0 <= i < |frames| ==> frames[i] != []
    ensures points == DecodeStream(Concat(frames), nxb)
  {
    var dec := new FrameDecoder(frames);
    var r := new MultiFrameReader(dec);
    assert dec.Rest() == Concat(frames);
    points := ReadBatches(r, nxb);
  }

  method ReadPlainFile(file: seq<U8>, nxb: nat) returns (points: Option<seq<RawPoint>>)
    ensures points == DecodeStream(file, nxb)
  {
    var frames := if file == [] then [] else [file];
    assert Concat([file]) == file + Concat<U8>([]) == file;
    assert Concat(frames) == file;
    points := ReadTempBatches(frames, nxb);
  }

  /** Points announced by the batch headers, skipping payloads; skipping past the end of the file
      ends the walk. */
  function HeaderCount(b: seq<U8>, nxb: nat): nat
    decreases |b|
  {
    if |b| < 4 then 0
    else
      var count, body := BatchCount(b), b[4..];
      count + if |body| < count * RecordSize(nxb) then 0 else HeaderCount(body[count * RecordSize(nxb)..], nxb)
  }

  lemma {:induction false} DecodedLength(b: seq<U8>, n: nat, nxb: nat)
    requires |b| >= n * RecordSize(nxb)
    ensures |DecodeRecords(b, n, nxb)| == n
  {
    if n > 0 {
      SizeSplit(n - 1, 1, RecordSize(nxb));
      DecodedLength(b, n - 1, nxb);
    }
  }

  /** On a readable file the header walk counts exactly the decoded points. */
  lemma {:induction false} HeaderCountIsLength(b: seq<U8>, nxb: nat)
    requires DecodeStream(b, nxb).Some?
    ensures HeaderCount(b, nxb) == |DecodeStream(b, nxb).value|
    decreases |b|
  {
    if |b| >= 4 {
      var count, body := BatchCount(b), b[4..];
      SizeSplit(count, 0, RecordSize(nxb));
      var size: nat := count * RecordSize(nxb);
      DecodedLength(body, count, nxb);
      HeaderCountIsLength(body[size..], nxb);
      HeaderCountStep(b, nxb, count, body, size);
    }
  }

  lemma HeaderCountStep(b: seq<U8>, nxb: nat, count: nat, body: seq<U8>, size: nat)
    requires |b| >= 4 && count == BatchCount(b) && body == b[4..] && size == count * RecordSize(nxb) <= |body|
    requires |DecodeRecords(body, count, nxb)| == count && DecodeStream(body[size..], nxb).Some?
    requires HeaderCount(body[size..], nxb) == |DecodeStream(body[size..], nxb).value|
    ensures DecodeStream(b, nxb).Some? && HeaderCount(b, nxb) == |DecodeStream(b, nxb).value|
  {
  }

  /** `count_temp_file_points` without compression. */
  method CountFilePoints(file: seq<U8>, nxb: nat) returns (total: nat)
    ensures total == HeaderCount(file, nxb)
  {
    total := 0;
    var pos := 0;
    while pos + 4 <= |file|
      invariant total + (if pos <= |file| then HeaderCount(file[pos..], nxb) else 0) == HeaderCount(file, nxb)
      decreases |file| - pos
    {
      var count := FromLE(file[pos..pos + 4]);
      ghost var b := file[pos..];
      assert b[..4] == file[pos..pos + 4];
      assert b[4..] == file[pos + 4..];
      SizeSplit(count, 0, RecordSize(nxb));
      var next := pos + 4 + count * RecordSize(nxb);
      assert next <= |file| ==> b[4..][count * RecordSize(nxb)..] == file[next..];
      total := total + count;
      pos := next;
    }
  }
}
