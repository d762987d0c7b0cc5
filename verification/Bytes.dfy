/** Fixed-width integers and their little-endian byte encoding. */
module Bytes {

  type U8 = n: nat | n < 0x100
  type U16 = n: nat | n < 0x1_0000
  type U32 = n: nat | n < 0x1_0000_0000
  type U64 = n: nat | n < 0x1_0000_0000_0000_0000
  type I16 = n: int | -0x8000 <= n < 0x8000
  type I32 = n: int | -0x8000_0000 <= n < 0x8000_0000

  /** Number of values of a `width`-byte word. */
  function Span(width: nat): (r: nat)
    ensures r > 0
  {
    if width == 0 then 1 else 256 * Span(width - 1)
  }

  lemma Spans()
    ensures Span(1) == 0x100 && Span(2) == 0x1_0000 && Span(4) == 0x1_0000_0000
    ensures Span(8) == 0x1_0000_0000_0000_0000
  {
    assert Span(3) == 256 * Span(2);
    assert Span(4) == 256 * Span(3);
    assert Span(5) == 256 * Span(4);
    assert Span(6) == 256 * Span(5);
    assert Span(7) == 256 * Span(6);
  }

  function ToLE(n: nat, width: nat): (b: seq<U8>)
    ensures |b| == width
  {
    if width == 0 then [] else [n % 256] + ToLE(n / 256, width - 1)
  }

  function FromLE(b: seq<U8>): nat {
    if b == [] then 0 else b[0] + 256 * FromLE(b[1..])
  }

  lemma {:induction false} FromLEBound(b: seq<U8>)
    ensures FromLE(b) < Span(|b|)
  {
    if b != [] {
      FromLEBound(b[1..]);
    }
  }

  lemma {:induction false} LERoundTrip(n: nat, width: nat)
    requires n < Span(width)
    ensures FromLE(ToLE(n, width)) == n
  {
    if width > 0 {
      LERoundTrip(n / 256, width - 1);
      assert ToLE(n, width)[1..] == ToLE(n / 256, width - 1);
    }
  }

  /** Two's complement of a signed 32-bit word. */
  function Unsigned32(n: I32): U32 {
    if n < 0 then n + 0x1_0000_0000 else n
  }

  function Signed32(n: U32): I32 {
    if n < 0x8000_0000 then n else n - 0x1_0000_0000
  }

  function Unsigned16(n: I16): U16 {
    if n < 0 then n + 0x1_0000 else n
  }

  function Signed16(n: U16): I16 {
    if n < 0x8000 then n else n - 0x1_0000
  }

  /** Consecutive little-endian words of the given widths. */
  function EncodeWords(values: seq<nat>, widths: seq<nat>): seq<U8>
    requires |values| == |widths|
  {
    if values == [] then [] else ToLE(values[0], widths[0]) + EncodeWords(values[1..], widths[1..])
  }

  function TotalWidth(widths: seq<nat>): nat {
    if widths == [] then 0 else widths[0] + TotalWidth(widths[1..])
  }

  lemma {:induction false} TotalWidthConcat(a: seq<nat>, b: seq<nat>)
    ensures TotalWidth(a + b) == TotalWidth(a) + TotalWidth(b)
  {
    if a == [] {
      assert a + b == b;
    } else {
      TotalWidthConcat(a[1..], b);
      assert (a + b)[1..] == a[1..] + b;
    }
  }

  function DecodeWords(b: seq<U8>, widths: seq<nat>): (values: seq<nat>)
    requires |b| >= TotalWidth(widths)
    ensures |values| == |widths|
  {
    if widths == [] then []
    else [FromLE(b[..widths[0]])] + DecodeWords(b[widths[0]..], widths[1..])
  }

  predicate Fit(values: seq<nat>, widths: seq<nat>) {
    |values| == |widths| && forall i :: 0 <= i < |values| ==> values[i] < Span(widths[i])
  }

  lemma {:induction false} EncodeWordsLength(values: seq<nat>, widths: seq<nat>)
    requires |values| == |widths|
    ensures |EncodeWords(values, widths)| == TotalWidth(widths)
  {
    if values != [] {
      EncodeWordsLength(values[1..], widths[1..]);
    }
  }

  lemma {:induction false} DecodeWordsFit(b: seq<U8>, widths: seq<nat>)
    requires |b| >= TotalWidth(widths)
    ensures Fit(DecodeWords(b, widths), widths)
  {
    if widths != [] {
      DecodeWordsFit(b[widths[0]..], widths[1..]);
      FromLEBound(b[..widths[0]]);
      var v := DecodeWords(b, widths);
      forall i | 0 <= i < |v| ensures v[i] < Span(widths[i]) {
        if i > 0 {
          assert v[i] == v[1..][i - 1] && widths[i] == widths[1..][i - 1];
        }
      }
    }
  }

  lemma {:induction false} WordsRoundTrip(values: seq<nat>, widths: seq<nat>, rest: seq<U8>)
    requires Fit(values, widths)
    ensures |EncodeWords(values, widths)| == TotalWidth(widths)
    ensures DecodeWords(EncodeWords(values, widths) + rest, widths) == values
  {
    EncodeWordsLength(values, widths);
    if values != [] {
      var w := widths[0];
      var head, tail := ToLE(values[0], w), EncodeWords(values[1..], widths[1..]);
      WordsRoundTrip(values[1..], widths[1..], rest);
      LERoundTrip(values[0], w);
      var b := EncodeWords(values, widths) + rest;
      assert b == head + (tail + rest);
      assert b[..w] == head && b[w..] == tail + rest;
    }
  }
}
