/** GPS times as the program stores them: the 64 bits of an IEEE 754 double (section 3.4 of
    IEEE 754-2008), ordered by value. The index compares doubles; the order on their bit patterns
    is by sign and magnitude, so negative times sort the other way round. */
module TimeOrder {
  import opened Arith
  import opened Bytes

  type Time = U64

  const SIGN_BIT: nat := 0x8000_0000_0000_0000
  const INFINITE: nat := 0x7FF0_0000_0000_0000
  const FRACTION: nat := 0x10_0000_0000_0000

  /** The largest and the smallest finite double, which start every range computation. */
  const TIME_MAX: Time := 0x7FEF_FFFF_FFFF_FFFF
  const TIME_MIN: Time := 0xFFEF_FFFF_FFFF_FFFF

  /** Position of a time in the order of doubles; both zeros are at 0. */
  function Rank(t: Time): int {
    if t < SIGN_BIT then t else SIGN_BIT - t
  }

  /** Neither an infinity nor a NaN. */
  predicate Finite(t: Time) {
    0 - INFINITE < Rank(t) < INFINITE
  }

  /** A finite time lies between the sentinels, and only a sentinel has a sentinel's rank. */
  lemma FiniteRange(t: Time)
    requires Finite(t)
    ensures Rank(TIME_MIN) <= Rank(t) <= Rank(TIME_MAX)
    ensures Rank(t) == Rank(TIME_MAX) ==> t == TIME_MAX
    ensures Rank(t) == Rank(TIME_MIN) ==> t == TIME_MIN
  {
  }

  /** Magnitude from an exponent field and a fraction of `f`; exponent 0 marks the subnormals. */
  function FieldMagnitude(f: nat, e: nat, m: nat): nat {
    if e == 0 then m else (f + m) * Pow2(e - 1)
  }

  /** Magnitude of a double in units of the smallest positive one, from its exponent and fraction. */
  function Magnitude(bits: nat): nat {
    FieldMagnitude(FRACTION, bits / FRACTION, bits % FRACTION)
  }

  /** The exact value in those units. */
  function Units(t: Time): int {
    if t < SIGN_BIT then Magnitude(t) else 0 - Magnitude(t - SIGN_BIT)
  }

  lemma Scale(a: nat, b: nat, p: nat)
    requires a < b && p > 0
    ensures a * p < b * p
  {
  }

  lemma Doubled(f: nat, p: nat)
    ensures (f + f) * p == f * (2 * p)
  {
  }

  /** A number with exponent field `d` is below every number with a larger one. */
  lemma ScaledBelow(f: nat, m: nat, d: nat, e: nat)
    requires m < f && 0 < d <= e
    ensures (f + m) * Pow2(d - 1) < f * Pow2(e)
  {
    Scale(f + m, f + f, Pow2(d - 1));
    Doubled(f, Pow2(d - 1));
    Pow2Monotone(d, e);
    MulLe(Pow2(d), Pow2(e), f);
  }

  lemma ScaledAtLeast(f: nat, m: nat, d: nat, e: nat)
    requires e < d
    ensures f * Pow2(e) <= (f + m) * Pow2(d - 1)
  {
    Pow2Monotone(e, d - 1);
    MulLe(Pow2(e), Pow2(d - 1), f);
    MulLe(f, f + m, Pow2(d - 1));
  }

  lemma SubnormalBelow(f: nat, m: nat, e: nat)
    requires m < f
    ensures m < f * Pow2(e)
  {
    MulLe(1, Pow2(e), f);
  }

  lemma ScaledIncreases(f: nat, d: nat, m: nat, e: nat, n: nat)
    requires m < f && n < f && (d < e || (d == e && m < n))
    ensures FieldMagnitude(f, d, m) < FieldMagnitude(f, e, n)
  {
    if d == e {
      if d > 0 {
        Scale(f + m, f + n, Pow2(d - 1));
      }
    } else {
      ScaledAtLeast(f, n, e, d);
      if d == 0 {
        SubnormalBelow(f, m, d);
      } else {
        ScaledBelow(f, m, d, d);
      }
    }
  }

  lemma MagnitudeIncreases(a: nat, b: nat)
    requires a < b
    ensures Magnitude(a) < Magnitude(b)
  {
    ScaledIncreases(FRACTION, a / FRACTION, a % FRACTION, b / FRACTION, b % FRACTION);
  }

  /** Ranks order times exactly as their values do: positive, negative and mixed. */
  lemma RankIsOrder(a: Time, b: Time)
    ensures Rank(a) < Rank(b) <==> Units(a) < Units(b)
    ensures Rank(a) == Rank(b) <==> Units(a) == Units(b)
  {
    var x, y: nat := if a < SIGN_BIT then a else a - SIGN_BIT, if b < SIGN_BIT then b else b - SIGN_BIT;
    assert Magnitude(0) == 0;
    if x < y { MagnitudeIncreases(x, y); }
    if y < x { MagnitudeIncreases(y, x); }
    if 0 < x { MagnitudeIncreases(0, x); }
    if 0 < y { MagnitudeIncreases(0, y); }
  }

  /** Sorted by value. */
  ghost predicate Ascending(times: seq<Time>) {
    forall i, j :: 0 <= i < j < |times| ==> Rank(times[i]) <= Rank(times[j])
  }

  ghost predicate AllFinite(times: seq<Time>) {
    forall i :: 0 <= i < |times| ==> Finite(times[i])
  }
}
