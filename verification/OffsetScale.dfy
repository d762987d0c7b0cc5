/** Fitting one axis of the coordinate offset and scale to signed 32-bit storage
    (`fit_offset_scale` of src/octree.rs), over exact reals. */
module OffsetScale {
  import opened Arith
  import opened Bytes
  import opened Points

  const I32_HEADROOM: real := 2_147_400_000.0

  function Abs(x: real): real {
    if x < 0.0 then -x else x
  }

  predicate Fits(min: real, max: real, o: real, s: Scale) {
    Abs((min - o) / s) <= I32_HEADROOM && Abs((max - o) / s) <= I32_HEADROOM
  }

  function Scaled(s: Scale, k: nat): Scale {
    ScalePositive(s, k);
    s * Pow2(k) as real
  }

  lemma ScalePositive(s: Scale, k: nat)
    ensures s * Pow2(k) as real > 0.0
  {
  }

  lemma ScaledNext(s: Scale, k: nat)
    ensures Scaled(s, k + 1) == Scaled(s, k) * 2.0
  {
    assert Pow2(k + 1) as real == 2.0 * Pow2(k) as real;
    Commute(s, Pow2(k) as real);
  }

  lemma Commute(a: real, b: real)
    ensures a * (2.0 * b) == (a * b) * 2.0
  {
  }

  function Midpoint(min: real, max: real): real {
    0.5 * (min + max)
  }

  /** Around the midpoint only the half extent matters. */
  lemma MidpointFits(min: real, max: real, s: Scale)
    requires min <= max
    ensures Fits(min, max, Midpoint(min, max), s) <==> (max - min) / 2.0 <= I32_HEADROOM * s
  {
    var half := (max - min) / 2.0;
    assert max - Midpoint(min, max) == half && min - Midpoint(min, max) == -half;
    QuotientAtMost(half, s, I32_HEADROOM);
    QuotientSign(half, s);
  }

  lemma QuotientAtMost(a: real, s: Scale, h: real)
    ensures a / s <= h <==> a <= h * s
  {
    var q := a / s;
    assert q * s == a;
    if q <= h {
      assert (h - q) * s >= 0.0;
    } else {
      assert (q - h) * s > 0.0;
    }
  }

  lemma QuotientSign(a: real, s: Scale)
    requires a >= 0.0
    ensures a / s >= 0.0 && (-a) / s == -(a / s)
  {
    var q := a / s;
    assert q * s == a;
    assert (-q) * s == -a;
  }

  /** Enough doublings always fit. */
  lemma DoublingsSuffice(min: real, max: real, s: Scale) returns (n: nat)
    requires min <= max
    ensures forall k :: k >= n ==> Fits(min, max, Midpoint(min, max), Scaled(s, k))
  {
    var half := (max - min) / 2.0;
    QuotientSign(half, s);
    n := (half / s).Floor + 1;
    forall k | k >= n ensures Fits(min, max, Midpoint(min, max), Scaled(s, k)) {
      Pow2Exceeds(k);
      Archimedes(half, s, k, Pow2(k) as real);
      MidpointFits(min, max, Scaled(s, k));
    }
  }

  lemma Archimedes(half: real, s: Scale, k: nat, p: real)
    requires p > k as real && k >= (half / s).Floor + 1 && half >= 0.0
    ensures half <= I32_HEADROOM * (s * p)
  {
    assert half / s < k as real;
    QuotientAtMost(half, s, p);
    assert p * s == s * p;
    assert s * p > 0.0;
    Grow(s * p);
  }

  lemma Grow(x: real)
    requires x > 0.0
    ensures x <= I32_HEADROOM * x
  {
    assert (I32_HEADROOM - 1.0) * x >= 0.0;
  }

  /** Every value of a fitted range rounds to a signed 32-bit integer. */
  lemma FittedIsRepresentable(min: real, max: real, o: real, s: Scale, v: real)
    requires Fits(min, max, o, s) && min <= v <= max
    ensures -0x8000_0000 <= Round((v - o) / s) < 0x8000_0000
  {
    QuotientMonotone(min - o, v - o, s);
    QuotientMonotone(v - o, max - o, s);
  }

  /** Rounding to the nearest integer moves a number by at most a half. */
  lemma RoundNear(x: real)
    ensures -0.5 <= Round(x) as real - x <= 0.5
  {
  }

  /** What a stored integer reads back as: the coordinate it was stored from, within half a unit. */
  lemma StoredReadsBack(w: real, o: real, s: Scale, n: int)
    requires n == Round((w - o) / s)
    ensures Abs(n as real * s + o - w) <= s / 2.0
  {
    var q := (w - o) / s;
    RoundNear(q);
    assert q * s == w - o;
    HalfUnit(n as real - q, s);
    assert (n as real - q) * s == n as real * s - q * s;
  }

  lemma HalfUnit(d: real, s: Scale)
    requires -0.5 <= d <= 0.5
    ensures -(s / 2.0) <= d * s <= s / 2.0
  {
    ProductNonNegative(0.5 - d, s);
    ProductNonNegative(d + 0.5, s);
    assert (0.5 - d) * s == s / 2.0 - d * s;
    assert (d + 0.5) * s == d * s + s / 2.0;
  }

  lemma ProductNonNegative(a: real, b: real)
    requires a >= 0.0 && b > 0.0
    ensures a * b >= 0.0
  {
  }

  /** The coordinates of an input point and the integers it is stored as. */
  ghost predicate StoredFrom(f: Frame, p: RawPoint, x: real, y: real, z: real) {
    p.x == Round((x - f.offsetX) / f.scaleX) && p.y == Round((y - f.offsetY) / f.scaleY) && p.z == Round((z - f.offsetZ) / f.scaleZ)
  }

  /** Every stage classifies a stored point by coordinates within half a unit of the input's, each
      axis by its own scale and offset. */
  lemma ClassifiedWhereItWas(f: Frame, p: RawPoint, x: real, y: real, z: real)
    requires StoredFrom(f, p, x, y, z)
    ensures Abs(WorldX(f, p) - x) <= f.scaleX / 2.0
    ensures Abs(WorldY(f, p) - y) <= f.scaleY / 2.0
    ensures Abs(WorldZ(f, p) - z) <= f.scaleZ / 2.0
  {
    ClassifiedX(f, p, x);
    ClassifiedY(f, p, y);
    ClassifiedZ(f, p, z);
  }

  lemma ClassifiedX(f: Frame, p: RawPoint, x: real)
    requires p.x == Round((x - f.offsetX) / f.scaleX)
    ensures Abs(WorldX(f, p) - x) <= f.scaleX / 2.0
  {
    StoredReadsBack(x, f.offsetX, f.scaleX, p.x);
  }

  lemma ClassifiedY(f: Frame, p: RawPoint, y: real)
    requires p.y == Round((y - f.offsetY) / f.scaleY)
    ensures Abs(WorldY(f, p) - y) <= f.scaleY / 2.0
  {
    StoredReadsBack(y, f.offsetY, f.scaleY, p.y);
  }

  lemma ClassifiedZ(f: Frame, p: RawPoint, z: real)
    requires p.z == Round((z - f.offsetZ) / f.scaleZ)
    ensures Abs(WorldZ(f, p) - z) <= f.scaleZ / 2.0
  {
    StoredReadsBack(z, f.offsetZ, f.scaleZ, p.z);
  }

  /** With a fitted frame every point of the ranges has such integers, so the cast to 32 bits that
      stores them loses nothing. */
  lemma FittedIsStored(f: Frame, lo: (real, real, real), hi: (real, real, real), x: real, y: real, z: real) returns (n: (I32, I32, I32))
    requires Fits(lo.0, hi.0, f.offsetX, f.scaleX) && Fits(lo.1, hi.1, f.offsetY, f.scaleY) && Fits(lo.2, hi.2, f.offsetZ, f.scaleZ)
    requires lo.0 <= x <= hi.0 && lo.1 <= y <= hi.1 && lo.2 <= z <= hi.2
    ensures forall p: RawPoint :: p.x == n.0 && p.y == n.1 && p.z == n.2 ==>
              StoredFrom(f, p, x, y, z) && Abs(WorldX(f, p) - x) <= f.scaleX / 2.0 &&
              Abs(WorldY(f, p) - y) <= f.scaleY / 2.0 && Abs(WorldZ(f, p) - z) <= f.scaleZ / 2.0
  {
    FittedIsRepresentable(lo.0, hi.0, f.offsetX, f.scaleX, x);
    FittedIsRepresentable(lo.1, hi.1, f.offsetY, f.scaleY, y);
    FittedIsRepresentable(lo.2, hi.2, f.offsetZ, f.scaleZ, z);
    n := (Round((x - f.offsetX) / f.scaleX), Round((y - f.offsetY) / f.scaleY), Round((z - f.offsetZ) / f.scaleZ));
    forall p: RawPoint | p.x == n.0 && p.y == n.1 && p.z == n.2
      ensures StoredFrom(f, p, x, y, z) && Abs(WorldX(f, p) - x) <= f.scaleX / 2.0
      ensures Abs(WorldY(f, p) - y) <= f.scaleY / 2.0 && Abs(WorldZ(f, p) - z) <= f.scaleZ / 2.0
    {
      ClassifiedWhereItWas(f, p, x, y, z);
    }
  }

  lemma QuotientMonotone(a: real, b: real, s: Scale)
    requires a <= b
    ensures a / s <= b / s
  {
    QuotientAtMost(a, s, b / s);
    assert (b / s) * s == b;
  }

  /** The fitted pair: what already fits is kept; otherwise the offset is the midpoint and the
      scale is the original times the least power of two that fits. */
  ghost predicate Fitted(min: real, max: real, offset: real, scale: Scale, o: real, s: Scale) {
    if Fits(min, max, offset, scale) then o == offset && s == scale
    else
      o == Midpoint(min, max) &&
      exists k: nat :: s == Scaled(scale, k) && Fits(min, max, o, s) &&
                       forall j: nat :: j < k ==> !Fits(min, max, o, Scaled(scale, j))
  }

  /** `fit_offset_scale` for a positive scale and an ordered range. */
  method FitOffsetScale(offset: real, scale: Scale, min: real, max: real) returns (o: real, s: Scale, changed: bool)
    requires min <= max
    ensures Fits(min, max, o, s) && Fitted(min, max, offset, scale, o, s)
    ensures changed <==> !Fits(min, max, offset, scale)
  {
    o, s := offset, scale;
    if !Fits(min, max, o, s) {
      o := 0.5 * (min + max);
    }
    ghost var k: nat := 0;
    ghost var n := DoublingsSuffice(min, max, scale);
    assert Scaled(scale, 0) == scale;
    while !Fits(min, max, o, s)
      invariant s == Scaled(scale, k)
      invariant o == Midpoint(min, max) || (o == offset && k == 0 && Fits(min, max, offset, scale))
      invariant Fits(min, max, offset, scale) ==> o == offset && s == scale
      invariant forall j: nat :: j < k ==> !Fits(min, max, o, Scaled(scale, j))
      decreases n - k
    {
      ScaledNext(scale, k);
      s := s * 2.0;
      k := k + 1;
    }
    changed := o != offset || s != scale;
    if !Fits(min, max, offset, scale) && o == offset {
      assert k != 0;
      ScaledGrows(scale, k);
    }
  }

  lemma ScaledGrows(s: Scale, k: nat)
    requires k > 0
    ensures Scaled(s, k) != s
  {
    assert Pow2(k) as real >= 2.0;
    assert s * (Pow2(k) as real - 1.0) > 0.0;
  }
}
