/** Powers of two and three-dimensional grid indices, shared by every module that
    talks about octree levels. */
module Arith {

  function Pow2(n: nat): (r: nat)
    ensures r > 0
  {
    if n == 0 then 1 else 2 * Pow2(n - 1)
  }

  lemma {:induction false} Pow2Add(a: nat, b: nat)
    ensures Pow2(a + b) == Pow2(a) * Pow2(b)
  {
    if b > 0 {
      Pow2Add(a, b - 1);
      TwiceProduct(Pow2(a), Pow2(b - 1));
      assert Pow2(a + b) == 2 * Pow2(a + (b - 1));
    }
  }

  lemma TwiceProduct(x: nat, y: nat)
    ensures x * (2 * y) == 2 * (x * y)
  {
  }

  lemma {:induction false} Pow2Monotone(a: nat, b: nat)
    requires a <= b
    ensures Pow2(a) <= Pow2(b)
  {
    if a < b {
      Pow2Monotone(a, b - 1);
    }
  }

  lemma {:induction false} Pow2Exceeds(n: nat)
    ensures Pow2(n) > n
  {
    if n > 0 {
      Pow2Exceeds(n - 1);
    }
  }

  /** 8^n, the number of descendants `n` levels below an octree cell. */
  function Pow8(n: nat): nat {
    Pow2(n) * Pow2(n) * Pow2(n)
  }

  lemma Pow8Step(n: nat)
    ensures Pow8(n + 1) == 8 * Pow8(n)
  {
    var a := Pow2(n);
    assert Pow2(n + 1) == 2 * a;
    assert (2 * a) * (2 * a) == 4 * (a * a);
    assert (4 * (a * a)) * (2 * a) == 8 * (a * a * a);
  }

  lemma MulLe(a: nat, b: nat, c: nat)
    requires a <= b
    ensures a * c <= b * c
  {
  }

  lemma MulLess(a: nat, b: nat, c: nat)
    requires a * c < b * c
    ensures a < b
  {
    if b <= a {
      MulLe(b, a, c);
    }
  }

  lemma {:induction false} MulAtLeast(d: int, s: int)
    requires s >= 0
    ensures d >= 1 ==> d * s >= s
    ensures d <= -1 ==> d * s <= -s
  {
    if d >= 1 {
      assert (d - 1) * s >= 0;
    } else if d <= -1 {
      assert (-d - 1) * s >= 0;
    }
  }

  /** `(a * s + r) / s == a` for a remainder in range: digits of a mixed-radix number. */
  lemma DivModUnique(a: int, s: int, r: int)
    requires 0 <= r < s
    ensures (a * s + r) / s == a
    ensures (a * s + r) % s == r
  {
    var n := a * s + r;
    QuotientUnique(n, s, a, r, n / s, n % s);
  }

  lemma QuotientUnique(n: int, s: int, a: int, r: int, q: int, m: int)
    requires 0 <= r < s && 0 <= m < s
    requires n == a * s + r && n == q * s + m
    ensures a == q && r == m
  {
    assert (q - a) * s == r - m by { assert (q - a) * s == q * s - a * s; }
    MulAtLeast(q - a, s);
  }

  lemma DivNonNegative(a: nat, s: nat)
    requires s > 0
    ensures a / s >= 0
  {
    var q, m := a / s, a % s;
    assert a == q * s + m;
    MulAtLeast(q, s);
  }

  /** `a >> n` for a non-negative integer. */
  function Shr(a: nat, n: nat): nat {
    DivNonNegative(a, Pow2(n));
    a / Pow2(n)
  }

  lemma ShrStep(a: nat, n: nat)
    ensures Shr(a, n + 1) == Shr(a / 2, n)
  {
    DivDiv(a, 2, Pow2(n));
  }

  lemma DivDiv(a: nat, b: nat, c: nat)
    requires b > 0 && c > 0
    ensures b * c > 0 && a / b / c == a / (b * c)
  {
    MulAtLeast(b, c);
    var q, r := a / b, a % b;
    var q2, r2 := q / c, q % c;
    DivDivSplit(a, b, c, q, r, q2, r2);
    QuotientUnique(a, b * c, a / (b * c), a % (b * c), q2, r2 * b + r);
  }

  lemma DivDivSplit(a: nat, b: nat, c: nat, q: nat, r: nat, q2: nat, r2: nat)
    requires a == q * b + r && q == q2 * c + r2 && r < b && r2 < c
    ensures a == q2 * (b * c) + (r2 * b + r)
    ensures 0 <= r2 * b + r < b * c
  {
    assert q * b == q2 * c * b + r2 * b;
    assert q2 * c * b == q2 * (b * c);
    assert r2 * b + b <= c * b by {
      MulLe(r2 + 1, c, b);
      assert (r2 + 1) * b == r2 * b + b;
    }
    assert r2 * b >= 0;
  }

  /** Row-major cell index `x + y*s + z*s*s` of an `s`-cubed grid. */
  function Flat(x: nat, y: nat, z: nat, s: nat): nat {
    x + y * s + z * s * s
  }

  lemma FlatInRange(x: nat, y: nat, z: nat, s: nat)
    requires x < s && y < s && z < s
    ensures Flat(x, y, z, s) < s * s * s
  {
    RowInRange(x, y, s, s);
    RowInRange(x + y * s, z, s * s, s);
    ProductRegroup(z, s);
    ProductRegroup(s, s);
  }

  /** Position `x` of row `y`, in rows of length `s`, comes before row `n`. */
  lemma RowInRange(x: nat, y: nat, s: nat, n: nat)
    requires x < s && y < n
    ensures x + y * s < n * s
  {
    MulLe(y + 1, n, s);
    assert (y + 1) * s == y * s + s;
  }

  lemma ProductRegroup(z: nat, s: nat)
    ensures z * s * s == z * (s * s)
  {
  }

  lemma FlatInjective(x: nat, y: nat, z: nat, x': nat, y': nat, z': nat, s: nat)
    requires x < s && y < s && z < s && x' < s && y' < s && z' < s
    requires Flat(x, y, z, s) == Flat(x', y', z', s)
    ensures x == x' && y == y' && z == z'
  {
    assert Flat(x, y, z, s) == (y + z * s) * s + x by { assert (y + z * s) * s == y * s + z * s * s; }
    assert Flat(x', y', z', s) == (y' + z' * s) * s + x' by { assert (y' + z' * s) * s == y' * s + z' * s * s; }
    DivModUnique(y + z * s, s, x);
    DivModUnique(y' + z' * s, s, x');
    DivModUnique(z, s, y);
    DivModUnique(z', s, y');
  }

  /** Digits of a row-major index in base `s`. */
  function DigitX(j: nat, s: nat): nat
    requires s > 0
  {
    j % s
  }

  function DigitY(j: nat, s: nat): nat
    requires s > 0
  {
    DivNonNegative(j, s);
    (j / s) % s
  }

  function DigitZ(j: nat, s: nat): nat
    requires s > 0
  {
    DivNonNegative(j, s);
    DivNonNegative(j / s, s);
    j / s / s
  }

  lemma FlatDigits(x: nat, y: nat, z: nat, s: nat)
    requires x < s && y < s && z < s
    ensures var j := Flat(x, y, z, s); DigitX(j, s) == x && DigitY(j, s) == y && DigitZ(j, s) == z
  {
    FlatByRows(x, y, z, s);
    DigitsByRows(Flat(x, y, z, s), z * s + y, x, y, z, s);
  }

  lemma FlatByRows(x: nat, y: nat, z: nat, s: nat)
    ensures Flat(x, y, z, s) == (z * s + y) * s + x
  {
    assert (z * s + y) * s == z * s * s + y * s;
  }

  lemma DigitsByRows(j: nat, row: nat, x: nat, y: nat, z: nat, s: nat)
    requires x < s && y < s && j == row * s + x && row == z * s + y
    ensures DigitX(j, s) == x && DigitY(j, s) == y && DigitZ(j, s) == z
  {
    DivModUnique(row, s, x);
    DivModUnique(z, s, y);
  }

  lemma DigitsFlat(j: nat, s: nat)
    requires s > 0 && j < s * s * s
    ensures DigitX(j, s) < s && DigitY(j, s) < s && DigitZ(j, s) < s
    ensures Flat(DigitX(j, s), DigitY(j, s), DigitZ(j, s), s) == j
  {
    var q, z := j / s, DigitZ(j, s);
    assert q == z * s + DigitY(j, s);
    assert j == q * s + DigitX(j, s);
    assert q * s == z * s * s + DigitY(j, s) * s;
    assert z * s * s == z * (s * s);
    assert s * s * s == s * (s * s);
    assert DigitY(j, s) * s >= 0;
    MulLess(z, s, s * s);
  }

  /** Round to nearest, halves away from zero, as `f64::round`. */
  function Round(x: real): int {
    if x >= 0.0 then (x + 0.5).Floor else -((-x + 0.5).Floor)
  }
}
