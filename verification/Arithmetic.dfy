/** Division by powers of two. */
module Arithmetic {

  function Min(a: nat, b: nat): nat { if a < b then a else b }

  function Pow2(n: nat): (p: nat)
    ensures p >= 1
  {
    if n == 0 then 1 else 2 * Pow2(n - 1)
  }

  lemma {:induction false} Pow2Add(m: nat, n: nat)
    ensures Pow2(m + n) == Pow2(m) * Pow2(n)
    decreases m
  {
    if m > 0 {
      Pow2Add(m - 1, n);
      assert Pow2(m + n) == 2 * Pow2(m - 1 + n);
    }
  }

  lemma Pow2Values()
    ensures Pow2(0) == 1 && Pow2(1) == 2 && Pow2(2) == 4 && Pow2(3) == 8 && Pow2(4) == 16
    ensures Pow2(5) == 32 && Pow2(6) == 64 && Pow2(7) == 128 && Pow2(8) == 256
  {
  }

  lemma Pow2Word()
    ensures Pow2(16) == 0x1_0000 && Pow2(32) == 0x1_0000_0000
  {
    Pow2Values();
    Pow2Add(8, 8);
    Pow2Add(16, 16);
  }

  lemma {:induction false} Pow2Monotone(m: nat, n: nat)
    requires m <= n
    ensures Pow2(m) <= Pow2(n)
    decreases n
  {
    if m < n { Pow2Monotone(m, n - 1); }
  }

  lemma MulMonotone(x: nat, y: nat, a: nat)
    requires x <= y
    ensures x * a <= y * a
  {
  }

  lemma MulAtLeast(k: int, d: int)
    requires k >= 1 && d >= 1
    ensures k * d >= d
  {
    assert (k - 1) * d >= 0;
  }

  /** Quotient and remainder are determined by their defining equation. */
  lemma DivModUnique(a: int, d: int, q: int, r: int)
    requires d >= 1 && 0 <= r < d && a == q * d + r
    ensures a / d == q && a % d == r
  {
    var k := a / d - q;
    assert k * d == (a / d) * d - q * d;
    assert -d < k * d < d;
    if k >= 1 { MulAtLeast(k, d); }
    if k <= -1 { MulAtLeast(-k, d); }
  }

  /** v is hi ++ mid ++ lo: shifting out lo and masking off hi leaves mid. */
  lemma MiddleField(v: nat, x: nat, hi: nat, mid: nat, lo: nat, m: nat, c: nat)
    requires mid < m && lo < c && v == x * c + lo && x == hi * m + mid
    ensures v / c % m == mid
  {
    DivModUnique(v, c, x, lo);
    DivModUnique(x, m, hi, mid);
  }

  lemma SplitProduct(q: int, h: int, b: int, d: int)
    requires q == 2 * h + b
    ensures q * d == h * (2 * d) + b * d
  {
    assert (2 * h + b) * d == 2 * h * d + b * d;
  }

  lemma Halve(x: nat, d: nat)
    requires d >= 1
    ensures x / (2 * d) == x / d / 2
  {
    var q, r := x / d, x % d;
    var h, b := q / 2, q % 2;
    assert x == q * d + r;
    SplitProduct(q, h, b, d);
    assert b == 0 || b == 1;
    assert b * d == if b == 0 then 0 else d;
    DivModUnique(x, 2 * d, h, b * d + r);
  }

  /** Halving a quotient by 2^m is dividing by 2^(m+1). */
  lemma HalveQuotient(x: nat, m: nat)
    ensures x / Pow2(m + 1) == x / Pow2(m) / 2
    ensures x / Pow2(m) == 2 * (x / Pow2(m + 1)) + x / Pow2(m) % 2
  {
    Halve(x, Pow2(m));
    assert Pow2(m + 1) == 2 * Pow2(m);
  }

  /** Doubling dividend and divisor, with one more low bit. */
  lemma DoubleMod(v: nat, d: nat)
    requires d >= 1
    ensures v % (2 * d) == 2 * (v / 2 % d) + v % 2
  {
    var q, r, b := v / 2 / d, v / 2 % d, v % 2;
    assert v / 2 == q * d + r;
    assert 2 * (q * d) == q * (2 * d) by { SplitProduct(2 * q, q, 0, d); }
    DivModUnique(v, 2 * d, q, 2 * r + b);
  }
}
