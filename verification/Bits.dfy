/** Octet strings as strings of bits, most significant first, and the numbers that runs of bits denote. */
module Bits {
  import opened Frames
  import opened Arithmetic

  type Bit = x: int | 0 <= x < 2

  /** Bit `k` of a number, the least significant being 0. */
  function BitAt(x: nat, k: nat): Bit { x / Pow2(k) % 2 }

  /** Bit `i` of an octet string; bit 0 is the top bit of the first octet. */
  function BitOf(b: Octets, i: nat): Bit
    requires i < 8 * |b|
  {
    BitAt(b[i / 8], 7 - i % 8)
  }

  function BitsOf(b: Octets): (s: seq<Bit>)
    ensures |s| == 8 * |b| && forall i :: 0 <= i < |s| ==> s[i] == BitOf(b, i)
  {
    seq(8 * |b|, i requires 0 <= i < 8 * |b| => BitOf(b, i))
  }

  /** The number a run of bits denotes. */
  function Number(s: seq<Bit>): nat {
    if s == [] then 0 else 2 * Number(s[..|s| - 1]) + s[|s| - 1]
  }

  lemma {:induction false} NumberBound(s: seq<Bit>)
    ensures Number(s) < Pow2(|s|)
  {
    if s != [] { NumberBound(s[..|s| - 1]); }
  }

  lemma DoubleProduct(a: nat, p: nat)
    ensures 2 * (a * p) == a * (2 * p)
  {
  }

  lemma {:induction false} NumberConcat(s: seq<Bit>, t: seq<Bit>)
    ensures Number(s + t) == Number(s) * Pow2(|t|) + Number(t)
    decreases |t|
  {
    if t == [] {
      assert s + t == s;
    } else {
      var t', x := t[..|t| - 1], t[|t| - 1];
      assert (s + t)[..|s + t| - 1] == s + t';
      NumberConcat(s, t');
      DoubleProduct(Number(s), Pow2(|t'|));
    }
  }

  /** Shifting right and masking isolates a run in the middle. */
  lemma ExtractMiddle(s: seq<Bit>, from: nat, n: nat)
    requires from + n <= |s|
    ensures Number(s) / Pow2(|s| - from - n) % Pow2(n) == Number(s[from..from + n])
  {
    var hi, mid, lo := s[..from], s[from..from + n], s[from + n..];
    assert s == (hi + mid) + lo;
    NumberConcat(hi + mid, lo);
    NumberConcat(hi, mid);
    NumberBound(mid);
    NumberBound(lo);
    MiddleField(Number(s), Number(hi + mid), Number(hi), Number(mid), Number(lo), Pow2(n), Pow2(|lo|));
  }

  // ----- Octets -----

  lemma BitInOctet(b: Octets, k: nat, j: nat)
    requires k < |b| && j < 8
    ensures 8 * k + j < 8 * |b| && BitOf(b, 8 * k + j) == BitAt(b[k], 7 - j)
  {
    assert (8 * k + j) / 8 == k && (8 * k + j) % 8 == j;
  }

  /** The leading `j` bits of an octet. */
  lemma {:induction false} OctetPrefix(b: Octets, k: nat, j: nat)
    requires k < |b| && j <= 8
    ensures Number(BitsOf(b)[8 * k..8 * k + j]) == b[k] / Pow2(8 - j)
  {
    if j == 0 {
      Pow2Values();
    } else {
      var s := BitsOf(b)[8 * k..8 * k + j];
      assert s[..j - 1] == BitsOf(b)[8 * k..8 * k + (j - 1)];
      OctetPrefix(b, k, j - 1);
      BitInOctet(b, k, j - 1);
      HalveQuotient(b[k], 8 - j);
    }
  }

  lemma OctetNumber(b: Octets, k: nat)
    requires k < |b|
    ensures Number(BitsOf(b)[8 * k..8 * k + 8]) == b[k]
  {
    OctetPrefix(b, k, 8);
  }

  // ----- Fields -----

  /** The `n` low bits of a value, most significant first. */
  function FieldBits(value: nat, n: nat): (s: seq<Bit>)
    ensures |s| == n && forall j :: 0 <= j < n ==> s[j] == BitAt(value, n - 1 - j)
  {
    seq(n, j requires 0 <= j < n => BitAt(value, n - 1 - j))
  }

  lemma BitOfHalf(x: nat, k: nat)
    ensures BitAt(x / 2, k) == BitAt(x, k + 1)
  {
    Shift(x, k);
  }

  lemma {:induction false} Shift(x: nat, k: nat)
    ensures x / 2 / Pow2(k) == x / Pow2(k + 1)
  {
    if k == 0 {
      assert Pow2(1) == 2;
    } else {
      Shift(x, k - 1);
      HalveQuotient(x / 2, k - 1);
      HalveQuotient(x, k);
    }
  }

  /** A field denotes its value modulo 2^n. */
  lemma {:induction false} FieldNumber(value: nat, n: nat)
    ensures Number(FieldBits(value, n)) == value % Pow2(n)
  {
    if n > 0 {
      var s := FieldBits(value, n);
      var init := FieldBits(value / 2, n - 1);
      forall j | 0 <= j < n - 1 ensures s[j] == init[j] { BitOfHalf(value, n - 2 - j); }
      assert s[..n - 1] == init;
      FieldNumber(value / 2, n - 1);
      assert s[n - 1] == BitAt(value, 0) == value % 2 by { Pow2Values(); }
      DoubleMod(value, Pow2(n - 1));
    }
  }
}
