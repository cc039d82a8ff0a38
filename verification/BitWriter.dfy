/** The bit writer (include/gsml3parser/bitwriter.h): every path overwrites a run of the buffer's bits. */
module BitWriting {
  import opened Frames
  import opened Arithmetic
  import opened Bits

  /** `s` with `t` written over it from position `at`. */
  function Overwrite(s: seq<Bit>, at: nat, t: seq<Bit>): (r: seq<Bit>)
    requires at + |t| <= |s|
    ensures |r| == |s|
  {
    s[..at] + t + s[at + |t|..]
  }

  lemma OverwriteNothing(s: seq<Bit>, at: nat)
    requires at <= |s|
    ensures Overwrite(s, at, []) == s
  {
  }

  lemma OverwriteMore(s: seq<Bit>, at: nat, t: seq<Bit>, u: seq<Bit>)
    requires at + |t| + |u| <= |s|
    ensures Overwrite(Overwrite(s, at, t), at + |t|, u) == Overwrite(s, at, t + u)
  {
  }

  lemma UpdateIsOverwrite(s: seq<Bit>, at: nat, v: Bit)
    requires at < |s|
    ensures s[at := v] == Overwrite(s, at, [v])
  {
  }

  // ----- One bit of a number -----

  /** Setting a bit with OR, clearing it with AND NOT. */
  function Put(x: nat, k: nat, v: Bit): int {
    if v == 1 then (if BitAt(x, k) == 1 then x else x + Pow2(k))
    else (if BitAt(x, k) == 1 then x - Pow2(k) else x)
  }

  lemma HalfOfPut(x: nat, k: nat, v: Bit)
    requires k >= 1
    ensures Put(x, k, v) == 2 * Put(x / 2, k - 1, v) + x % 2
  {
    BitOfHalf(x, k - 1);
    assert Pow2(k) == 2 * Pow2(k - 1);
  }

  /** Put changes exactly one bit and stays within the width. */
  lemma {:induction false} PutBits(x: nat, k: nat, v: Bit, m: nat)
    requires k < m && x < Pow2(m)
    ensures 0 <= Put(x, k, v) < Pow2(m)
    ensures forall j :: 0 <= j < m ==> BitAt(Put(x, k, v), j) == if j == k then v else BitAt(x, j)
    decreases k
  {
    var r := Put(x, k, v);
    assert Pow2(m) == 2 * Pow2(m - 1) && Pow2(0) == 1;
    if k == 0 {
      assert r == x / 2 * 2 + v;
    } else {
      PutBits(x / 2, k - 1, v, m - 1);
      HalfOfPut(x, k, v);
      assert r / 2 == Put(x / 2, k - 1, v) && r % 2 == x % 2;
    }
    forall j | 0 <= j < m
      ensures BitAt(r, j) == if j == k then v else BitAt(x, j)
    {
      if j > 0 { BitOfHalf(r, j - 1); BitOfHalf(x, j - 1); }
    }
  }

  /** Storing a changed octet changes one bit of the string. */
  lemma StoreBit(b: Octets, i: nat, v: Bit)
    requires i < 8 * |b|
    ensures 0 <= Put(b[i / 8], 7 - i % 8, v) < 256
    ensures BitsOf(b[i / 8 := Put(b[i / 8], 7 - i % 8, v)]) == BitsOf(b)[i := v]
  {
    hide Put, BitAt;
    Pow2Values();
    PutBits(b[i / 8], 7 - i % 8, v, 8);
    var c := b[i / 8 := Put(b[i / 8], 7 - i % 8, v)];
    forall j | 0 <= j < 8 * |b|
      ensures BitsOf(c)[j] == BitsOf(b)[i := v][j]
    {
      if j / 8 == i / 8 { assert BitOf(c, j) == BitAt(c[i / 8], 7 - j % 8); }
    }
  }

  // ----- Whole octets -----

  lemma BitsOfOctet(b: Octets, k: nat)
    requires k < |b|
    ensures BitsOf(b)[8 * k..8 * k + 8] == FieldBits(b[k], 8)
  {
    hide BitAt;
    forall j | 0 <= j < 8
      ensures BitsOf(b)[8 * k..8 * k + 8][j] == FieldBits(b[k], 8)[j]
    {
      BitInOctet(b, k, j);
    }
  }

  lemma StoreOctet(b: Octets, k: nat, o: Octet)
    requires k < |b|
    ensures BitsOf(b[k := o]) == Overwrite(BitsOf(b), 8 * k, FieldBits(o, 8))
  {
    hide BitAt;
    var c := b[k := o];
    var t := Overwrite(BitsOf(b), 8 * k, FieldBits(o, 8));
    forall j | 0 <= j < 8 * |b|
      ensures BitsOf(c)[j] == t[j]
    {
      if j / 8 == k { BitInOctet(c, k, j % 8); }
    }
  }

  class BitWriter {
    const buf: array<Octet>
    const bits: nat
    var pos: nat

    ghost predicate Valid()
      reads this
    {
      bits <= 8 * buf.Length && pos <= bits
    }

    constructor (b: array<Octet>, nbits: nat)
      requires nbits <= 8 * b.Length
      ensures Valid() && buf == b && bits == nbits && pos == 0
    {
      buf, bits, pos := b, nbits, 0;
    }

    method PutBit(v: Bit)
      requires Valid() && pos < bits
      modifies this, buf
      ensures Valid() && pos == old(pos) + 1
      ensures BitsOf(buf[..]) == Overwrite(old(BitsOf(buf[..])), old(pos), [v])
    {
      hide BitsOf, Put;
      StoreBit(buf[..], pos, v);
      UpdateIsOverwrite(BitsOf(buf[..]), pos, v);
      ghost var was := buf[..];
      var byteIdx := pos / 8;
      buf[byteIdx] := PutOctet(buf[byteIdx], 7 - pos % 8, v);
      assert buf[..] == was[byteIdx := Put(was[byteIdx], 7 - pos % 8, v)];
      pos := pos + 1;
    }

    /** Writes the low `nbits` bits (at most 32), most significant first, as far as the buffer reaches. */
    method WriteField(value: nat, nbits: nat)
      requires Valid()
      modifies this, buf
      ensures var n := Min(nbits, 32); var k := Min(n, bits - old(pos));
        && Valid() && pos == old(pos) + k
        && BitsOf(buf[..]) == Overwrite(old(BitsOf(buf[..])), old(pos), FieldBits(value, n)[..k])
    {
      hide BitsOf, BitAt, Overwrite;
      var n := Min(nbits, 32);
      ghost var was, at, field := BitsOf(buf[..]), pos, FieldBits(value, n);
      OverwriteNothing(was, at);
      assert field[..0] == [];
      var i := n;
      while i > 0 && pos < bits
        invariant 0 <= i <= n && Valid() && pos == at + (n - i)
        invariant BitsOf(buf[..]) == Overwrite(was, at, field[..n - i])
      {
        i := i - 1;
        PutBit(BitAt(value, i));
        OverwriteMore(was, at, field[..n - i - 1], [field[n - i - 1]]);
        assert field[..n - i] == field[..n - i - 1] + [field[n - i - 1]];
      }
    }

    /** Writes octets in bulk when aligned and fitting, bit by bit otherwise: the effect is the same run of bits. */
    method WriteBytes(data: Octets)
      requires Valid()
      modifies this, buf
      ensures var k := Min(8 * |data|, bits - old(pos));
        && Valid() && pos == old(pos) + k
        && BitsOf(buf[..]) == Overwrite(old(BitsOf(buf[..])), old(pos), BitsOf(data)[..k])
    {
      hide BitsOf, Overwrite;
      OverwriteNothing(BitsOf(buf[..]), pos);
      assert BitsOf(data)[..0] == [];
      if data == [] { return; }
      if pos % 8 == 0 && pos + 8 * |data| <= bits {
        CopyIn(data);
        assert BitsOf(data)[..8 * |data|] == BitsOf(data);
        pos := pos + 8 * |data|;
        return;
      }
      ghost var was, at := BitsOf(buf[..]), pos;
      var i := 0;
      while i < |data|
        invariant 0 <= i <= |data| && Valid() && pos == at + Min(8 * i, bits - at)
        invariant BitsOf(buf[..]) == Overwrite(was, at, BitsOf(data)[..Min(8 * i, bits - at)])
      {
        ghost var done := Min(8 * i, bits - at);
        ghost var k := Min(8, bits - pos);
        WriteField(data[i], 8);
        BitsOfOctet(data, i);
        OverwriteMore(was, at, BitsOf(data)[..done], FieldBits(data[i], 8)[..k]);
        NextRun(BitsOf(data), FieldBits(data[i], 8), i, done, k);
        i := i + 1;
      }
    }

    /** The bulk copy. */
    method CopyIn(data: Octets)
      requires Valid() && pos % 8 == 0 && pos + 8 * |data| <= bits
      modifies buf
      ensures BitsOf(buf[..]) == Overwrite(old(BitsOf(buf[..])), pos, BitsOf(data))
    {
      hide BitsOf, Overwrite;
      var start := pos / 8;
      ghost var was := BitsOf(buf[..]);
      OverwriteNothing(was, pos);
      assert BitsOf(data)[..0] == [];
      var i := 0;
      while i < |data|
        invariant 0 <= i <= |data|
        invariant BitsOf(buf[..]) == Overwrite(was, pos, BitsOf(data)[..8 * i])
      {
        StoreOctet(buf[..], start + i, data[i]);
        ghost var before := buf[..];
        buf[start + i] := data[i];
        assert buf[..] == before[start + i := data[i]];
        BitsOfOctet(data, i);
        OverwriteMore(was, pos, BitsOf(data)[..8 * i], FieldBits(data[i], 8));
        assert BitsOf(data)[..8 * i] + BitsOf(data)[8 * i..8 * i + 8] == BitsOf(data)[..8 * (i + 1)];
        i := i + 1;
      }
      assert BitsOf(data)[..8 * |data|] == BitsOf(data);
    }

    /** Pads with zeros up to the next octet boundary. */
    method AlignToOctet()
      requires Valid()
      modifies this, buf
      ensures var k := Min((8 - old(pos) % 8) % 8, bits - old(pos));
        && Valid() && pos == old(pos) + k
        && BitsOf(buf[..]) == Overwrite(old(BitsOf(buf[..])), old(pos), FieldBits(0, (8 - old(pos) % 8) % 8)[..k])
    {
      hide BitsOf, Overwrite;
      var spare := (8 - pos % 8) % 8;
      if spare != 0 {
        WriteField(0, spare);
      } else {
        OverwriteNothing(BitsOf(buf[..]), pos);
        assert FieldBits(0, 0)[..0] == [];
      }
    }
  }

  function PutOctet(o: Octet, k: nat, v: Bit): (r: Octet)
    requires k < 8
    ensures r == Put(o, k, v)
  {
    Pow2Values();
    PutBits(o, k, v, 8);
    Put(o, k, v)
  }

  lemma NextRun(all: seq<Bit>, octet: seq<Bit>, i: nat, done: nat, k: nat)
    requires 8 * i + 8 <= |all| && octet == all[8 * i..8 * i + 8] && k <= 8
    requires if k == 0 then done <= 8 * i else done == 8 * i
    ensures done + k <= |all| && all[..done] + octet[..k] == all[..done + k]
  {
  }
}
