/** The bit reader (include/gsml3parser/bitreader.h): four load strategies over one string of bits. */
module BitReading {
  import opened Frames
  import opened Arithmetic
  import opened Bits

  const WORD: nat := 0x1_0000_0000

  datatype ReadError = TruncatedInput | InvalidValue
  datatype ReadResult = Value(value: nat) | Failed(error: ReadError)

  /** Octets needed for a whole number of bits. */
  function OctetsFor(bits: nat): nat { (bits + 7) / 8 }

  lemma OctetsForBounds(bits: nat)
    ensures bits <= 8 * OctetsFor(bits) < bits + 8
  {
  }

  lemma NextOctet(pos: nat)
    ensures 8 * OctetsFor(pos) == if pos % 8 == 0 then pos else pos + (8 - pos % 8)
  {
  }

  /** The number at bit position `pos`, `n` bits wide. */
  function NumberAt(b: Octets, pos: nat, n: nat): nat
    requires pos + n <= 8 * |b|
  {
    Number(BitsOf(b)[pos..pos + n])
  }

  lemma NumberAtBound(b: Octets, pos: nat, n: nat)
    requires pos + n <= 8 * |b|
    ensures NumberAt(b, pos, n) < Pow2(n)
  {
    NumberBound(BitsOf(b)[pos..pos + n]);
  }

  lemma NumberAtOctet(b: Octets, k: nat)
    requires k <= |b|
    ensures NumberAt(b, 8 * k, 0) == 0
    ensures k < |b| ==> NumberAt(b, 8 * k, 8) == b[k]
  {
    if k < |b| { OctetNumber(b, k); }
  }

  lemma NumberAtConcat(b: Octets, pos: nat, m: nat, n: nat)
    requires pos + m + n <= 8 * |b|
    ensures NumberAt(b, pos, m + n) == NumberAt(b, pos, m) * Pow2(n) + NumberAt(b, pos + m, n)
  {
    hide BitsOf, Number, Pow2;
    var u, v := BitsOf(b)[pos..pos + m], BitsOf(b)[pos + m..pos + m + n];
    NumberConcat(u, v);
    SlicesMeet(BitsOf(b), pos, m, n);
  }

  lemma SlicesMeet(s: seq<Bit>, pos: nat, m: nat, n: nat)
    requires pos + m + n <= |s|
    ensures s[pos..pos + (m + n)] == s[pos..pos + m] + s[pos + m..pos + m + n] && |s[pos + m..pos + m + n]| == n
  {
  }

  /** A field inside `a` loaded octets: shift right, then mask. */
  lemma FieldInOctets(b: Octets, k: nat, a: nat, off: nat, n: nat)
    requires k + a <= |b| && off + n <= 8 * a
    ensures NumberAt(b, 8 * k, 8 * a) / Pow2(8 * a - off - n) % Pow2(n) == NumberAt(b, 8 * k + off, n)
  {
    hide BitsOf, Number, Pow2;
    var s := BitsOf(b)[8 * k..8 * k + 8 * a];
    ExtractMiddle(s, off, n);
    SliceOfSlice(BitsOf(b), 8 * k, 8 * a, off, n);
    assert |s| - off - n == 8 * a - off - n;
  }

  lemma SliceOfSlice(s: seq<Bit>, p: nat, m: nat, off: nat, n: nat)
    requires p + m <= |s| && off + n <= m
    ensures s[p..p + m][off..off + n] == s[p + off..p + off + n]
  {
    var t := s[p..p + m];
    assert forall i :: 0 <= i < m ==> t[i] == s[p + i];
    var u, v := t[off..off + n], s[p + off..p + off + n];
    assert |u| == |v| == n;
    forall i | 0 <= i < n ensures u[i] == v[i] {
      assert u[i] == t[off + i];
    }
  }

  /** Big-endian load of up to `n` octets from `start`, capped by `total`, into a 32-bit word. */
  method LoadN(b: Octets, start: nat, total: nat, n: nat) returns (val: nat, actual: nat)
    requires total <= |b| && n <= 4
    ensures actual == if start < total then Min(n, total - start) else 0
    ensures start + actual <= |b| ==> val == NumberAt(b, 8 * start, 8 * actual)
  {
    hide NumberAt;
    if start <= |b| { NumberAtOctet(b, start); }
    actual := 0;
    val := 0;
    var e := Min(start + n, total);
    var i := start;
    while i < e
      invariant i == start + actual && (i <= e || actual == 0) && actual <= n
      invariant i <= |b| ==> val == NumberAt(b, 8 * start, 8 * actual)
    {
      NumberAtBound(b, 8 * start, 8 * actual);
      NumberAtConcat(b, 8 * start, 8 * actual, 8);
      NumberAtOctet(b, i);
      Pow2Values();
      NoWrap(val, actual, b[i]);
      val := (val * 256 + b[i]) % WORD;
      actual := actual + 1;
      i := i + 1;
    }
  }

  lemma NoWrap(val: nat, actual: nat, o: Octet)
    requires actual <= 3 && val < Pow2(8 * actual)
    ensures (val * 256 + o) % WORD == val * 256 + o
  {
    Pow2Word();
    Pow2Monotone(8 * actual, 24);
    Pow2Add(8, 24);
    Pow2Values();
  }

  /** Octets spanned by `n` bits that start `off` bits into the first octet. */
  function FieldSpan(off: nat, n: nat): nat { if n == 0 then 0 else (off + n - 1) / 8 + 1 }

  class BitReader {
    const buf: Option<Octets>      // None: a null buffer
    const totalBits: nat
    var pos: nat
    var byteIndex: nat
    var bitOffset: nat

    /** The cached octet index and bit offset match the position. */
    ghost predicate Cached()
      reads this
    {
      && byteIndex == pos / 8 && bitOffset == pos % 8
      && (buf.Some? ==> totalBits <= 8 * |buf.value|)
      && (buf.None? ==> pos == 0)
    }

    ghost predicate Valid()
      reads this
    {
      Cached() && pos <= totalBits
    }

    constructor (b: Option<Octets>, nbits: nat)
      requires b.Some? ==> nbits <= 8 * |b.value|
      ensures Valid() && buf == b && totalBits == nbits && pos == 0
    {
      buf, totalBits := b, nbits;
      pos, byteIndex, bitOffset := 0, 0, 0;
    }

    /** The least number of octets that hold what remains. */
    method RemainingBytes() returns (n: nat)
      requires Valid()
      ensures n == OctetsFor(totalBits - pos)
      ensures forall k: nat :: 8 * k >= totalBits - pos <==> k >= n
    {
      return (totalBits - pos + 7) / 8;
    }

    /** The field at the position, through whichever load strategy applies. */
    method Window(nbits: nat) returns (val: nat)
      requires Valid() && buf.Some? && 1 <= nbits <= 32 && pos + nbits <= totalBits
      ensures val == NumberAt(buf.value, pos, nbits)
    {
      var b := buf.value;
      var totalBytes := OctetsFor(totalBits);
      if bitOffset == 0 {
        val := Shifted(b, totalBytes, FieldSpan(0, nbits), nbits);
      } else {
        var need := FieldSpan(bitOffset, nbits);
        var avail := RemainingBytes();
        if avail >= need && need <= 4 {
          val := Shifted(b, totalBytes, need, nbits);
        } else if bitOffset + nbits <= 32 {
          val := Shifted(b, totalBytes, FieldSpan(bitOffset, nbits), nbits);
        } else {
          val := Wide(b, totalBytes, nbits);
        }
      }
    }

    /** A misaligned field spanning five octets: two overlapping loads in a 64-bit window. */
    method Wide(b: Octets, totalBytes: nat, nbits: nat) returns (val: nat)
      requires Valid() && buf == Some(b) && totalBytes == OctetsFor(totalBits)
      requires nbits <= 32 < bitOffset + nbits && pos + nbits <= totalBits
      ensures val == NumberAt(b, pos, nbits)
    {
      hide NumberAt, Pow2;
      var lo, _ := LoadN(b, byteIndex, totalBytes, 4);
      var hi, _ := LoadN(b, byteIndex + 4, totalBytes, 1);
      NumberAtConcat(b, 8 * byteIndex, 32, 8);
      Pow2Values();
      var window := lo * 256 + hi;
      FieldInOctets(b, byteIndex, 5, bitOffset, nbits);
      val := window / Pow2(40 - bitOffset - nbits) % Pow2(nbits);
    }

    /** Loads the octets spanned by the field, shifts the field to the bottom and masks it. */
    method Shifted(b: Octets, totalBytes: nat, toLoad: nat, nbits: nat) returns (val: nat)
      requires Valid() && buf == Some(b) && totalBytes == OctetsFor(totalBits)
      requires 1 <= nbits <= 32 && pos + nbits <= totalBits
      requires toLoad == FieldSpan(bitOffset, nbits) && toLoad <= 4
      ensures val == NumberAt(b, pos, nbits)
    {
      var loaded, actual := LoadN(b, byteIndex, totalBytes, toLoad);
      assert actual == toLoad;
      FieldInOctets(b, byteIndex, actual, bitOffset, nbits);
      val := loaded / Pow2(actual * 8 - bitOffset - nbits) % Pow2(nbits);
    }

    /** Whether the reader holds `n` more bits that one field can take. */
    ghost predicate Readable(n: nat)
      reads this
    {
      n == 0 || (buf.Some? && n <= 32 && pos + n <= totalBits)
    }

    /** Succeeds exactly when the field fits a word and the remaining bits; a failure leaves the reader alone. */
    method ReadField(nbits: nat) returns (r: ReadResult)
      requires Valid()
      modifies this
      ensures Valid()
      ensures r.Value? <==> old(Readable(nbits))
      ensures r.Value? && nbits > 0 ==> r.value == NumberAt(buf.value, old(pos), nbits) && pos == old(pos) + nbits
      ensures nbits == 0 ==> r == Value(0)
      ensures r.Failed? ==> r.error == if buf.Some? && nbits > 32 then InvalidValue else TruncatedInput
      ensures r.Failed? || nbits == 0 ==> pos == old(pos)
    {
      if nbits == 0 { return Value(0); }
      if buf.None? { return Failed(TruncatedInput); }
      if nbits > 32 { return Failed(InvalidValue); }
      if pos + nbits > totalBits { return Failed(TruncatedInput); }
      var val := Window(nbits);
      pos := pos + nbits;
      byteIndex := pos / 8;
      bitOffset := pos % 8;
      return Value(val);
    }

    /** The next bits without moving; past the end, the remaining bits shifted left by the shortfall. */
    method PeekField(nbits: nat) returns (val: nat)
      requires Valid()
      ensures var n := Min(nbits, 32); var got := Min(n, totalBits - pos);
        val == if buf.None? then 0 else NumberAt(buf.value, pos, got) * Pow2(n - got)
      ensures val < Pow2(Min(nbits, 32))
    {
      var n := Min(nbits, 32);
      var got := Min(n, totalBits - pos);
      if buf.None? || got == 0 {
        val := 0;
        return;
      }
      val := Window(got);
      NumberAtBound(buf.value, pos, got);
      ShiftFits(val, got, n);
      val := val * Pow2(n - got) % WORD;
    }

    method AlignToOctet()
      requires Valid()
      modifies this
      ensures Valid() && pos == Min(8 * OctetsFor(old(pos)), totalBits)
    {
      hide OctetsFor;
      NextOctet(pos);
      if pos % 8 != 0 {
        pos := pos + (8 - pos % 8);
        if pos > totalBits { pos := totalBits; }
      }
      byteIndex := pos / 8;
      bitOffset := pos % 8;
    }

    /** Whether `count` octets can be copied from here; only the aligned copy may reach into a partial last octet. */
    ghost predicate BytesReadable(count: nat)
      reads this
    {
      count == 0 ||
      (buf.Some? && if pos % 8 == 0 then pos / 8 + count <= OctetsFor(totalBits) else pos + 8 * count <= totalBits)
    }

    /** The misaligned run: up to three octets at a time from one load, single fields near the end. */
    method ReadMisaligned(out: array<Octet>, count: nat) returns (ok: bool)
      requires Valid() && buf.Some? && bitOffset > 0 && 0 < count <= out.Length
      modifies this, out
      ensures Valid() && (ok <==> old(pos) + 8 * count <= totalBits)
      ensures ok ==> pos == old(pos) + 8 * count && out[..count] == OctetsAt(buf.value, old(pos), count)
      ensures out[count..] == old(out[count..])
    {
      hide NumberAt;
      var written := 0;
      ghost var p := pos;
      while written < count
        invariant 0 <= written <= count && Valid() && pos == p + 8 * written && bitOffset > 0
        invariant out[..written] == OctetsAt(buf.value, p, written)
        invariant out[count..] == old(out[count..])
      {
        var took := TakeSome(out, written, count);
        if took == 0 { return false; }
        OctetsAtConcat(buf.value, p, written, took);
        assert out[..written + took] == out[..written] + out[written..written + took];
        written := written + took;
      }
      return true;
    }

    /** One round of the misaligned loop; 0 when fewer than eight bits remain. */
    method TakeSome(out: array<Octet>, written: nat, count: nat) returns (took: nat)
      requires Valid() && buf.Some? && bitOffset > 0 && written < count <= out.Length
      modifies this, out
      ensures Valid() && bitOffset == old(bitOffset) && took <= count - written && pos == old(pos) + 8 * took
      ensures took == 0 <==> old(pos) + 8 > totalBits
      ensures out[written..written + took] == OctetsAt(buf.value, old(pos), took)
      ensures out[..written] == old(out[..written]) && out[count..] == old(out[count..])
    {
      hide NumberAt, OctetsAt;
      took := Min(count - written, 3);
      var need := FieldSpan(bitOffset, took * 8);
      var avail := RemainingBytes();
      if avail >= need && need <= 4 {
        SpanIsOneMore(bitOffset, took);
        TakeLoaded(buf.value, byteIndex, bitOffset, OctetsFor(totalBits), out, written, took);
        assert out[count..] == out[written + took..][count - written - took..];
        pos := pos + took * 8;
        byteIndex := pos / 8;
      } else {
        took := TakeOne(out, written);
        assert out[count..] == out[written + 1..][count - written - 1..];
      }
    }

    /** One octet through an ordinary field read. */
    method TakeOne(out: array<Octet>, written: nat) returns (took: nat)
      requires Valid() && buf.Some? && written < out.Length
      modifies this, out
      ensures Valid() && took <= 1 && pos == old(pos) + 8 * took && bitOffset == old(bitOffset)
      ensures took == 0 <==> old(pos) + 8 > totalBits
      ensures out[written..written + took] == OctetsAt(buf.value, old(pos), took)
      ensures out[..written] == old(out[..written]) && out[written + 1..] == old(out[written + 1..])
    {
      hide NumberAt;
      var r := ReadField(8);
      if r.Failed? { return 0; }
      out[written] := OctetOf(r.value);
      assert out[written..written + 1] == [FieldOctet(buf.value, old(pos))];
      return 1;
    }

    /** On success the octets are those that `count` successive 8-bit fields would give, whatever the alignment. */
    method ReadBytes(out: array<Octet>, count: nat) returns (ok: bool)
      requires Valid() && count <= out.Length
      modifies this, out
      ensures Cached() && (ok <==> old(BytesReadable(count)))
      ensures ok ==> pos == old(pos) + 8 * count
      ensures ok && count > 0 ==> pos <= 8 * |buf.value| && out[..count] == OctetsAt(buf.value, old(pos), count)
      ensures out[count..] == old(out[count..])
      ensures !ok || old(pos) + 8 * count <= totalBits ==> Valid()
      ensures buf.Some? && totalBits % 8 == 0 ==> Valid() && (ok <==> old(pos) + 8 * count <= totalBits)
    {
      hide NumberAt, OctetsAt, OctetsFor;
      if pos % 8 == 0 && totalBits % 8 == 0 { WholeOctets(pos, totalBits, count); }
      OctetsForBounds(totalBits);
      if count == 0 { return true; }
      if buf.None? { return false; }
      if pos / 8 + count > OctetsFor(totalBits) { return false; }
      if bitOffset == 0 {
        CopyAligned(buf.value, byteIndex, out, count);
        pos := pos + count * 8;
        byteIndex := byteIndex + count;
        return true;
      }
      ok := ReadMisaligned(out, count);
    }
  }

  /** The octet found at bit position `pos`: what an 8-bit field would give. */
  function FieldOctet(b: Octets, pos: nat): (o: Octet)
    requires pos + 8 <= 8 * |b|
    ensures o == NumberAt(b, pos, 8)
  {
    NumberAtBound(b, pos, 8);
    Pow2Values();
    NumberAt(b, pos, 8)
  }

  /** The octets found at bit position `pos`: what successive 8-bit fields would give. */
  function OctetsAt(b: Octets, pos: nat, count: nat): (s: Octets)
    requires pos + 8 * count <= 8 * |b|
    ensures |s| == count
  {
    if count == 0 then [] else OctetsAt(b, pos, count - 1) + [FieldOctet(b, pos + 8 * (count - 1))]
  }

  function OctetOf(v: int): Octet { v % 256 }

  lemma {:induction false} OctetsAtConcat(b: Octets, pos: nat, m: nat, n: nat)
    requires pos + 8 * (m + n) <= 8 * |b|
    ensures OctetsAt(b, pos, m + n) == OctetsAt(b, pos, m) + OctetsAt(b, pos + 8 * m, n)
    decreases n
  {
    hide NumberAt;
    if n > 0 {
      OctetsAtConcat(b, pos, m, n - 1);
      assert pos + 8 * (m + n - 1) == pos + 8 * m + 8 * (n - 1);
    }
  }

  lemma {:induction false} OctetsAtIndex(b: Octets, pos: nat, count: nat, i: nat)
    requires pos + 8 * count <= 8 * |b| && i < count
    ensures OctetsAt(b, pos, count)[i] == NumberAt(b, pos + 8 * i, 8)
    decreases count
  {
    if i < count - 1 { OctetsAtIndex(b, pos, count - 1, i); }
  }

  /** One octet out of a load of `a` octets. */
  lemma LoadedOctet(b: Octets, k: nat, a: nat, off: nat, i: nat)
    requires k + a <= |b| && off + 8 * i + 8 <= 8 * a
    ensures OctetOf(NumberAt(b, 8 * k, 8 * a) / Pow2(a * 8 - off - (i + 1) * 8)) == FieldOctet(b, 8 * k + off + 8 * i)
  {
    hide NumberAt, Pow2;
    Pow2Values();
    assert a * 8 - off - (i + 1) * 8 == 8 * a - (off + 8 * i) - 8;
    assert 8 * k + (off + 8 * i) == 8 * k + off + 8 * i;
    FieldInOctets(b, k, a, off + 8 * i, 8);
  }

  lemma SpanIsOneMore(off: nat, take: nat)
    requires 0 < off < 8
    ensures take > 0 ==> FieldSpan(off, take * 8) == take + 1
  {
  }

  /** The aligned bulk copy. */
  method CopyAligned(b: Octets, k: nat, out: array<Octet>, count: nat)
    requires k + count <= |b| && count <= out.Length
    modifies out
    ensures out[..count] == OctetsAt(b, 8 * k, count) && out[count..] == old(out[count..])
  {
    hide NumberAt;
    var i := 0;
    while i < count
      invariant 0 <= i <= count
      invariant out[..i] == OctetsAt(b, 8 * k, i) && out[count..] == old(out[count..])
    {
      NumberAtOctet(b, k + i);
      assert 8 * k + 8 * i == 8 * (k + i);
      out[i] := b[k + i];
      assert out[..i + 1] == out[..i] + [out[i]];
      i := i + 1;
    }
  }

  /** Copies `take` octets out of one load that starts `off` bits into octet `k`. */
  method TakeLoaded(b: Octets, k: nat, off: nat, totalBytes: nat, out: array<Octet>, written: nat, take: nat)
    requires 0 < off < 8 && 1 <= take <= 3 && k + take + 1 <= totalBytes <= |b| && written + take <= out.Length
    modifies out
    ensures out[written..written + take] == OctetsAt(b, 8 * k + off, take)
    ensures out[..written] == old(out[..written]) && out[written + take..] == old(out[written + take..])
  {
    hide NumberAt, Pow2;
    var loaded, actual := LoadN(b, k, totalBytes, take + 1);
    var i := 0;
    while i < take
      invariant 0 <= i <= take
      invariant out[written..written + i] == OctetsAt(b, 8 * k + off, i)
      invariant out[..written] == old(out[..written]) && out[written + take..] == old(out[written + take..])
    {
      LoadedOctet(b, k, actual, off, i);
      out[written + i] := OctetOf(loaded / Pow2(actual * 8 - off - (i + 1) * 8));
      assert out[written..written + (i + 1)] == out[written..written + i] + [out[written + i]];
      i := i + 1;
    }
  }

  /** On a reader of whole octets, copying succeeds exactly when the bits remain, and stays inside the total. */
  lemma WholeOctets(pos: nat, total: nat, count: nat)
    requires total % 8 == 0 && pos % 8 == 0
    ensures pos / 8 + count <= OctetsFor(total) <==> pos + 8 * count <= total
  {
  }

  lemma ShiftFits(val: nat, got: nat, n: nat)
    requires got <= n <= 32 && val < Pow2(got)
    ensures val * Pow2(n - got) < Pow2(n) <= WORD
    ensures val * Pow2(n - got) % WORD == val * Pow2(n - got)
  {
    hide Pow2;
    Pow2Add(got, n - got);
    Pow2Monotone(n, 32);
    Pow2Word();
    ScaledBelow(val, Pow2(got), Pow2(n - got));
  }

  lemma ScaledBelow(x: nat, y: nat, p: nat)
    requires x < y && p >= 1
    ensures x * p < y * p
  {
    MulMonotone(x + 1, y, p);
    assert (x + 1) * p == x * p + p;
  }
}
