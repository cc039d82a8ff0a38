/** Writing any list of fields, octet runs and alignments and reading it back with the same widths. */
module BitRoundTrip {
  import opened Frames
  import opened Arithmetic
  import opened Bits
  import opened BitReading
  import W = BitWriting

  datatype Item = Field(value: nat, width: nat) | Run(octets: Octets) | Pad

  datatype Got = GotField(value: nat) | GotRun(octets: Octets) | GotPad

  /** The bits an item puts on the string at position `pos`. */
  function ItemBits(it: Item, pos: nat): seq<Bit> {
    match it
    case Field(v, n) => FieldBits(v, n)
    case Run(o) => BitsOf(o)
    case Pad => FieldBits(0, (8 - pos % 8) % 8)
  }

  function AllBits(items: seq<Item>, pos: nat): seq<Bit> {
    if items == [] then []
    else var t := ItemBits(items[0], pos); t + AllBits(items[1..], pos + |t|)
  }

  predicate Fields32(items: seq<Item>) { forall i :: 0 <= i < |items| && items[i].Field? ==> items[i].width <= 32 }

  /** What reading back should give: a value reduced to its width, a run unchanged. */
  function ExpectedOne(it: Item): Got {
    match it
    case Field(v, n) => GotField(v % Pow2(n))
    case Run(o) => GotRun(o)
    case Pad => GotPad
  }

  function Expected(items: seq<Item>): seq<Got> {
    if items == [] then [] else [ExpectedOne(items[0])] + Expected(items[1..])
  }

  /** The item's bits stand at `pos`. */
  predicate Stands(s: seq<Bit>, pos: nat, t: seq<Bit>) { pos + |t| <= |s| && s[pos..pos + |t|] == t }

  lemma StandsConcat(s: seq<Bit>, pos: nat, t: seq<Bit>, u: seq<Bit>)
    requires Stands(s, pos, t + u)
    ensures Stands(s, pos, t) && Stands(s, pos + |t|, u)
  {
    assert s[pos..pos + |t|] == s[pos..pos + |t + u|][..|t|];
    assert s[pos + |t|..pos + |t| + |u|] == s[pos..pos + |t + u|][|t|..];
  }

  /** A run of octets read at any bit position where its bits stand. */
  lemma RunStands(b: Octets, pos: nat, o: Octets)
    requires Stands(BitsOf(b), pos, BitsOf(o))
    ensures pos + 8 * |o| <= 8 * |b| && OctetsAt(b, pos, |o|) == o
  {
    hide BitAt, BitsOf, BitOf;
    forall i | 0 <= i < |o|
      ensures OctetsAt(b, pos, |o|)[i] == o[i]
    {
      OctetsAtIndex(b, pos, |o|, i);
      OctetNumber(o, i);
      assert BitsOf(b)[pos + 8 * i..pos + 8 * i + 8] == BitsOf(b)[pos..pos + 8 * |o|][8 * i..8 * i + 8];
    }
  }

  method WriteItem(w: W.BitWriter, it: Item)
    requires w.Valid() && w.pos + |ItemBits(it, w.pos)| <= w.bits && (it.Field? ==> it.width <= 32)
    modifies w, w.buf
    ensures var t := ItemBits(it, old(w.pos));
      && w.Valid() && w.pos == old(w.pos) + |t|
      && BitsOf(w.buf[..]) == W.Overwrite(old(BitsOf(w.buf[..])), old(w.pos), t)
  {
    hide W.Overwrite, BitAt;
    ghost var t := ItemBits(it, w.pos);
    assert t[..|t|] == t;
    match it {
      case Field(v, n) => w.WriteField(v, n);
      case Run(o) => w.WriteBytes(o);
      case Pad => w.AlignToOctet();
    }
  }

  /** Writing overwrites exactly the items' bits; every other bit keeps its value. */
  method WriteAll(w: W.BitWriter, items: seq<Item>)
    requires w.Valid() && Fields32(items) && w.pos + |AllBits(items, w.pos)| <= w.bits
    modifies w, w.buf
    ensures var t := AllBits(items, old(w.pos));
      && w.Valid() && w.pos == old(w.pos) + |t|
      && BitsOf(w.buf[..]) == W.Overwrite(old(BitsOf(w.buf[..])), old(w.pos), t)
    decreases |items|
  {
    hide W.Overwrite, BitAt, BitsOf;
    if items == [] {
      W.OverwriteNothing(BitsOf(w.buf[..]), w.pos);
    } else {
      ghost var was, at := BitsOf(w.buf[..]), w.pos;
      ghost var t := ItemBits(items[0], at);
      WriteItem(w, items[0]);
      WriteAll(w, items[1..]);
      W.OverwriteMore(was, at, t, AllBits(items[1..], at + |t|));
    }
  }

  /** One item is read where its bits stand. */
  method ReadItem(r: BitReader, it: Item) returns (got: Got)
    requires r.Valid() && r.buf.Some? && (it.Field? ==> it.width <= 32)
    requires r.pos + |ItemBits(it, r.pos)| <= r.totalBits && Stands(BitsOf(r.buf.value), r.pos, ItemBits(it, r.pos))
    modifies r
    ensures r.Valid() && r.pos == old(r.pos) + |ItemBits(it, old(r.pos))|
    ensures got == ExpectedOne(it)
  {
    hide BitAt, BitsOf, Pow2, OctetsFor;
    match it {
      case Field(v, n) =>
        var value := ReadBack(r, v, n);
        got := GotField(value);
      case Run(o) =>
        var octets := ReadRun(r, o);
        got := GotRun(octets);
      case Pad =>
        NextOctet(r.pos);
        r.AlignToOctet();
        got := GotPad;
    }
  }

  method ReadBack(r: BitReader, v: nat, n: nat) returns (value: nat)
    requires r.Valid() && r.buf.Some? && n <= 32
    requires r.pos + n <= r.totalBits && Stands(BitsOf(r.buf.value), r.pos, FieldBits(v, n))
    modifies r
    ensures r.Valid() && r.pos == old(r.pos) + n && value == v % Pow2(n)
  {
    hide BitAt, BitsOf, Number;
    FieldNumber(v, n);
    assert Pow2(0) == 1;
    var f := r.ReadField(n);
    value := f.value;
  }

  method ReadRun(r: BitReader, o: Octets) returns (octets: Octets)
    requires r.Valid() && r.buf.Some?
    requires r.pos + 8 * |o| <= r.totalBits && Stands(BitsOf(r.buf.value), r.pos, BitsOf(o))
    modifies r
    ensures r.Valid() && r.pos == old(r.pos) + 8 * |o| && octets == o
  {
    hide BitAt, BitsOf, NumberAt, OctetsAt;
    RunStands(r.buf.value, r.pos, o);
    var out := new Octet[|o|];
    var ok := r.ReadBytes(out, |o|);
    assert out[..|o|] == out[..];
    octets := out[..];
  }

  method ReadAll(r: BitReader, items: seq<Item>) returns (got: seq<Got>)
    requires r.Valid() && r.buf.Some? && Fields32(items)
    requires r.pos + |AllBits(items, r.pos)| <= r.totalBits && Stands(BitsOf(r.buf.value), r.pos, AllBits(items, r.pos))
    modifies r
    ensures r.Valid() && r.pos == old(r.pos) + |AllBits(items, old(r.pos))|
    ensures got == Expected(items)
    decreases |items|
  {
    hide BitAt, BitsOf, ItemBits, ExpectedOne, Stands;
    if items == [] {
      got := [];
    } else {
      ghost var t := ItemBits(items[0], r.pos);
      StandsConcat(BitsOf(r.buf.value), r.pos, t, AllBits(items[1..], r.pos + |t|));
      var head := ReadItem(r, items[0]);
      var tail := ReadAll(r, items[1..]);
      got := [head] + tail;
    }
  }

  /** The round trip, for every list of items that fits the buffer. */
  method RoundTrip(items: seq<Item>, buf: array<Octet>, nbits: nat) returns (got: seq<Got>)
    requires nbits <= 8 * buf.Length && Fields32(items) && |AllBits(items, 0)| <= nbits
    modifies buf
    ensures got == Expected(items)
  {
    hide BitAt, BitsOf;
    var w := new W.BitWriter(buf, nbits);
    WriteAll(w, items);
    var r := new BitReader(Some(buf[..]), nbits);
    assert Stands(BitsOf(buf[..]), 0, AllBits(items, 0));
    got := ReadAll(r, items);
  }
}
