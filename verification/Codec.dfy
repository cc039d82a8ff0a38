/** The format B octet codec of LAPDm frames (src/lapdm_frame.cpp). */
module Codec {
  import opened Frames

  datatype DecodeError = TruncatedInput | InvalidValue
  datatype Decoded = Ok(frame: Frame) | Err(error: DecodeError)

  // ----- Field codecs -----

  function SapiBits(s: Sapi): int {
    match s
    case Sapi0 => 0
    case Sapi3 => 3
    case Undefined => 16 % 8      // the sentinel value 16 masked to three bits
  }

  function EncodeAddress(a: Address): (b: Octet)
  {
    SapiBits(a.sapi) * 4 + (if a.command then 2 else 0) + (if a.ea then 1 else 0)
  }

  function DecodeAddress(b: Octet): Address {
    var raw := b / 4 % 8;
    Address(if raw == 0 then Sapi0 else if raw == 3 then Sapi3 else Undefined, b / 2 % 2 == 1, b % 2 == 1)
  }

  function STypeBits(t: SType): int {
    match t
    case RR => 0
    case RNR => 1
    case REJ => 2
    case Reserved => 3
  }

  function STypeOf(bits: int): SType
    requires 0 <= bits < 4
  {
    if bits == 0 then RR else if bits == 1 then RNR else if bits == 2 then REJ else Reserved
  }

  /** Rows of the U-format control table in declaration order of the frame types. */
  function UIndex(t: UType): int {
    match t
    case UI => 0
    case SABME => 1
    case DM => 2
    case DISC => 3
    case UA => 4
  }

  const UTABLE: seq<Octet> := [0x03, 0x13, 0x2F, 0x3F, 0x0F, 0x1F, 0x43, 0x53, 0x63, 0x73]

  const UTYPES: seq<UType> := [UI, SABME, DM, DISC, UA]

  function UControl(t: UType, pf: bool): Octet {
    UTABLE[UIndex(t) * 2 + (if pf then 1 else 0)]
  }

  /** Scan of the control table; -1 when the octet matches no canonical U-format octet. */
  method MatchUControl(ctrl: Octet) returns (index: int)
    ensures index == FindU(ctrl)
  {
    var row := 0;
    while row < 5
      invariant 0 <= row <= 5
      invariant forall i :: 0 <= i < 2 * row ==> UTABLE[i] != ctrl
    {
      var col := 0;
      while col < 2
        invariant 0 <= col <= 2
        invariant forall i :: 0 <= i < 2 * row + col ==> UTABLE[i] != ctrl
      {
        if UTABLE[row * 2 + col] == ctrl {
          return row * 2 + col;
        }
        col := col + 1;
      }
      row := row + 1;
    }
    return -1;
  }

  /** Position of a control octet in the table, or -1. */
  function FindU(ctrl: Octet): (i: int)
    ensures -1 <= i < 10
    ensures i >= 0 ==> UTABLE[i] == ctrl
    ensures i == -1 ==> ctrl !in UTABLE
  {
    if ctrl == 0x03 then 0 else if ctrl == 0x13 then 1
    else if ctrl == 0x2F then 2 else if ctrl == 0x3F then 3
    else if ctrl == 0x0F then 4 else if ctrl == 0x1F then 5
    else if ctrl == 0x43 then 6 else if ctrl == 0x53 then 7
    else if ctrl == 0x63 then 8 else if ctrl == 0x73 then 9
    else -1
  }

  // ----- The control octet -----

  datatype Control =
    | IControl(nr: Seq8, ns: Seq8, pf: bool)
    | SControl(nr: Seq8, sType: SType, pf: bool)
    | UControlField(uType: UType, pf: bool)
    | Unknown

  function EncodeControl(c: Control): Octet
    requires c != Unknown
  {
    match c
    case IControl(nr, ns, pf) => nr * 32 + (if pf then 16 else 0) + ns * 2
    case SControl(nr, t, pf) => nr * 32 + (if pf then 16 else 0) + STypeBits(t) * 4 + 1
    case UControlField(t, pf) => UControl(t, pf)
  }

  function DecodeControl(o: Octet): Control {
    if o % 2 == 0 then IControl(o / 32, o / 2 % 8, o / 16 % 2 == 1)
    else if o % 4 == 1 then SControl(o / 32, STypeOf(o / 4 % 4), o / 16 % 2 == 1)
    else
      var u := FindU(o);
      if u < 0 then Unknown else UControlField(UTYPES[u / 2], u % 2 == 1)
  }

  lemma UControlRoundTrip(t: UType, pf: bool)
    ensures var u := FindU(UControl(t, pf)); u >= 0 && UTYPES[u / 2] == t && (u % 2 == 1) == pf
    ensures UControl(t, pf) % 4 == 3
  {
    match t {
      case UI =>
      case SABME =>
      case DM =>
      case DISC =>
      case UA =>
    }
  }

  /** Splitting a control octet at its P/F bit. */
  lemma SplitControl(o: int, nr: Seq8, pf: int, low: int)
    requires 0 <= pf < 2 && 0 <= low < 16 && o == nr * 32 + pf * 16 + low
    ensures o / 32 == nr && o / 16 % 2 == pf
    ensures o % 4 == low % 4 && o % 2 == low % 2 && o / 2 % 8 == low / 2 && o / 4 % 4 == low / 4
  {
    assert o / 16 == nr * 2 + pf;
    assert o / 4 == nr * 8 + pf * 4 + low / 4;
    assert o / 2 == nr * 16 + pf * 8 + low / 2;
  }

  /** The control octet determines its fields and is determined by them. */
  lemma ControlRoundTrip(c: Control)
    requires c != Unknown
    ensures DecodeControl(EncodeControl(c)) == c
  {
    match c {
      case IControl(nr, ns, pf) =>
        SplitControl(EncodeControl(c), nr, if pf then 1 else 0, ns * 2);
      case SControl(nr, t, pf) =>
        var low := STypeBits(t) * 4 + 1;
        SplitControl(EncodeControl(c), nr, if pf then 1 else 0, low);
        assert low % 4 == 1 && low / 4 == STypeBits(t);
        assert STypeOf(STypeBits(t)) == t;
      case UControlField(t, pf) => UControlRoundTrip(t, pf);
    }
  }

  lemma UOctetRoundTrip(o: Octet)
    requires FindU(o) >= 0
    ensures UControl(UTYPES[FindU(o) / 2], FindU(o) % 2 == 1) == o
  {
    var u := FindU(o);
    assert UIndex(UTYPES[u / 2]) == u / 2;
    assert u == 2 * (u / 2) + u % 2;
  }

  /** An I or S control octet is put together again from its fields. */
  lemma NumberedOctetRoundTrip(o: Octet)
    requires o % 2 == 0 || o % 4 == 1
    ensures EncodeControl(DecodeControl(o)) == o
  {
    hide FindU, UControl;
    var nr, pf, low := o / 32, o / 16 % 2, o % 16;
    assert o == nr * 32 + pf * 16 + low;
    SplitControl(o, nr, pf, low);
    if o % 4 == 1 {
      assert STypeBits(STypeOf(low / 4)) == low / 4;
    }
  }

  lemma ControlOctetRoundTrip(o: Octet)
    requires DecodeControl(o) != Unknown
    ensures EncodeControl(DecodeControl(o)) == o
  {
    hide UControl, STypeOf, STypeBits;
    if o % 4 == 3 { UOctetRoundTrip(o); } else { NumberedOctetRoundTrip(o); }
  }

  // ----- Whole frames -----

  function ControlOf(f: Frame): (c: Control)
    ensures c != Unknown
  {
    match f
    case IFrame(_, nr, ns, pf, _, _) => IControl(nr, ns, pf)
    case SFrame(_, nr, t, pf) => SControl(nr, t, pf)
    case UFrame(_, t, pf, _, _) => UControlField(t, pf)
  }

  /** Header octet: six length bits, the M bit, a fixed 1. Longer information wraps in the length field. */
  function HeaderOctet(f: Frame): Octet {
    if f.SFrame? then 1 else (|f.info| % 64) * 4 + (if f.more then 2 else 0) + 1
  }

  function Info(f: Frame): Octets { if f.SFrame? then [] else f.info }

  function Encode(f: Frame): Octets {
    [EncodeAddress(f.address), EncodeControl(ControlOf(f)), HeaderOctet(f)] + Info(f)
  }

  function Decode(b: Octets): Decoded {
    if |b| < 3 then Err(TruncatedInput)
    else if b[0] / 32 != 0 then Err(InvalidValue)
    else if b[0] % 2 == 0 then Err(InvalidValue)
    else if b[2] % 2 == 0 then Err(InvalidValue)
    else if |b| < 3 + b[2] / 4 then Err(TruncatedInput)
    else if |b| > 3 + b[2] / 4 then Err(InvalidValue)
    else Body(DecodeAddress(b[0]), DecodeControl(b[1]), b[2], b[3..])
  }

  function Body(address: Address, control: Control, header: Octet, info: Octets): Decoded {
    var more := header / 2 % 2 == 1;
    match control
    case IControl(nr, ns, pf) => Ok(IFrame(address, nr, ns, pf, more, info))
    case SControl(nr, t, pf) => if header != 1 then Err(InvalidValue) else Ok(SFrame(address, nr, t, pf))
    case UControlField(t, pf) =>
      if (t == DM || t == DISC) && header / 4 != 0 then Err(InvalidValue)
      else Ok(UFrame(address, t, pf, more, info))
    case Unknown => Err(InvalidValue)
  }

  /** What the octets can carry: a defined SAPI, EA set, at most 63 information octets, none on DM and DISC. */
  predicate WellFormed(f: Frame) {
    && f.address.sapi != Undefined
    && f.address.ea
    && |Info(f)| <= 63
    && (f.UFrame? && (f.uType == DM || f.uType == DISC) ==> f.info == [])
  }

  // ----- Round trips -----

  lemma AddressRoundTrip(a: Address)
    ensures EncodeAddress(a) < 32 && (EncodeAddress(a) % 2 == 1 <==> a.ea)
    ensures DecodeAddress(EncodeAddress(a)) == a <==> a.sapi != Undefined
  {
  }

  lemma AddressOctetRoundTrip(o: Octet)
    requires o < 32
    ensures EncodeAddress(DecodeAddress(o)) == o <==> o / 4 % 8 == 0 || o / 4 % 8 == 3
  {
  }

  /** Encoding then decoding gives the frame back exactly when the frame is well formed. */
  lemma DecodeEncode(f: Frame)
    ensures Decode(Encode(f)) == Ok(f) <==> WellFormed(f)
  {
    hide EncodeAddress, DecodeAddress, EncodeControl, DecodeControl;
    var b := Encode(f);
    var header := HeaderOctet(f);
    assert b[3..] == Info(f);
    AddressRoundTrip(f.address);
    ControlRoundTrip(ControlOf(f));
    assert header % 2 == 1 && header / 4 == |Info(f)| % 64;
    if |Info(f)| <= 63 && f.address.ea {
      assert Decode(b) == Body(DecodeAddress(b[0]), ControlOf(f), header, Info(f));
    }
  }

  /** Decoding then encoding reproduces an accepted octet string exactly when its SAPI bits are 0 or 3. */
  lemma EncodeDecode(b: Octets)
    requires Decode(b).Ok?
    ensures Encode(Decode(b).frame) == b <==> b[0] / 4 % 8 == 0 || b[0] / 4 % 8 == 3
  {
    var f := Decode(b).frame;
    assert b == [b[0], b[1], b[2]] + b[3..];
    AddressOctetRoundTrip(b[0]);
    ControlOctetRoundTrip(b[1]);
    assert f.address == DecodeAddress(b[0]) && ControlOf(f) == DecodeControl(b[1]);
    assert Info(f) == b[3..] && HeaderOctet(f) == b[2];
    if EncodeAddress(f.address) != b[0] {
      assert Encode(f)[0] != b[0];
    }
  }

  /** Two different well-formed frames never share an encoding. */
  lemma EncodeInjective(f: Frame, g: Frame)
    requires WellFormed(f) && WellFormed(g) && Encode(f) == Encode(g)
    ensures f == g
  {
    DecodeEncode(f);
    DecodeEncode(g);
  }

  /** The octets of several frames. */
  function EncodeAll(fs: seq<Frame>): (bs: seq<Octets>)
    ensures |bs| == |fs| && forall i :: 0 <= i < |fs| ==> bs[i] == Encode(fs[i])
  {
    seq(|fs|, i requires 0 <= i < |fs| => Encode(fs[i]))
  }

  lemma EncodeAllConcat(x: seq<Frame>, y: seq<Frame>)
    ensures EncodeAll(x + y) == EncodeAll(x) + EncodeAll(y)
  {
  }

  function EncodedSize(f: Frame): nat { if f.SFrame? then 3 else 3 + |f.info| }

  /** Writes the frame at the front of `out`; an undersized buffer is left untouched and 0 is returned. */
  method EncodeToBuffer(f: Frame, out: array<Octet>) returns (n: nat)
    modifies out
    ensures out.Length < |Encode(f)| ==> n == 0 && out[..] == old(out[..])
    ensures out.Length >= |Encode(f)| ==> n == |Encode(f)| && out[..n] == Encode(f) && out[n..] == old(out[n..])
  {
    var needed := EncodedSize(f);
    if out.Length < needed {
      return 0;
    }
    out[0] := EncodeAddress(f.address);
    out[1] := EncodeControl(ControlOf(f));
    if f.SFrame? {
      out[2] := 1;
      assert out[..3] == Encode(f);
      return 3;
    }
    out[2] := HeaderOctet(f);
    var offset, i := 3, 0;
    while i < |f.info|
      invariant 0 <= i <= |f.info| && offset == 3 + i
      invariant out[0] == EncodeAddress(f.address) && out[1] == EncodeControl(ControlOf(f)) && out[2] == HeaderOctet(f)
      invariant out[3..offset] == f.info[..i]
      invariant forall k :: offset <= k < out.Length ==> out[k] == old(out[k])
    {
      out[offset] := f.info[i];
      offset, i := offset + 1, i + 1;
    }
    assert out[..offset] == [out[0], out[1], out[2]] + out[3..offset];
    return offset;
  }

  /** The allocating variant. */
  method EncodeFrame(f: Frame) returns (b: Octets)
    ensures b == Encode(f)
  {
    var out := new Octet[EncodedSize(f)];
    var n := EncodeToBuffer(f, out);
    b := out[..n];
  }
}
