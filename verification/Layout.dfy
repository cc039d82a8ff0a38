/**
 The octets of a format B frame bit by bit, as GSM 04.06 section 3 and TS 44.064 draw them, most significant bit
 first. The encoder is proved to produce them; nothing here calls it.
 */
module Layout {
  import opened Frames
  import Codec

  type Bits8 = b: seq<int> | |b| == 8 && forall i :: 0 <= i < 8 ==> 0 <= b[i] < 2 witness [0, 0, 0, 0, 0, 0, 0, 0]

  function OctetOf(b: Bits8): Octet {
    128 * b[0] + 64 * b[1] + 32 * b[2] + 16 * b[3] + 8 * b[4] + 4 * b[5] + 2 * b[6] + b[7]
  }

  function Flag(b: bool): int { if b then 1 else 0 }

  /** 0 0 0, the SAPI in three bits, C/R, EA. */
  function AddressBits(a: Address): Bits8
    requires a.sapi != Undefined
  {
    var low := Flag(a.sapi == Sapi3);
    [0, 0, 0, 0, low, low, Flag(a.command), Flag(a.ea)]
  }

  /** N(R), P/F and N(S) or the function bits, in the three control formats. */
  function ControlBits(f: Frame): Bits8 {
    match f
    case IFrame(_, nr, ns, pf, _, _) =>
      [nr / 4, nr / 2 % 2, nr % 2, Flag(pf), ns / 4, ns / 2 % 2, ns % 2, 0]
    case SFrame(_, nr, t, pf) =>
      var high, low := Flag(t == REJ || t == Reserved), Flag(t == RNR || t == Reserved);
      [nr / 4, nr / 2 % 2, nr % 2, Flag(pf), high, low, 0, 1]
    case UFrame(_, t, pf, _, _) =>
      match t
      case SABME => [0, 0, 1, Flag(pf), 1, 1, 1, 1]
      case DM => [0, 0, 0, Flag(pf), 1, 1, 1, 1]
      case UI => [0, 0, 0, Flag(pf), 0, 0, 1, 1]
      case DISC => [0, 1, 0, Flag(pf), 0, 0, 1, 1]
      case UA => [0, 1, 1, Flag(pf), 0, 0, 1, 1]
  }

  /** Six length bits, M, and a fixed 1; supervisory frames carry no information. */
  function HeaderBits(f: Frame): Bits8 {
    var n := if f.SFrame? then 0 else |f.info| % 64;
    var m := if f.SFrame? then 0 else Flag(f.more);
    var high, low := n / 8, n % 8;
    [high / 4, high / 2 % 2, high % 2, low / 4, low / 2 % 2, low % 2, m, 1]
  }

  lemma ThreeBits(x: int)
    requires 0 <= x < 8
    ensures 4 * (x / 4) + 2 * (x / 2 % 2) + x % 2 == x
  {
  }

  lemma ControlLayout(f: Frame)
    ensures Codec.EncodeControl(Codec.ControlOf(f)) == OctetOf(ControlBits(f))
  {
    match f {
      case IFrame(_, nr, ns, pf, _, _) => ThreeBits(nr); ThreeBits(ns);
      case SFrame(_, nr, t, pf) => ThreeBits(nr);
      case UFrame(_, t, pf, _, _) =>
    }
  }

  lemma HeaderLayout(f: Frame)
    ensures Codec.HeaderOctet(f) == OctetOf(HeaderBits(f))
  {
    if !f.SFrame? {
      ThreeBits(|f.info| % 64 / 8);
      ThreeBits(|f.info| % 64 % 8);
    }
  }

  /** The encoder puts out exactly the drawn octets, for every frame on a defined SAPI. */
  lemma FrameLayout(f: Frame)
    requires f.address.sapi != Undefined
    ensures Codec.Encode(f) ==
      [OctetOf(AddressBits(f.address)), OctetOf(ControlBits(f)), OctetOf(HeaderBits(f))]
        + (if f.SFrame? then [] else f.info)
  {
    hide ControlBits, HeaderBits, OctetOf, Codec.EncodeControl, Codec.HeaderOctet, Codec.EncodeAddress;
    AddressLayout(f.address);
    ControlLayout(f);
    HeaderLayout(f);
  }

  lemma AddressLayout(a: Address)
    requires a.sapi != Undefined
    ensures Codec.EncodeAddress(a) == OctetOf(AddressBits(a))
  {
  }

  /** And the decoder reads the drawn octets of every well-formed frame as that frame. */
  lemma LayoutDecodes(f: Frame)
    requires Codec.WellFormed(f)
    ensures Codec.Decode([OctetOf(AddressBits(f.address)), OctetOf(ControlBits(f)), OctetOf(HeaderBits(f))]
                           + (if f.SFrame? then [] else f.info)) == Codec.Ok(f)
  {
    hide ControlBits, HeaderBits, OctetOf, AddressBits;
    FrameLayout(f);
    Codec.DecodeEncode(f);
  }

  /** Why octets are refused: too short for what they announce, or not a frame at all. */
  lemma RefusedOctets(b: Octets)
    ensures Codec.Decode(b) == Codec.Err(Codec.TruncatedInput) <==>
      |b| < 3 || (b[0] < 32 && b[0] % 2 == 1 && b[2] % 2 == 1 && |b| < 3 + b[2] / 4)
    ensures Codec.Decode(b).Ok? ==> |b| == 3 + b[2] / 4
  {
  }
}
