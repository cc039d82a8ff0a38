/** The independent frame builders of the Go binding (bindings/go/lapdmmini.go). */
module GoBuilders {
  import opened Frames
  import Codec

  /** `None` stands for the builders' panic on an argument out of range. */
  type Built = Option<Octets>

  function MiniAddr(sapi: nat, command: bool): Octet
    requires sapi <= 7
  {
    sapi * 4 + (if command then 2 else 0) + 1
  }

  function UIFrame(sapi: nat, command: bool, info: Octets): Built {
    if sapi > 7 || |info| > 63 then None
    else Some([MiniAddr(sapi, command), 0x03, |info| * 4 + 1] + info)
  }

  function UAFrame(): Octets { [MiniAddr(0, false), 0x73, 0x01] }

  function SABMEFrame(sapi: nat, command: bool): Built {
    if sapi > 7 then None else Some([MiniAddr(sapi, command), 0x3F, 0x01])
  }

  function DMFrame(sapi: nat): Built {
    if sapi > 7 then None else Some([MiniAddr(sapi, false), 0x0F, 0x01])
  }

  function DISCFrame(sapi: nat, command: bool): Built {
    if sapi > 7 then None else Some([MiniAddr(sapi, command), 0x53, 0x01])
  }

  function RRFrame(nr: nat, sapi: nat): Built {
    if nr > 7 || sapi > 7 then None else Some([MiniAddr(sapi, false), nr * 32 + 1, 0x01])
  }

  function BuildI(sapi: nat, command: bool, nr: nat, ns: nat, pf: bool, m: bool, info: Octets): Built {
    if sapi > 7 || nr > 7 || ns > 7 || |info| > 63 then None
    else
      var control := nr * 32 + ns * 2 + (if pf then 16 else 0);
      var header := |info| * 4 + 1 + (if m then 2 else 0);
      Some([MiniAddr(sapi, command), control, header] + info)
  }

  function SapiOf(raw: nat): Sapi { if raw == 0 then Sapi0 else if raw == 3 then Sapi3 else Undefined }

  /** The octets of the I and RR builders decode to the fields they were given. */
  lemma NumberedBuildersDecode(sapi: nat, command: bool, nr: Seq8, ns: Seq8, pf: bool, m: bool, info: Octets)
    requires sapi <= 7 && |info| <= 63
    ensures Codec.Decode(RRFrame(nr, sapi).value) == Codec.Ok(MakeS(SapiOf(sapi), nr, RR, false))
    ensures Codec.Decode(BuildI(sapi, command, nr, ns, pf, m, info).value)
         == Codec.Ok(MakeI(SapiOf(sapi), command, nr, ns, pf, m, info))
  {
    DecodesAs(RRFrame(nr, sapi).value, sapi, false, Codec.SControl(nr, RR, false), false, []);
    DecodesAs(BuildI(sapi, command, nr, ns, pf, m, info).value, sapi, command, Codec.IControl(nr, ns, pf), m, info);
  }

  /** The octets of the unnumbered builders decode to the fields they were given. */
  lemma UnnumberedBuildersDecode(sapi: nat, command: bool, info: Octets)
    requires sapi <= 7 && |info| <= 63
    ensures Codec.Decode(UIFrame(sapi, command, info).value) == Codec.Ok(MakeUI(SapiOf(sapi), command, info))
    ensures Codec.Decode(UAFrame()) == Codec.Ok(MakeUA(Sapi0, true, []))
    ensures Codec.Decode(SABMEFrame(sapi, command).value) == Codec.Ok(MakeSABME(SapiOf(sapi), command, []))
    ensures Codec.Decode(DMFrame(sapi).value) == Codec.Ok(MakeDM(SapiOf(sapi), false))
    ensures Codec.Decode(DISCFrame(sapi, command).value) == Codec.Ok(MakeDISC(SapiOf(sapi), command))
  {
    UDecodes(UIFrame(sapi, command, info).value, sapi, command, UI, false, info);
    UDecodes(UAFrame(), 0, false, UA, true, []);
    UDecodes(SABMEFrame(sapi, command).value, sapi, command, SABME, true, []);
    UDecodes(DMFrame(sapi).value, sapi, false, DM, false, []);
    UDecodes(DISCFrame(sapi, command).value, sapi, command, DISC, true, []);
  }

  lemma UDecodes(b: Octets, sapi: nat, command: bool, t: UType, pf: bool, info: Octets)
    requires sapi <= 7 && |info| <= 63 && ((t == DM || t == DISC) ==> info == [])
    requires b == [MiniAddr(sapi, command), Codec.UControl(t, pf), |info| * 4 + 1] + info
    ensures Codec.Decode(b) == Codec.Ok(UFrame(Address(SapiOf(sapi), command, true), t, pf, false, info))
  {
    DecodesAs(b, sapi, command, Codec.UControlField(t, pf), false, info);
  }

  /** Octets laid out as address, control, header and information decode field by field. */
  lemma DecodesAs(b: Octets, sapi: nat, command: bool, c: Codec.Control, m: bool, info: Octets)
    requires sapi <= 7 && |info| <= 63 && c != Codec.Unknown
    requires b == [MiniAddr(sapi, command), Codec.EncodeControl(c), |info| * 4 + 1 + (if m then 2 else 0)] + info
    ensures Codec.Decode(b) == Codec.Body(Address(SapiOf(sapi), command, true), c, b[2], info)
    ensures b[2] / 4 == |info| && (b[2] / 2 % 2 == 1 <==> m) && (b[2] == 1 <==> !m && info == [])
  {
    assert b[3..] == info;
    Codec.ControlRoundTrip(c);
    assert b[0] / 4 == sapi;
    assert Codec.DecodeAddress(b[0]) == Address(SapiOf(sapi), command, true);
  }

  /** On the defined SAPIs the builders produce the very octets of the library's own encoder. */
  lemma BuildersAgreeWithEncoder(sapi: nat, command: bool, nr: Seq8, ns: Seq8, pf: bool, m: bool, info: Octets)
    requires (sapi == 0 || sapi == 3) && |info| <= 63
    ensures UIFrame(sapi, command, info) == Some(Codec.Encode(MakeUI(SapiOf(sapi), command, info)))
    ensures UAFrame() == Codec.Encode(MakeUA(Sapi0, true, []))
    ensures SABMEFrame(sapi, command) == Some(Codec.Encode(MakeSABME(SapiOf(sapi), command, [])))
    ensures DMFrame(sapi) == Some(Codec.Encode(MakeDM(SapiOf(sapi), false)))
    ensures DISCFrame(sapi, command) == Some(Codec.Encode(MakeDISC(SapiOf(sapi), command)))
    ensures RRFrame(nr, sapi) == Some(Codec.Encode(MakeS(SapiOf(sapi), nr, RR, false)))
    ensures BuildI(sapi, command, nr, ns, pf, m, info)
         == Some(Codec.Encode(MakeI(SapiOf(sapi), command, nr, ns, pf, m, info)))
  {
    NumberedBuildersDecode(sapi, command, nr, ns, pf, m, info);
    UnnumberedBuildersDecode(sapi, command, info);
    Codec.EncodeDecode(UIFrame(sapi, command, info).value);
    Codec.EncodeDecode(UAFrame());
    Codec.EncodeDecode(SABMEFrame(sapi, command).value);
    Codec.EncodeDecode(DMFrame(sapi).value);
    Codec.EncodeDecode(DISCFrame(sapi, command).value);
    Codec.EncodeDecode(RRFrame(nr, sapi).value);
    Codec.EncodeDecode(BuildI(sapi, command, nr, ns, pf, m, info).value);
  }
}
