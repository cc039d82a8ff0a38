/**
 The LAPDm link entity as a pure machine: each API call and each received frame maps an entity value
 to the next one, the frames handed to the physical layer and the primitives handed to layer 3.
 */
module Entities {
  import opened Frames
  import opened Segmentation

  /** N201 (octets per I-frame), N200 (retransmissions) and T200 (milliseconds) of a channel. */
  datatype Profile = Profile(n201: nat, n200: nat, t200Ms: nat)

  const SDCCH := Profile(20, 23, 900)
  const SACCH := Profile(18, 5, 3600)
  const FACCH := Profile(20, 34, 900)
  const FACCH_LM := Profile(20, 29, 900)

  const MAX_REASSEMBLY: nat := 4096

  datatype LinkState =
    Unused | LinkReleased | AwaitingEstablish | AwaitingRelease | LinkEstablished | ContentionResolution

  /** The frame that an expired T200 sends again. */
  datatype Pending = NoPending | PendingI(ns: Seq8, segment: Segment) | PendingSABME(info: Octets) | PendingDISC

  datatype Timer = Off | Armed(remaining: nat)

  datatype Primitive =
    | L3_DATA | L3_UNIT_DATA | L3_ESTABLISH_INDICATION | L3_ESTABLISH_CONFIRM
    | L3_RELEASE_INDICATION | L3_RELEASE_CONFIRM | MDL_ERROR_INDICATION

  datatype Indication = Indication(primitive: Primitive, data: Octets)

  datatype Entity = Entity(
    state: LinkState,
    sapi: Sapi,
    commandBit: bool,
    establishing: bool,
    vs: Seq8, va: Seq8, vr: Seq8,
    pending: Pending,
    rc: nat,
    t200: Timer,
    reassembly: Octets,
    queue: seq<Octets>,     // what is still to be segmented: the rest of the current message, then whole messages
    checksum: nat)

  datatype Outcome = Outcome(s: Entity, tx: seq<Frame>, up: seq<Indication>)

  const INITIAL := Entity(Unused, Sapi0, true, false, 0, 0, 0, NoPending, 0, Off, [], [], 0)

  predicate Established(s: Entity) { s.state == LinkEstablished || s.state == ContentionResolution }

  function Quiet(s: Entity): Outcome { Outcome(s, [], []) }

  // ----- Shared pieces -----

  function Clear(s: Entity): Entity {
    s.(vs := 0, va := 0, vr := 0, rc := 0, t200 := Off, reassembly := [], queue := [], pending := NoPending)
  }

  function Checksum(data: Octets): nat {
    if data == [] then 0 else (Checksum(data[..|data| - 1]) + data[|data| - 1]) % 0x1_0000_0000
  }

  /** k = 1: the next segment goes out only when nothing is outstanding. */
  function TrySend(p: Profile, s: Entity): Outcome
  {
    if s.vs != s.va || s.queue == [] then Quiet(s)
    else
      var seg := Cut(p.n201, s.queue[0]);
      Outcome(s.(vs := Next8(s.vs), pending := PendingI(s.vs, seg), rc := 0, t200 := Armed(p.t200Ms),
                 queue := AfterCut(p.n201, s.queue)),
              [MakeI(s.sapi, s.commandBit, s.vr, s.vs, false, seg.more, seg.info)], [])
  }

  function ProcessAck(p: Profile, s: Entity, nr: Seq8): Outcome
  {
    if nr == s.vs then TrySend(p, s.(va := nr, rc := 0, t200 := Off)) else Quiet(s.(va := nr))
  }

  function Retransmission(s: Entity): seq<Frame> {
    match s.pending
    case PendingI(ns, seg) => [MakeI(s.sapi, s.commandBit, s.vr, ns, true, seg.more, seg.info)]
    case PendingSABME(info) => [MakeSABME(s.sapi, s.commandBit, info)]
    case PendingDISC => [MakeDISC(s.sapi, s.commandBit)]
    case NoPending => []
  }

  function AbnormalRelease(s: Entity, sendDM: bool): Outcome {
    Outcome(Clear(s).(establishing := false, state := if sendDM then Unused else LinkReleased),
            if sendDM then [MakeDM(s.sapi, true)] else [],
            [Indication(MDL_ERROR_INDICATION, [])])
  }

  // ----- API calls -----

  function Open(s: Entity, sapi: Sapi, commandBit: bool): Outcome {
    Quiet(Clear(s.(sapi := sapi, commandBit := commandBit)).(state := LinkReleased))
  }

  function SendUI(s: Entity, sapi: Sapi, data: Octets): Outcome {
    Outcome(s, [MakeUI(sapi, s.commandBit, data)], [])
  }

  datatype SendError = LinkNotEstablished | EmptyData | NotReleased | CannotDisconnect
  datatype SendResult = Accepted | Rejected(error: SendError)

  function SendDataResult(s: Entity, data: Octets): SendResult {
    if !Established(s) then Rejected(LinkNotEstablished)
    else if data == [] then Rejected(EmptyData)
    else Accepted
  }

  function SendData(p: Profile, s: Entity, data: Octets): Outcome
  {
    if SendDataResult(s, data) != Accepted then Quiet(s)
    else TrySend(p, s.(queue := s.queue + [data]))
  }

  function SendSABMEResult(s: Entity): SendResult {
    if Established(s) || s.state == LinkReleased then Accepted else Rejected(NotReleased)
  }

  function SendSABME(p: Profile, s: Entity, info: Octets): Outcome {
    if Established(s) then Outcome(s, [], [Indication(L3_ESTABLISH_CONFIRM, [])])
    else if s.state != LinkReleased then Quiet(s)
    else
      Outcome(s.(pending := PendingSABME(info), rc := 0, t200 := Armed(p.t200Ms), state := AwaitingEstablish),
              [MakeSABME(s.sapi, s.commandBit, info)], [])
  }

  function SendDISCResult(s: Entity): SendResult {
    if Established(s) then Accepted else Rejected(CannotDisconnect)
  }

  function SendDISC(p: Profile, s: Entity): Outcome {
    if !Established(s) then Quiet(s)
    else
      Outcome(s.(pending := PendingDISC, rc := 0, t200 := Armed(p.t200Ms), state := AwaitingRelease),
              [MakeDISC(s.sapi, s.commandBit)], [])
  }

  function HardRelease(s: Entity): Outcome {
    Quiet(Clear(s).(establishing := false, state := LinkReleased))
  }

  /** Whether this tick exhausts the running T200. */
  predicate Expires(s: Entity, elapsed: nat) { s.t200.Armed? && elapsed >= s.t200.remaining }

  function Tick(p: Profile, s: Entity, elapsed: nat): Outcome {
    if s.t200.Off? then Quiet(s)
    else if elapsed < s.t200.remaining then Quiet(s.(t200 := Armed(s.t200.remaining - elapsed)))
    else if s.rc <= p.n200 then Outcome(s.(rc := s.rc + 1, t200 := Armed(p.t200Ms)), Retransmission(s), [])
    else AbnormalRelease(s, false)
  }

  // ----- Received frames -----

  function ReceiveSABME(s: Entity, f: Frame): Outcome
    requires f.UFrame?
  {
    if !f.pf then Quiet(s)
    else match s.state
      case LinkReleased =>
        var s' := Clear(s).(establishing := true);
        var ind := [Indication(L3_ESTABLISH_INDICATION, f.info)];
        if f.info != [] then
          Outcome(s'.(checksum := Checksum(f.info),
                      state := if s.sapi == Sapi0 then ContentionResolution else LinkEstablished),
                  [MakeUA(s.sapi, f.pf, f.info)], ind)
        else Outcome(s'.(state := LinkEstablished), [MakeUA(s.sapi, f.pf, [])], ind)
      case AwaitingEstablish => Outcome(s, [MakeUA(s.sapi, f.pf, [])], [])
      case AwaitingRelease => Outcome(s, [MakeDM(s.sapi, f.pf)], [])
      case LinkEstablished =>
        if s.establishing then Outcome(s, [MakeUA(s.sapi, f.pf, f.info)], [])
        else if f.info != [] then AbnormalRelease(s, true)
        else Outcome(Clear(s), [MakeUA(s.sapi, f.pf, [])], [])
      case ContentionResolution =>
        if f.info != [] && Checksum(f.info) == s.checksum then
          Outcome(s.(state := LinkEstablished), [MakeUA(s.sapi, f.pf, f.info)], [])
        else Quiet(s)
      case Unused => Quiet(s)
  }

  function ReceiveUA(s: Entity, f: Frame): Outcome
    requires f.UFrame?
  {
    if !f.pf then Quiet(s)
    else match s.state
      case AwaitingEstablish =>
        Outcome(Clear(s).(state := LinkEstablished), [], [Indication(L3_ESTABLISH_CONFIRM, [])])
      case AwaitingRelease =>
        Outcome(Clear(s).(state := LinkReleased), [], [Indication(L3_RELEASE_CONFIRM, [])])
      case _ => Quiet(s)
  }

  function ReceiveDM(p: Profile, s: Entity, f: Frame): Outcome
    requires f.UFrame?
  {
    if !f.pf then Quiet(s)
    else match s.state
      case AwaitingRelease =>
        Outcome(Clear(s).(state := LinkReleased), [], [Indication(L3_RELEASE_CONFIRM, [])])
      case Unused => Quiet(s)
      case LinkReleased => Quiet(s)
      case _ => Outcome(s.(t200 := Armed(p.t200Ms)), [], [Indication(L3_RELEASE_INDICATION, [])])
  }

  function ReceiveDISC(s: Entity, f: Frame): Outcome
    requires f.UFrame?
  {
    var s0 := s.(establishing := false);
    match s.state
    case Unused => Quiet(s0)
    case LinkReleased => Outcome(s0, [MakeDM(s.sapi, f.pf)], [])
    case AwaitingEstablish =>
      Outcome(Clear(s0).(state := LinkReleased), [], [Indication(L3_RELEASE_INDICATION, [])])
    case AwaitingRelease =>
      Outcome(Clear(s0).(state := LinkReleased), [MakeUA(s.sapi, f.pf, [])], [Indication(L3_RELEASE_CONFIRM, [])])
    case _ =>
      Outcome(Clear(s0).(state := LinkReleased), [MakeUA(s.sapi, f.pf, [])], [Indication(L3_RELEASE_INDICATION, [])])
  }

  function ReceiveU(p: Profile, s: Entity, f: Frame): Outcome
    requires f.UFrame?
  {
    match f.uType
    case SABME => ReceiveSABME(s, f)
    case UA => ReceiveUA(s, f)
    case DM => ReceiveDM(p, s, f)
    case DISC => ReceiveDISC(s, f)
    case UI => Outcome(s, [], [Indication(L3_UNIT_DATA, f.info)])
  }

  /** The first I or S frame ends the establishment window and contention resolution. */
  function Settle(s: Entity): Entity {
    s.(establishing := false, state := if s.state == ContentionResolution then LinkEstablished else s.state)
  }

  predicate TooLong(p: Profile, s: Entity, info: Octets) {
    |info| > p.n201 || |s.reassembly| + |info| > MAX_REASSEMBLY
  }

  /** The in-sequence I-frame, after its N(R) has been processed. */
  function AcceptI(p: Profile, s: Entity, f: Frame): Outcome
    requires f.IFrame?
  {
    var s' := s.(vr := Next8(s.vr));
    if TooLong(p, s, f.info) then AbnormalRelease(s', false)
    else if f.more then
      Outcome(s'.(reassembly := s.reassembly + f.info), [MakeS(s.sapi, s'.vr, RR, f.pf)], [])
    else
      Outcome(s'.(reassembly := []), [MakeS(s.sapi, s'.vr, RR, f.pf)], [Indication(L3_DATA, s.reassembly + f.info)])
  }

  function SequenceI(p: Profile, s: Entity, f: Frame): Outcome
    requires f.IFrame?
  {
    if f.ns != s.vr then Outcome(s, [MakeS(s.sapi, s.vr, REJ, f.pf)], []) else AcceptI(p, s, f)
  }

  function ReceiveI(p: Profile, s: Entity, f: Frame): Outcome
    requires f.IFrame?
  {
    var s1 := Settle(s);
    if s1.state != LinkEstablished then Quiet(s1)
    else
      var acked := ProcessAck(p, s1, f.nr);
      var next := SequenceI(p, acked.s, f);
      Outcome(next.s, acked.tx + next.tx, next.up)
  }

  /** What an RR or REJ calls for once its N(R) has been processed. */
  function AnswerS(s: Entity, f: Frame): Outcome
    requires f.SFrame?
  {
    if !f.pf then Quiet(s)
    else if f.sType == RR then
      if f.address.command then Outcome(s, [MakeS(s.sapi, s.vr, RR, true)], []) else Quiet(s)
    else if f.address.command then AbnormalRelease(s, true)
    else Outcome(s, [MakeS(s.sapi, s.vr, RR, true)], [])
  }

  function ReceiveS(p: Profile, s: Entity, f: Frame): Outcome
    requires f.SFrame?
  {
    match f.sType
    case RNR => AbnormalRelease(s, true)
    case Reserved => Quiet(s.(establishing := false))
    case _ =>
      var s1 := Settle(s);
      if s1.state != LinkEstablished then Quiet(s1)
      else
        var acked := ProcessAck(p, s1, f.nr);
        var next := AnswerS(acked.s, f);
        Outcome(next.s, acked.tx + next.tx, next.up)
  }

  function Receive(p: Profile, s: Entity, f: Frame): Outcome
  {
    if f.address.sapi != s.sapi then Quiet(s)
    else match f
      case IFrame(_, _, _, _, _, _) => ReceiveI(p, s, f)
      case SFrame(_, _, _, _) => ReceiveS(p, s, f)
      case UFrame(_, _, _, _, _) => ReceiveU(p, s, f)
  }

  // ----- Every call as one action -----

  datatype Action =
    | DoOpen(sapi: Sapi, commandBit: bool)
    | DoReceive(f: Frame)
    | DoSendUI(uiSapi: Sapi, data: Octets)
    | DoSendData(data: Octets)
    | DoSendSABME(info: Octets)
    | DoSendDISC
    | DoHardRelease
    | DoTick(elapsed: nat)

  function Perform(p: Profile, s: Entity, a: Action): Outcome
  {
    match a
    case DoOpen(sapi, commandBit) => Open(s, sapi, commandBit)
    case DoReceive(f) => Receive(p, s, f)
    case DoSendUI(sapi, data) => SendUI(s, sapi, data)
    case DoSendData(data) => SendData(p, s, data)
    case DoSendSABME(info) => SendSABME(p, s, info)
    case DoSendDISC => SendDISC(p, s)
    case DoHardRelease => HardRelease(s)
    case DoTick(elapsed) => Tick(p, s, elapsed)
  }
}
