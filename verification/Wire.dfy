/** The same link with octet strings in the channels: encoded when sent, decoded when received. */
module Wire {
  import opened Frames
  import opened Codec
  import opened Segmentation
  import opened Entities
  import opened EntityInvariants
  import opened Establishment
  import opened Delivery

  datatype WireLink = WireLink(a: Node, b: Node, ab: seq<Octets>, ba: seq<Octets>)

  /** Octets that do not decode are dropped silently. */
  function ReceiveOctets(p: Profile, n: Node, b: Octets): (Node, seq<Frame>) {
    match Decode(b)
    case Ok(f) => (Track(p, n, DoReceive(f)), Perform(p, n.s, DoReceive(f)).tx)
    case Err(_) => (n, [])
  }

  function Lost(c: seq<Octets>, k: nat): seq<Octets> { if k < |c| then c[..k] + c[k + 1..] else c }

  function NextWire(pa: Profile, pb: Profile, w: WireLink, e: Event): WireLink {
    match e
    case CallA(act) => w.(a := Track(pa, w.a, act), ab := w.ab + EncodeAll(Perform(pa, w.a.s, act).tx))
    case CallB(act) => w.(b := Track(pb, w.b, act), ba := w.ba + EncodeAll(Perform(pb, w.b.s, act).tx))
    case DeliverA =>
      if w.ba == [] then w
      else var (n, tx) := ReceiveOctets(pa, w.a, w.ba[0]); w.(a := n, ab := w.ab + EncodeAll(tx), ba := w.ba[1..])
    case DeliverB =>
      if w.ab == [] then w
      else var (n, tx) := ReceiveOctets(pb, w.b, w.ab[0]); w.(b := n, ba := w.ba + EncodeAll(tx), ab := w.ab[1..])
    case LoseToA(k) => w.(ba := Lost(w.ba, k))
    case LoseToB(k) => w.(ab := Lost(w.ab, k))
  }

  function RunWire(pa: Profile, pb: Profile, w: WireLink, es: seq<Event>): WireLink
    decreases |es|
  {
    if es == [] then w else RunWire(pa, pb, NextWire(pa, pb, w, es[0]), es[1..])
  }

  // ----- What the octets can carry -----

  /** Calls whose arguments fit the frame format. */
  predicate Carryable(a: Action) {
    match a
    case DoOpen(sapi, _) => sapi != Undefined
    case DoSendUI(sapi, data) => sapi != Undefined && |data| <= 63
    case DoSendSABME(info) => |info| <= 63
    case DoReceive(f) => WellFormed(f)
    case _ => true
  }

  predicate CarryableEvent(e: Event) {
    match e
    case CallA(act) => Carryable(act)
    case CallB(act) => Carryable(act)
    case _ => true
  }

  predicate AllWellFormed(fs: seq<Frame>) { forall i :: 0 <= i < |fs| ==> WellFormed(fs[i]) }

  predicate Fitting(s: Entity) {
    && s.sapi != Undefined
    && (s.pending.PendingI? ==> |s.pending.segment.info| <= 63)
    && (s.pending.PendingSABME? ==> |s.pending.info| <= 63)
  }

  lemma AckFits(p: Profile, s: Entity, nr: Seq8)
    requires p.n201 <= 63 && Fitting(s)
    ensures var o := ProcessAck(p, s, nr); AllWellFormed(o.tx) && Fitting(o.s) && o.s.sapi == s.sapi
  {
  }

  lemma IFits(p: Profile, s: Entity, f: Frame)
    requires p.n201 <= 63 && Fitting(s) && f.IFrame?
    ensures AllWellFormed(ReceiveI(p, s, f).tx) && Fitting(ReceiveI(p, s, f).s)
  {
    hide ProcessAck, SequenceI;
    if Established(s) {
      AckFits(p, Settle(s), f.nr);
      SequenceFits(p, ProcessAck(p, Settle(s), f.nr).s, f);
    }
  }

  lemma SequenceFits(p: Profile, s: Entity, f: Frame)
    requires Fitting(s) && f.IFrame?
    ensures AllWellFormed(SequenceI(p, s, f).tx) && Fitting(SequenceI(p, s, f).s)
  {
  }

  lemma SFits(p: Profile, s: Entity, f: Frame)
    requires p.n201 <= 63 && Fitting(s) && f.SFrame?
    ensures AllWellFormed(ReceiveS(p, s, f).tx) && Fitting(ReceiveS(p, s, f).s)
  {
    hide ProcessAck, AnswerS;
    if Established(s) && (f.sType == RR || f.sType == REJ) {
      AckFits(p, Settle(s), f.nr);
      AnswerFits(ProcessAck(p, Settle(s), f.nr).s, f);
    }
  }

  lemma AnswerFits(s: Entity, f: Frame)
    requires Fitting(s) && f.SFrame?
    ensures AllWellFormed(AnswerS(s, f).tx) && Fitting(AnswerS(s, f).s)
  {
  }

  lemma SABMEFits(s: Entity, f: Frame)
    requires Fitting(s) && f.UFrame? && |f.info| <= 63
    ensures AllWellFormed(ReceiveSABME(s, f).tx) && Fitting(ReceiveSABME(s, f).s)
  {
  }

  lemma UFits(p: Profile, s: Entity, f: Frame)
    requires Fitting(s) && f.UFrame? && WellFormed(f)
    ensures AllWellFormed(ReceiveU(p, s, f).tx) && Fitting(ReceiveU(p, s, f).s)
  {
    hide ReceiveSABME;
    match f.uType {
      case SABME => SABMEFits(s, f);
      case UA => assert ReceiveUA(s, f).tx == [];
      case DM => assert ReceiveDM(p, s, f).tx == [];
      case DISC => DISCFits(s, f);
      case UI =>
    }
  }

  lemma DISCFits(s: Entity, f: Frame)
    requires Fitting(s) && f.UFrame?
    ensures AllWellFormed(ReceiveDISC(s, f).tx) && Fitting(ReceiveDISC(s, f).s)
  {
  }

  lemma CallFits(p: Profile, s: Entity, a: Action)
    requires p.n201 <= 63 && Fitting(s) && Carryable(a) && !a.DoReceive?
    ensures AllWellFormed(Perform(p, s, a).tx) && Fitting(Perform(p, s, a).s)
  {
  }

  /** With N201 <= 63 an entity only ever sends frames that survive the octets. */
  lemma PerformFits(p: Profile, s: Entity, a: Action)
    requires p.n201 <= 63 && Fitting(s) && Carryable(a)
    ensures AllWellFormed(Perform(p, s, a).tx) && Fitting(Perform(p, s, a).s)
  {
    if a.DoReceive? {
      if a.f.address.sapi == s.sapi {
        match a.f {
          case IFrame(_, _, _, _, _, _) => IFits(p, s, a.f);
          case SFrame(_, _, _, _) => SFits(p, s, a.f);
          case UFrame(_, _, _, _, _) => UFits(p, s, a.f);
        }
      }
    } else {
      CallFits(p, s, a);
    }
  }

  // ----- Octets refine frames -----

  function Encoded(l: Link): WireLink { WireLink(l.a, l.b, EncodeAll(l.ab), EncodeAll(l.ba)) }

  predicate FittingLink(l: Link) {
    Fitting(l.a.s) && Fitting(l.b.s) && AllWellFormed(l.ab) && AllWellFormed(l.ba)
  }

  lemma EncodeAllWithout(c: seq<Frame>, k: nat)
    ensures EncodeAll(Without(c, k)) == Lost(EncodeAll(c), k)
    ensures AllWellFormed(c) ==> AllWellFormed(Without(c, k))
    ensures c != [] ==> EncodeAll(c[1..]) == EncodeAll(c)[1..]
  {
    var d := Without(c, k);
    assert forall i :: 0 <= i < |d| ==> d[i] == c[if i < k then i else i + 1];
  }

  lemma NextRefines(pa: Profile, pb: Profile, l: Link, e: Event)
    requires pa.n201 <= 63 && pb.n201 <= 63 && FittingLink(l) && CarryableEvent(e)
    ensures FittingLink(Next(pa, pb, l, e)) && NextWire(pa, pb, Encoded(l), e) == Encoded(Next(pa, pb, l, e))
  {
    match e {
      case CallA(act) => StepRefines(pa, l.a, act, l.ab);
      case CallB(act) => StepRefines(pb, l.b, act, l.ba);
      case DeliverA =>
        if l.ba != [] {
          StepRefines(pa, l.a, DoReceive(l.ba[0]), l.ab);
          EncodeAllWithout(l.ba, 0);
          DecodeEncode(l.ba[0]);
        }
      case DeliverB =>
        if l.ab != [] {
          StepRefines(pb, l.b, DoReceive(l.ab[0]), l.ba);
          EncodeAllWithout(l.ab, 0);
          DecodeEncode(l.ab[0]);
        }
      case LoseToA(k) => EncodeAllWithout(l.ba, k);
      case LoseToB(k) => EncodeAllWithout(l.ab, k);
    }
  }

  lemma StepRefines(p: Profile, n: Node, a: Action, c: seq<Frame>)
    requires p.n201 <= 63 && Fitting(n.s) && AllWellFormed(c) && Carryable(a)
    ensures Fitting(Track(p, n, a).s)
    ensures var tx := Perform(p, n.s, a).tx;
      AllWellFormed(c + tx) && EncodeAll(c + tx) == EncodeAll(c) + EncodeAll(tx)
  {
    PerformFits(p, n.s, a);
    EncodeAllConcat(c, Perform(p, n.s, a).tx);
  }

  predicate CarryableRun(es: seq<Event>) { forall i :: 0 <= i < |es| ==> CarryableEvent(es[i]) }

  /** Octet channels and frame channels run in lockstep. */
  lemma {:induction false} RunRefines(pa: Profile, pb: Profile, l: Link, es: seq<Event>)
    requires pa.n201 <= 63 && pb.n201 <= 63 && FittingLink(l) && CarryableRun(es)
    ensures RunWire(pa, pb, Encoded(l), es) == Encoded(Run(pa, pb, l, es))
    decreases |es|
  {
    if es != [] {
      NextRefines(pa, pb, l, es[0]);
      RunRefines(pa, pb, Next(pa, pb, l, es[0]), es[1..]);
    }
  }

  /** The delivery theorem on octets, for every N201 that the six-bit length field can carry. */
  lemma InOrderDeliveryOnOctets(pa: Profile, pb: Profile, l: Link, es: seq<Event>)
    requires 1 <= pa.n201 <= 63 && 1 <= pb.n201 <= 63
    requires Initial(pa, pb, l) && PermittedRun(pa, pb, l, es)
    requires Fitting(l.a.s) && Fitting(l.b.s) && CarryableRun(es)
    ensures var w := RunWire(pa, pb, WireLink(l.a, l.b, [], []), es); InOrder(w.a, w.b) && InOrder(w.b, w.a)
  {
    assert Encoded(l) == WireLink(l.a, l.b, [], []);
    RunRefines(pa, pb, l, es);
    InOrderDelivery(pa, pb, l, es);
  }

  /** The profiles of the library. */
  const PROFILES := [SDCCH, SACCH, FACCH, FACCH_LM]

  /** Every pair of the library's own profiles fits the length field, so delivery on octets holds on all of them. */
  lemma InOrderOnEveryChannel(pa: Profile, pb: Profile, l: Link, es: seq<Event>)
    requires pa in PROFILES && pb in PROFILES && Initial(pa, pb, l) && PermittedRun(pa, pb, l, es)
    requires Fitting(l.a.s) && Fitting(l.b.s) && CarryableRun(es)
    ensures var w := RunWire(pa, pb, WireLink(l.a, l.b, [], []), es); InOrder(w.a, w.b) && InOrder(w.b, w.a)
  {
    hide InOrder, RunWire, PermittedRun, Initial;
    InOrderDeliveryOnOctets(pa, pb, l, es);
  }
}
