/**
 The whole link between an initiator `a` and a responder `b`: establishment, data transfer and release over
 lossy FIFO channels, under every interleaving of calls, deliveries, losses and timer ticks.
 */
module Establishment {
  import opened Frames
  import opened Segmentation
  import opened Entities
  import opened EntityInvariants
  import opened Window
  import opened LinkSystem

  datatype Link = Link(a: Node, b: Node, ab: seq<Frame>, ba: seq<Frame>)

  /** A call of the API on one side, the delivery of the oldest frame, or the loss of any frame. */
  datatype Event =
    | CallA(action: Action)
    | CallB(action: Action)
    | DeliverA
    | DeliverB
    | LoseToA(k: nat)
    | LoseToB(k: nat)

  function Without(c: seq<Frame>, k: nat): seq<Frame> { if k < |c| then c[..k] + c[k + 1..] else c }

  function Next(pa: Profile, pb: Profile, l: Link, e: Event): Link {
    match e
    case CallA(act) => l.(a := Track(pa, l.a, act), ab := l.ab + Perform(pa, l.a.s, act).tx)
    case CallB(act) => l.(b := Track(pb, l.b, act), ba := l.ba + Perform(pb, l.b.s, act).tx)
    case DeliverA =>
      if l.ba == [] then l
      else
        var act := DoReceive(l.ba[0]);
        l.(a := Track(pa, l.a, act), ab := l.ab + Perform(pa, l.a.s, act).tx, ba := l.ba[1..])
    case DeliverB =>
      if l.ab == [] then l
      else
        var act := DoReceive(l.ab[0]);
        l.(b := Track(pb, l.b, act), ba := l.ba + Perform(pb, l.b.s, act).tx, ab := l.ab[1..])
    case LoseToA(k) => l.(ba := Without(l.ba, k))
    case LoseToB(k) => l.(ab := Without(l.ab, k))
  }

  predicate IsSABME(f: Frame) { f.UFrame? && f.uType == SABME }

  /** Frames that only a connected entity sends. */
  predicate Later(f: Frame) { f.IFrame? || f.SFrame? || (f.UFrame? && f.uType == DISC) }

  /**
   One initiator and one link: `b` never initiates, `a` initiates as often as it likes until its first link,
   and no establishment request reaches a responder that has already had its link and released it.
   */
  predicate Permitted(l: Link, e: Event) {
    match e
    case CallA(act) => !act.DoReceive? && (act.DoSendSABME? && l.a.s.state == LinkReleased ==> l.a.h.links == 0)
    case CallB(act) => !act.DoReceive? && (act.DoSendSABME? ==> l.b.s.state != LinkReleased)
    case DeliverB => l.ab != [] && IsSABME(l.ab[0]) && l.b.s.state == LinkReleased ==> l.b.h.links == 0
    case _ => true
  }

  predicate Opened(p: Profile, n: Node) {
    Consistent(p, n.s) && n.s.state == LinkReleased && n.h == NO_HISTORY
  }

  predicate FreshlyLinked(p: Profile, n: Node) {
    Consistent(p, n.s) && Established(n.s) && CountersClear(n.s) && !n.s.pending.PendingI?
    && n.h == NO_HISTORY.(links := 1)
  }

  /** Empty channels between two released entities, or between two that are freshly established. */
  predicate Initial(pa: Profile, pb: Profile, l: Link) {
    && l.ab == [] && l.ba == []
    && ((Opened(pa, l.a) && Opened(pb, l.b)) || (FreshlyLinked(pa, l.a) && FreshlyLinked(pb, l.b)))
  }

  // ----- The handshake -----

  /** An establishment request is in flight, or may still be sent. */
  predicate MayEstablish(l: Link) {
    l.a.h.links == 0 || HasRequest(l.ab)
  }

  predicate Handshake(l: Link) {
    && (forall i :: 0 <= i < |l.ba| ==> !IsSABME(l.ba[i]))
    && l.b.s.state != AwaitingEstablish
    && (forall i, j :: 0 <= i < j < |l.ab| && Later(l.ab[i]) ==> !IsSABME(l.ab[j]))
    && (l.a.h.links == 0 ==> forall i :: 0 <= i < |l.ab| ==> !Later(l.ab[i]))
    && (l.a.h.links >= 1 ==> l.a.s.state != AwaitingEstablish)
    && (MayEstablish(l) && Established(l.b.s) ==> l.b.s.establishing)
  }

  predicate LinkInv(pa: Profile, pb: Profile, l: Link)
    requires pa.n201 >= 1 && pb.n201 >= 1
  {
    && NodeInv(pa, l.a) && NodeInv(pb, l.b)
    && Synced(ViewOf(l.a), ViewOf(l.b), l.ab, l.ba)
    && Handshake(l)
  }

  /** Which frames a call can send, by the state it starts from. */
  predicate Fits(s: Entity, a: Action, f: Frame) {
    && (Later(f) ==> Connected(s))
    && (IsSABME(f) ==> s.state == AwaitingEstablish || (s.state == LinkReleased && a.DoSendSABME?))
  }

  lemma SentFrames(p: Profile, s: Entity, a: Action)
    requires Consistent(p, s)
    ensures forall f :: f in Perform(p, s, a).tx ==> Fits(s, a, f)
  {
    if a.DoReceive? {
      var f := a.f;
      if f.address.sapi == s.sapi {
        match f {
          case IFrame(_, _, _, _, _, _) => SentOnI(p, s, f);
          case SFrame(_, _, _, _) => SentOnS(p, s, f);
          case UFrame(_, _, _, _, _) => SentOnU(p, s, f);
        }
      }
    } else {
      SentOnCall(p, s, a);
    }
  }

  lemma SentOnCall(p: Profile, s: Entity, a: Action)
    requires Consistent(p, s) && !a.DoReceive?
    ensures forall f :: f in Perform(p, s, a).tx ==> Fits(s, a, f)
  {
  }

  lemma SentOnAck(p: Profile, s: Entity, nr: Seq8)
    ensures forall g :: g in ProcessAck(p, s, nr).tx ==> g.IFrame?
  {
  }

  lemma SentOnI(p: Profile, s: Entity, f: Frame)
    requires f.IFrame?
    ensures forall g :: g in ReceiveI(p, s, f).tx ==> Established(s) && !IsSABME(g)
  {
    SentOnAck(p, Settle(s), f.nr);
  }

  lemma SentOnS(p: Profile, s: Entity, f: Frame)
    requires f.SFrame?
    ensures forall g :: g in ReceiveS(p, s, f).tx ==> (Later(g) ==> Established(s)) && !IsSABME(g)
  {
    if Established(s) && (f.sType == RR || f.sType == REJ) {
      SentOnAck(p, Settle(s), f.nr);
      SentOnAnswer(ProcessAck(p, Settle(s), f.nr).s, f);
    }
  }

  lemma SentOnAnswer(s: Entity, f: Frame)
    requires f.SFrame?
    ensures forall g :: g in AnswerS(s, f).tx ==> !IsSABME(g)
  {
  }

  lemma SentOnU(p: Profile, s: Entity, f: Frame)
    requires f.UFrame?
    ensures forall g :: g in ReceiveU(p, s, f).tx ==> !Later(g) && !IsSABME(g)
  {
    match f.uType {
      case SABME => assert ReceiveU(p, s, f) == ReceiveSABME(s, f);
      case UA => assert ReceiveU(p, s, f) == ReceiveUA(s, f);
      case DM => assert ReceiveU(p, s, f) == ReceiveDM(p, s, f);
      case DISC => assert ReceiveU(p, s, f) == ReceiveDISC(s, f);
      case UI =>
    }
  }

  /** How an entity may come to await establishment, to be established, and to close the establishment window. */
  predicate Moves(s: Entity, a: Action, s': Entity) {
    && (s'.state == AwaitingEstablish ==> s.state == AwaitingEstablish || (a.DoSendSABME? && s.state == LinkReleased))
    && (Established(s') ==> Established(s) || StartsLink(s, a))
    && (StartsLink(s, a) ==> Established(s'))
    && (Established(s') && !s'.establishing ==>
          || (Established(s) && !s.establishing)
          || (a.DoReceive? && Later(a.f))
          || s.state == AwaitingEstablish)
  }

  lemma Transitions(p: Profile, s: Entity, a: Action)
    requires Consistent(p, s)
    ensures Moves(s, a, Perform(p, s, a).s)
  {
    if a.DoReceive? && a.f.address.sapi == s.sapi {
      match a.f {
        case IFrame(_, _, _, _, _, _) => MovesOnI(p, s, a.f);
        case SFrame(_, _, _, _) => MovesOnS(p, s, a.f);
        case UFrame(_, _, _, _, _) => MovesOnU(p, s, a.f);
      }
    } else {
      MovesOnCall(p, s, a);
    }
  }

  lemma MovesOnCall(p: Profile, s: Entity, a: Action)
    requires (!a.DoReceive? || a.f.address.sapi != s.sapi)
    ensures Moves(s, a, Perform(p, s, a).s)
  {
  }

  lemma AckKeepsState(p: Profile, s: Entity, nr: Seq8)
    ensures var s' := ProcessAck(p, s, nr).s; s'.state == s.state && s'.establishing == s.establishing
  {
  }

  lemma MovesOnI(p: Profile, s: Entity, f: Frame)
    requires f.IFrame?
    ensures Moves(s, DoReceive(f), ReceiveI(p, s, f).s)
  {
    AckKeepsState(p, Settle(s), f.nr);
  }

  lemma MovesOnS(p: Profile, s: Entity, f: Frame)
    requires f.SFrame?
    ensures Moves(s, DoReceive(f), ReceiveS(p, s, f).s)
  {
    AckKeepsState(p, Settle(s), f.nr);
  }

  lemma MovesOnU(p: Profile, s: Entity, f: Frame)
    requires f.UFrame? && f.address.sapi == s.sapi
    ensures Moves(s, DoReceive(f), ReceiveU(p, s, f).s)
  {
    match f.uType {
      case SABME => assert ReceiveU(p, s, f) == ReceiveSABME(s, f);
      case UA => assert ReceiveU(p, s, f) == ReceiveUA(s, f);
      case DM => assert ReceiveU(p, s, f) == ReceiveDM(p, s, f);
      case DISC => assert ReceiveU(p, s, f) == ReceiveDISC(s, f);
      case UI =>
    }
  }

  // ----- Every permitted event keeps the handshake -----

  /** The initiator acts: it sends `tx` and its node becomes `a'`. */
  lemma InitiatorKeeps(p: Profile, l: Link, act: Action, ba': seq<Frame>)
    requires p.n201 >= 1 && NodeInv(p, l.a) && Handshake(l)
    requires act.DoSendSABME? && l.a.s.state == LinkReleased ==> l.a.h.links == 0
    requires act.DoReceive? ==> !IsSABME(act.f)
    requires forall i :: 0 <= i < |ba'| ==> !IsSABME(ba'[i])
    ensures StartsLink(l.a.s, act) ==> l.a.h.links == 0
    ensures Handshake(l.(a := Track(p, l.a, act), ab := l.ab + Perform(p, l.a.s, act).tx, ba := ba'))
  {
    SentFrames(p, l.a.s, act);
    Transitions(p, l.a.s, act);
    var tx := Perform(p, l.a.s, act).tx;
    var a' := Track(p, l.a, act);
    assert forall f :: f in tx ==> (Later(f) ==> l.a.h.links >= 1) && (IsSABME(f) ==> l.a.h.links == 0);
    var l' := l.(a := a', ab := l.ab + tx, ba := ba');
    AppendKeepsOrder(l.ab, tx, l.a.h.links);
    assert l.a.h.links >= 1 ==> forall i :: |l.ab| <= i < |l'.ab| ==> l'.ab[i] in tx;
  }

  lemma AppendKeepsOrder(ab: seq<Frame>, tx: seq<Frame>, links: nat)
    requires forall i, j :: 0 <= i < j < |ab| && Later(ab[i]) ==> !IsSABME(ab[j])
    requires links == 0 ==> forall i :: 0 <= i < |ab| ==> !Later(ab[i])
    requires forall f :: f in tx ==> (Later(f) ==> links >= 1) && (IsSABME(f) ==> links == 0)
    ensures var c := ab + tx;
      && (forall i, j :: 0 <= i < j < |c| && Later(c[i]) ==> !IsSABME(c[j]))
      && (links == 0 ==> forall i :: 0 <= i < |c| ==> !Later(c[i]))
  {
    var c := ab + tx;
    assert forall i :: |ab| <= i < |c| ==> c[i] in tx;
  }

  /** The responder acts, on a call or on the head of its incoming channel. */
  lemma ResponderKeeps(p: Profile, l: Link, act: Action, ab': seq<Frame>)
    requires p.n201 >= 1 && NodeInv(p, l.b) && Handshake(l)
    requires act.DoSendSABME? ==> l.b.s.state != LinkReleased
    requires if act.DoReceive? then l.ab != [] && act.f == l.ab[0] && ab' == l.ab[1..] else ab' == l.ab
    ensures Handshake(l.(b := Track(p, l.b, act), ba := l.ba + Perform(p, l.b.s, act).tx, ab := ab'))
  {
    SentFrames(p, l.b.s, act);
    Transitions(p, l.b.s, act);
    var tx := Perform(p, l.b.s, act).tx;
    var b' := Track(p, l.b, act);
    var ba' := l.ba + tx;
    assert forall i :: 0 <= i < |ba'| ==> ba'[i] in l.ba || ba'[i] in tx;
    var l' := l.(b := b', ba := ba', ab := ab');
    if act.DoReceive? { TailOfRequests(l.ab); }
  }

  predicate HasRequest(c: seq<Frame>) { exists i :: 0 <= i < |c| && IsSABME(c[i]) }

  lemma TailOfRequests(c: seq<Frame>)
    requires c != []
    requires forall i, j :: 0 <= i < j < |c| && Later(c[i]) ==> !IsSABME(c[j])
    ensures HasRequest(c[1..]) ==> HasRequest(c) && !Later(c[0])
    ensures forall i, j :: 0 <= i < j < |c[1..]| && Later(c[1..][i]) ==> !IsSABME(c[1..][j])
  {
    assert forall i :: 0 <= i < |c[1..]| ==> c[1..][i] == c[i + 1];
  }

  lemma WithoutIsPart(c: seq<Frame>, k: nat)
    requires forall i, j :: 0 <= i < j < |c| && Later(c[i]) ==> !IsSABME(c[j])
    ensures forall i :: 0 <= i < |Without(c, k)| ==> Without(c, k)[i] == c[if i < k then i else i + 1]
    ensures HasRequest(Without(c, k)) ==> HasRequest(c)
    ensures var d := Without(c, k); forall i, j :: 0 <= i < j < |d| && Later(d[i]) ==> !IsSABME(d[j])
  {
  }

  lemma LossKeeps(l: Link, k: nat)
    requires Handshake(l)
    ensures Handshake(l.(ab := Without(l.ab, k))) && Handshake(l.(ba := Without(l.ba, k)))
  {
    WithoutIsPart(l.ab, k);
    var d := Without(l.ba, k);
    assert forall i :: 0 <= i < |d| ==> d[i] in l.ba;
  }
}
