/** Release agreement from the caller's side: an initiator whose request went out only once can trust the answer. */
module SingleRequest {
  import opened Frames
  import opened Entities
  import opened EntityInvariants
  import opened Establishment
  import opened Delivery
  import opened Release

  // ----- Counting requests -----

  /** What the event makes the initiator send. */
  function SentByA(pa: Profile, l: Link, e: Event): seq<Frame> {
    match e
    case CallA(act) => Perform(pa, l.a.s, act).tx
    case DeliverA => if l.ba == [] then [] else Perform(pa, l.a.s, DoReceive(l.ba[0])).tx
    case _ => []
  }

  function Asks(tx: seq<Frame>): nat { if HasRequest(tx) then 1 else 0 }

  /** The establishment requests put on the wire during a run, repetitions included. */
  function Requests(pa: Profile, pb: Profile, l: Link, es: seq<Event>): nat
    decreases |es|
  {
    if es == [] then 0 else Asks(SentByA(pa, l, es[0])) + Requests(pa, pb, Next(pa, pb, l, es[0]), es[1..])
  }

  // ----- Frames that end or confirm something -----

  predicate Final(f: Frame) { f.UFrame? && (((f.uType == UA || f.uType == DM) && f.pf) || f.uType == DISC) }

  predicate NoFinal(c: seq<Frame>) { forall i :: 0 <= i < |c| ==> !Final(c[i]) }

  predicate OneFinal(c: seq<Frame>) { forall i, j :: 0 <= i < j < |c| && Final(c[i]) ==> !Final(c[j]) }

  predicate OneRequest(c: seq<Frame>) { forall i, j :: 0 <= i < j < |c| && IsSABME(c[i]) ==> !IsSABME(c[j]) }

  predicate NoLater(c: seq<Frame>) { forall i :: 0 <= i < |c| ==> !Later(c[i]) }

  /** Neither established nor asking for a link. */
  predicate Down(s: Entity) { !Established(s) && s.state != AwaitingEstablish }

  /** Outside the handshake, a final frame is sent only by a side that goes down, because it was up or was told. */
  predicate FinalIsDown(s: Entity, a: Action, o: Outcome) {
    NoFinal(o.tx) || (a.DoReceive? && IsSABME(a.f))
    || (Down(o.s) && (Connected(s) || (a.DoReceive? && Later(a.f))))
  }

  lemma FinalOnCall(p: Profile, s: Entity, a: Action)
    requires Consistent(p, s) && !a.DoReceive?
    ensures FinalIsDown(s, a, Perform(p, s, a))
  {
  }

  lemma FinalOnI(p: Profile, s: Entity, f: Frame)
    requires f.IFrame?
    ensures NoFinal(ReceiveI(p, s, f).tx)
  {
    hide ProcessAck;
    SentOnAck(p, Settle(s), f.nr);
    var acked := ProcessAck(p, Settle(s), f.nr);
    assert NoFinal(acked.tx) by { assert forall i :: 0 <= i < |acked.tx| ==> acked.tx[i] in acked.tx; }
    AppendKeeps(acked.tx, SequenceI(p, acked.s, f).tx);
  }

  lemma FinalOnS(p: Profile, s: Entity, f: Frame)
    requires f.SFrame?
    ensures NoFinal(ReceiveS(p, s, f).tx) || Down(ReceiveS(p, s, f).s)
  {
    hide ProcessAck;
    SentOnAck(p, Settle(s), f.nr);
    var acked := ProcessAck(p, Settle(s), f.nr);
    assert NoFinal(acked.tx) by { assert forall i :: 0 <= i < |acked.tx| ==> acked.tx[i] in acked.tx; }
    AppendKeeps(acked.tx, AnswerS(acked.s, f).tx);
  }

  lemma FinalOnU(p: Profile, s: Entity, f: Frame)
    requires f.UFrame? && f.address.sapi == s.sapi
    ensures FinalIsDown(s, DoReceive(f), ReceiveU(p, s, f))
  {
    match f.uType {
      case SABME => assert IsSABME(f);
      case UA => assert ReceiveU(p, s, f) == ReceiveUA(s, f);
      case DM => assert ReceiveU(p, s, f) == ReceiveDM(p, s, f);
      case DISC => assert ReceiveU(p, s, f) == ReceiveDISC(s, f);
      case UI =>
    }
  }

  lemma FinalFrames(p: Profile, s: Entity, a: Action)
    requires Consistent(p, s)
    ensures FinalIsDown(s, a, Perform(p, s, a))
  {
    hide ReceiveI, ReceiveS, ReceiveU;
    if a.DoReceive? {
      if a.f.address.sapi == s.sapi {
        match a.f {
          case IFrame(_, _, _, _, _, _) => FinalOnI(p, s, a.f);
          case SFrame(_, _, _, _) => FinalOnS(p, s, a.f);
          case UFrame(_, _, _, _, _) => FinalOnU(p, s, a.f);
        }
      }
    } else {
      FinalOnCall(p, s, a);
    }
  }

  /** A request that starts no link at a side that is down draws no answer. */
  lemma RequestIgnored(p: Profile, s: Entity, f: Frame)
    requires IsSABME(f) && Down(s) && !Connected(s) && !StartsLink(s, DoReceive(f))
    ensures NoFinal(Perform(p, s, DoReceive(f)).tx)
  {
    if f.address.sapi == s.sapi { assert Perform(p, s, DoReceive(f)) == ReceiveSABME(s, f); }
  }

  /** A request goes out alone, and asking for a link is sending one. */
  lemma RequestAlone(p: Profile, s: Entity, a: Action)
    requires Consistent(p, s)
    ensures var tx := Perform(p, s, a).tx; HasRequest(tx) ==> |tx| == 1
    ensures a.DoSendSABME? && s.state == LinkReleased ==> HasRequest(Perform(p, s, a).tx)
  {
    SentFrames(p, s, a);
    var tx := Perform(p, s, a).tx;
    if HasRequest(tx) {
      var i :| 0 <= i < |tx| && IsSABME(tx[i]);
      assert Fits(s, a, tx[i]);
      if a.DoReceive? { NoRequestOnReceive(p, s, a.f); }
    }
    if a.DoSendSABME? && s.state == LinkReleased { assert IsSABME(tx[0]); }
  }

  lemma NoRequestOnReceive(p: Profile, s: Entity, f: Frame)
    requires Consistent(p, s)
    ensures !HasRequest(Perform(p, s, DoReceive(f)).tx)
  {
    hide ReceiveI, ReceiveS, ReceiveU;
    if f.address.sapi == s.sapi {
      match f {
        case IFrame(_, _, _, _, _, _) => SentOnI(p, s, f);
        case SFrame(_, _, _, _) => SentOnS(p, s, f);
        case UFrame(_, _, _, _, _) => SentOnU(p, s, f);
      }
    }
  }

  // ----- The handshake with a single request -----

  /** `k` requests so far, at most one. */
  predicate Once(l: Link, k: nat) {
    && k <= 1
    && (k == 0 ==> l.a.h.links == 0 && l.a.s.state != AwaitingEstablish && !HasRequest(l.ab) && l.b.h.links == 0)
    && OneRequest(l.ab)
    && (HasRequest(l.ab) ==> l.b.h.links == 0)
    && (l.b.h.links == 0 ==> NoFinal(l.ba) && NoLater(l.ba) && l.a.h.links == 0)
    && (Established(l.b.s) ==> OneFinal(l.ba) && (NoFinal(l.ba) || l.a.h.links == 0))
    && (NoFinal(l.ab) || (k == 1 && Down(l.a.s)))
  }

  lemma PartKeeps(c: seq<Frame>, d: seq<Frame>)
    requires d == c || (c != [] && d == c[1..])
    ensures NoFinal(c) ==> NoFinal(d)
    ensures NoLater(c) ==> NoLater(d)
    ensures OneFinal(c) ==> OneFinal(d)
    ensures OneFinal(c) && c != [] && d == c[1..] && Final(c[0]) ==> NoFinal(d)
    ensures OneRequest(c) ==> OneRequest(d)
    ensures OneRequest(c) && c != [] && d == c[1..] && IsSABME(c[0]) ==> !HasRequest(d)
    ensures HasRequest(d) ==> HasRequest(c)
  {
    if c != [] && d == c[1..] { assert forall i :: 0 <= i < |d| ==> d[i] == c[i + 1]; }
  }

  lemma AppendKeeps(c: seq<Frame>, tx: seq<Frame>)
    ensures NoFinal(c + tx) <==> NoFinal(c) && NoFinal(tx)
    ensures NoLater(c) && NoLater(tx) ==> NoLater(c + tx)
    ensures HasRequest(c + tx) <==> HasRequest(c) || HasRequest(tx)
    ensures OneRequest(c) && !HasRequest(tx) ==> OneRequest(c + tx)
    ensures !HasRequest(c) && |tx| <= 1 ==> OneRequest(c + tx)
    ensures OneFinal(c) && NoFinal(tx) ==> OneFinal(c + tx)
    ensures NoFinal(c) && |tx| <= 1 ==> OneFinal(c + tx)
  {
    var d := c + tx;
    assert forall i :: 0 <= i < |c| ==> d[i] == c[i];
    assert forall i :: 0 <= i < |tx| ==> d[|c| + i] == tx[i];
    assert forall i :: |c| <= i < |d| ==> d[i] == tx[i - |c|];
  }

  /** The initiator's node after an action: one more link, or as many as before. */
  lemma LinksAfter(p: Profile, n: Node, a: Action)
    ensures Track(p, n, a).h.links == if StartsLink(n.s, a) then n.h.links + 1 else n.h.links
  {
  }

  /** The initiator acts, on a call or on the head of its channel. */
  lemma InitiatorOnce(p: Profile, l: Link, act: Action, ba': seq<Frame>, k: nat)
    requires p.n201 >= 1 && NodeInv(p, l.a) && Handshake(l) && Once(l, k)
    requires if act.DoReceive? then l.ba != [] && act.f == l.ba[0] && ba' == l.ba[1..] else ba' == l.ba
    requires k + Asks(Perform(p, l.a.s, act).tx) <= 1
    ensures var tx := Perform(p, l.a.s, act).tx;
      Once(l.(a := Track(p, l.a, act), ab := l.ab + tx, ba := ba'), k + Asks(tx))
  {
    hide Perform, Track, Linked, Frozen, HasRequest, NoFinal, NoLater, OneFinal, OneRequest;
    var s, tx := l.a.s, Perform(p, l.a.s, act).tx;
    LinksAfter(p, l.a, act);
    StateAfter(p, l.a, act);
    Transitions(p, s, act);
    RequestAlone(p, s, act);
    FinalFrames(p, s, act);
    PartKeeps(l.ba, ba');
    AppendKeeps(l.ab, tx);
    if act.DoReceive? { HeadFacts(l.ba); }
  }

  lemma StateAfter(p: Profile, n: Node, a: Action)
    ensures Track(p, n, a).s == Perform(p, n.s, a).s
  {
  }

  lemma HeadFacts(c: seq<Frame>)
    requires c != []
    ensures NoFinal(c) ==> !Final(c[0])
    ensures NoLater(c) ==> !Later(c[0])
    ensures IsSABME(c[0]) ==> HasRequest(c)
  {
  }

  /** The responder acts, on a call or on the head of its channel. */
  lemma ResponderOnce(p: Profile, l: Link, act: Action, ab': seq<Frame>, k: nat)
    requires p.n201 >= 1 && NodeInv(p, l.b) && Handshake(l) && Once(l, k)
    requires act.DoSendSABME? ==> l.b.s.state != LinkReleased
    requires if act.DoReceive? then l.ab != [] && act.f == l.ab[0] && ab' == l.ab[1..] else ab' == l.ab
    requires StartsLink(l.b.s, act) ==> l.b.h.links == 0
    ensures var tx := Perform(p, l.b.s, act).tx;
      Once(l.(b := Track(p, l.b, act), ba := l.ba + tx, ab := ab'), k)
  {
    hide Perform, Track, Linked, Frozen, HasRequest, NoFinal, NoLater, OneFinal, OneRequest;
    var s, tx := l.b.s, Perform(p, l.b.s, act).tx;
    LinksAfter(p, l.b, act);
    StateAfter(p, l.b, act);
    Transitions(p, s, act);
    FinalFrames(p, s, act);
    LaterSent(p, s, act);
    PartKeeps(l.ab, ab');
    AppendKeeps(l.ba, tx);
    if act.DoReceive? {
      HeadFacts(l.ab);
      if IsSABME(act.f) { RequestAnswered(p, s, act.f); }
      if Later(act.f) { assert l.a.h.links >= 1; }
    }
    if l.b.h.links == 0 && !StartsLink(s, act) && act.DoReceive? && IsSABME(act.f) { RequestIgnored(p, s, act.f); }
  }

  lemma LaterSent(p: Profile, s: Entity, a: Action)
    requires Consistent(p, s)
    ensures !Connected(s) ==> NoLater(Perform(p, s, a).tx)
  {
    SentFrames(p, s, a);
    var tx := Perform(p, s, a).tx;
    assert forall i :: 0 <= i < |tx| ==> Fits(s, a, tx[i]);
  }

  lemma RequestAnswered(p: Profile, s: Entity, f: Frame)
    requires IsSABME(f)
    ensures |Perform(p, s, DoReceive(f)).tx| <= 1
  {
    if f.address.sapi == s.sapi { ReceiveUPlain(p, s, f); }
  }

  lemma LossOnce(l: Link, i: nat, k: nat)
    requires Once(l, k)
    ensures Once(l.(ab := Without(l.ab, i)), k) && Once(l.(ba := Without(l.ba, i)), k)
  {
    LossKeepsPart(l.ab, i);
    LossKeepsPart(l.ba, i);
    hide HasRequest, NoFinal, NoLater, OneFinal, OneRequest, Without;
  }

  lemma LossKeepsPart(c: seq<Frame>, k: nat)
    ensures var d := Without(c, k);
      && (NoFinal(c) ==> NoFinal(d)) && (NoLater(c) ==> NoLater(d)) && (HasRequest(d) ==> HasRequest(c))
      && (OneFinal(c) ==> OneFinal(d)) && (OneRequest(c) ==> OneRequest(d))
  {
    var d := Without(c, k);
    assert forall i :: 0 <= i < |d| ==> d[i] == c[if k < |c| && i >= k then i + 1 else i];
  }

  lemma NextOnce(pa: Profile, pb: Profile, l: Link, e: Event, k: nat)
    requires pa.n201 >= 1 && pb.n201 >= 1 && LinkInv(pa, pb, l) && Permitted(l, e) && Once(l, k)
    requires k + Asks(SentByA(pa, l, e)) <= 1
    ensures Once(Next(pa, pb, l, e), k + Asks(SentByA(pa, l, e)))
  {
    hide Once, NodeInv, Handshake, Perform, Track;
    match e {
      case CallA(act) => InitiatorOnce(pa, l, act, l.ba, k);
      case CallB(act) => ResponderOnce(pb, l, act, l.ab, k);
      case DeliverA => if l.ba != [] { InitiatorOnce(pa, l, DoReceive(l.ba[0]), l.ba[1..], k); }
      case DeliverB =>
        if l.ab != [] {
          RequestsAreHarmless(l);
          ResponderOnce(pb, l, DoReceive(l.ab[0]), l.ab[1..], k);
        }
      case LoseToA(i) => LossOnce(l, i, k);
      case LoseToB(i) => LossOnce(l, i, k);
    }
  }

  lemma {:induction false} RunOnce(pa: Profile, pb: Profile, l: Link, es: seq<Event>, k: nat)
    requires pa.n201 >= 1 && pb.n201 >= 1 && LinkInv(pa, pb, l) && PermittedRun(pa, pb, l, es) && Once(l, k)
    requires k + Requests(pa, pb, l, es) <= 1
    ensures Once(Run(pa, pb, l, es), k + Requests(pa, pb, l, es))
    decreases |es|
  {
    hide Once, LinkInv, Next, Permitted, SentByA, Asks;
    if es != [] {
      NextOnce(pa, pb, l, es[0], k);
      NextInv(pa, pb, l, es[0]);
      RunOnce(pa, pb, Next(pa, pb, l, es[0]), es[1..], k + Asks(SentByA(pa, l, es[0])));
    }
  }

  /** A link that came up with a single request carries no frame that could confirm a release. */
  lemma NothingStray(pa: Profile, pb: Profile, l: Link, k: nat)
    requires pa.n201 >= 1 && pb.n201 >= 1 && LinkInv(pa, pb, l) && Once(l, k)
    requires Established(l.a.s) && Established(l.b.s)
    ensures NoRequests(l.ab) && NoRequests(l.ba) && NoFinal(l.ab) && NoFinal(l.ba)
  {
  }

  /**
   Release agreement on every link that came up with one request: over every permitted run from two released sides
   in which the initiator put a single SABME on the wire, whenever both sides are established, every release that is
   confirmed from then on finds the peer down.
   */
  lemma SingleRequestAgrees(pa: Profile, pb: Profile, l: Link, es: seq<Event>)
    requires pa.n201 >= 1 && pb.n201 >= 1 && l.ab == [] && l.ba == [] && Opened(pa, l.a) && Opened(pb, l.b)
    requires PermittedRun(pa, pb, l, es) && Requests(pa, pb, l, es) <= 1
    ensures var l' := Run(pa, pb, l, es); Established(l'.a.s) && Established(l'.b.s) ==> AlwaysAgrees(pa, pb, l')
  {
    hide LinkInv, Run, PermittedRun, Requests, AlwaysAgrees;
    InitialInv(pa, pb, l);
    RunOnce(pa, pb, l, es, 0);
    ReachableInv(pa, pb, l, es);
    var l' := Run(pa, pb, l, es);
    if Established(l'.a.s) && Established(l'.b.s) {
      NothingStray(pa, pb, l', Requests(pa, pb, l, es));
      AgreesWithoutStray(pa, pb, l');
    }
  }

  lemma AgreesWithoutStray(pa: Profile, pb: Profile, l: Link)
    requires pa.n201 >= 1 && pb.n201 >= 1 && LinkInv(pa, pb, l) && Established(l.a.s) && Established(l.b.s)
    requires NoRequests(l.ab) && NoRequests(l.ba) && NoFinal(l.ab) && NoFinal(l.ba)
    ensures AlwaysAgrees(pa, pb, l)
  {
    hide Handshake, Recorded, Consistent, AlwaysAgrees;
    ReleaseAgreement(pa, pb, l);
  }
}
