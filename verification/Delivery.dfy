/** Safety of the link over whole runs: in-order, exactly-once delivery of whole messages. */
module Delivery {
  import opened Frames
  import opened Segmentation
  import opened Entities
  import opened EntityInvariants
  import opened Window
  import opened LinkSystem
  import opened Establishment

  // ----- One event -----

  lemma CallAInv(pa: Profile, pb: Profile, l: Link, act: Action)
    requires pa.n201 >= 1 && pb.n201 >= 1 && LinkInv(pa, pb, l) && Permitted(l, CallA(act))
    ensures LinkInv(pa, pb, Next(pa, pb, l, CallA(act)))
  {
    hide NodeInv, Direction, Perform, Track;
    TrackInv(pa, l.a, act);
    CallSynced(pa, l.a, ViewOf(l.b), l.ab, l.ba, act);
    InitiatorKeeps(pa, l, act, l.ba);
  }

  lemma CallBInv(pa: Profile, pb: Profile, l: Link, act: Action)
    requires pa.n201 >= 1 && pb.n201 >= 1 && LinkInv(pa, pb, l) && Permitted(l, CallB(act))
    ensures LinkInv(pa, pb, Next(pa, pb, l, CallB(act)))
  {
    hide NodeInv, Direction, Perform, Track;
    TrackInv(pb, l.b, act);
    CallSynced(pb, l.b, ViewOf(l.a), l.ba, l.ab, act);
    ResponderKeeps(pb, l, act, l.ab);
  }

  lemma DeliverAInv(pa: Profile, pb: Profile, l: Link)
    requires pa.n201 >= 1 && pb.n201 >= 1 && LinkInv(pa, pb, l) && l.ba != []
    ensures LinkInv(pa, pb, Next(pa, pb, l, DeliverA))
  {
    hide NodeInv, Direction, Perform, Track;
    var act := DoReceive(l.ba[0]);
    TrackInv(pa, l.a, act);
    InitiatorKeeps(pa, l, act, l.ba[1..]);
    ReceiveSynced(pa, l.a, ViewOf(l.b), l.ab, l.ba);
  }

  lemma DeliverBInv(pa: Profile, pb: Profile, l: Link)
    requires pa.n201 >= 1 && pb.n201 >= 1 && LinkInv(pa, pb, l) && Permitted(l, DeliverB) && l.ab != []
    ensures LinkInv(pa, pb, Next(pa, pb, l, DeliverB))
  {
    hide NodeInv, Direction, Perform, Track;
    var act := DoReceive(l.ab[0]);
    TrackInv(pb, l.b, act);
    ResponderKeeps(pb, l, act, l.ab[1..]);
    RequestsAreHarmless(l);
    ReceiveSynced(pb, l.b, ViewOf(l.a), l.ba, l.ab);
  }

  /** A request at the head of the channel never restarts an established responder. */
  lemma RequestsAreHarmless(l: Link)
    requires Handshake(l) && Permitted(l, DeliverB) && l.ab != []
    ensures StartsLink(l.b.s, DoReceive(l.ab[0])) ==> l.b.h.links == 0
  {
    if IsSABME(l.ab[0]) {
      assert HasRequest(l.ab);
    }
  }

  lemma LossInv(pa: Profile, pb: Profile, l: Link, k: nat)
    requires pa.n201 >= 1 && pb.n201 >= 1 && LinkInv(pa, pb, l)
    ensures LinkInv(pa, pb, Next(pa, pb, l, LoseToA(k))) && LinkInv(pa, pb, Next(pa, pb, l, LoseToB(k)))
  {
    hide NodeInv, Direction, Perform, Track;
    LossKeeps(l, k);
    if k < |l.ab| { Drop(ViewOf(l.a), ViewOf(l.b), l.ab, l.ba, k); }
    if k < |l.ba| { Drop(ViewOf(l.b), ViewOf(l.a), l.ba, l.ab, k); }
  }

  /** Every permitted event keeps the link in step. */
  lemma NextInv(pa: Profile, pb: Profile, l: Link, e: Event)
    requires pa.n201 >= 1 && pb.n201 >= 1 && LinkInv(pa, pb, l) && Permitted(l, e)
    ensures LinkInv(pa, pb, Next(pa, pb, l, e))
  {
    match e {
      case CallA(act) => CallAInv(pa, pb, l, act);
      case CallB(act) => CallBInv(pa, pb, l, act);
      case DeliverA => if l.ba != [] { DeliverAInv(pa, pb, l); }
      case DeliverB => if l.ab != [] { DeliverBInv(pa, pb, l); }
      case LoseToA(k) => LossInv(pa, pb, l, k);
      case LoseToB(k) => LossInv(pa, pb, l, k);
    }
  }

  // ----- The outstanding frame is guarded by T200 -----

  /** While a segment is unacknowledged, T200 runs and that segment is the pending frame. */
  predicate Guarded(s: Entity) {
    Established(s) && s.va != s.vs ==> s.t200.Armed? && s.pending.PendingI?
  }

  lemma AckGuarded(p: Profile, s: Entity, nr: Seq8)
    requires Guarded(s) && (nr == s.va || nr == s.vs)
    ensures Guarded(ProcessAck(p, s, nr).s)
  {
  }

  lemma IGuarded(p: Profile, s: Entity, f: Frame)
    requires Guarded(s) && f.IFrame? && (Established(s) ==> f.nr == s.va || f.nr == s.vs)
    ensures Guarded(ReceiveI(p, s, f).s)
  {
    if Established(s) { AckGuarded(p, Settle(s), f.nr); }
  }

  lemma SGuarded(p: Profile, s: Entity, f: Frame)
    requires Guarded(s) && f.SFrame? && (Established(s) ==> f.nr == s.va || f.nr == s.vs)
    ensures Guarded(ReceiveS(p, s, f).s)
  {
    if Established(s) {
      AckGuarded(p, Settle(s), f.nr);
      AnswerSPlain(ProcessAck(p, Settle(s), f.nr).s, f);
    }
  }

  lemma UGuarded(p: Profile, s: Entity, f: Frame)
    requires Guarded(s) && f.UFrame? && f.address.sapi == s.sapi
    ensures Guarded(ReceiveU(p, s, f).s)
  {
    if StartsLink(s, DoReceive(f)) {
      ReceiveUStarts(p, s, f);
    } else {
      ReceiveUKeeps(p, s, f);
      TimerKept(p, s, f);
    }
  }

  lemma TimerKept(p: Profile, s: Entity, f: Frame)
    requires f.UFrame? && f.address.sapi == s.sapi && !StartsLink(s, DoReceive(f))
    ensures var s' := ReceiveU(p, s, f).s; Established(s') ==> Established(s) && (s.t200.Armed? ==> s'.t200.Armed?)
  {
    match f.uType {
      case SABME => assert ReceiveU(p, s, f) == ReceiveSABME(s, f);
      case UA => assert ReceiveU(p, s, f) == ReceiveUA(s, f);
      case DM => assert ReceiveU(p, s, f) == ReceiveDM(p, s, f);
      case DISC => assert ReceiveU(p, s, f) == ReceiveDISC(s, f);
      case UI =>
    }
  }

  lemma CallGuarded(p: Profile, s: Entity, a: Action)
    requires Guarded(s) && !a.DoReceive?
    ensures Guarded(Perform(p, s, a).s)
  {
  }

  /** The N(R) at the head of the channel is V(A) or V(S). */
  lemma HeadInWindow(x: End, y: End, xy: seq<Frame>, yx: seq<Frame>)
    requires Synced(x, y, xy, yx) && x.live && yx != [] && Numbered(yx[0])
    ensures yx[0].nr == x.va || yx[0].nr == x.vs
  {
  }

  lemma ReceiveGuarded(p: Profile, n: Node, y: End, xy: seq<Frame>, yx: seq<Frame>)
    requires Guarded(n.s) && Synced(ViewOf(n), y, xy, yx) && yx != []
    ensures Guarded(Perform(p, n.s, DoReceive(yx[0])).s)
  {
    var f := yx[0];
    if f.address.sapi == n.s.sapi {
      if Established(n.s) && Numbered(f) { HeadInWindow(ViewOf(n), y, xy, yx); }
      match f {
        case IFrame(_, _, _, _, _, _) => IGuarded(p, n.s, f);
        case SFrame(_, _, _, _) => SGuarded(p, n.s, f);
        case UFrame(_, _, _, _, _) => UGuarded(p, n.s, f);
      }
    }
  }

  lemma NextGuarded(pa: Profile, pb: Profile, l: Link, e: Event)
    requires pa.n201 >= 1 && pb.n201 >= 1 && LinkInv(pa, pb, l) && Permitted(l, e)
    requires Guarded(l.a.s) && Guarded(l.b.s)
    ensures var l' := Next(pa, pb, l, e); Guarded(l'.a.s) && Guarded(l'.b.s)
  {
    match e {
      case CallA(act) => CallGuarded(pa, l.a.s, act);
      case CallB(act) => CallGuarded(pb, l.b.s, act);
      case DeliverA => if l.ba != [] { ReceiveGuarded(pa, l.a, ViewOf(l.b), l.ab, l.ba); }
      case DeliverB => if l.ab != [] { ReceiveGuarded(pb, l.b, ViewOf(l.a), l.ba, l.ab); }
      case _ =>
    }
  }

  // ----- Whole runs -----

  lemma InitialNode(p: Profile, n: Node)
    requires p.n201 >= 1 && (Opened(p, n) || FreshlyLinked(p, n))
    ensures NodeInv(p, n) && Guarded(n.s)
    ensures ViewOf(n) == End(true, 0, 0, 0, [], [])
  {
    EmptyLinked(p, n.s.(pending := NoPending), n.h.links);
  }

  lemma InitialInv(pa: Profile, pb: Profile, l: Link)
    requires pa.n201 >= 1 && pb.n201 >= 1 && Initial(pa, pb, l)
    ensures LinkInv(pa, pb, l) && Guarded(l.a.s) && Guarded(l.b.s)
  {
    hide NodeInv;
    InitialNode(pa, l.a);
    InitialNode(pb, l.b);
  }

  function Run(pa: Profile, pb: Profile, l: Link, es: seq<Event>): Link
    decreases |es|
  {
    if es == [] then l else Run(pa, pb, Next(pa, pb, l, es[0]), es[1..])
  }

  predicate PermittedRun(pa: Profile, pb: Profile, l: Link, es: seq<Event>)
    decreases |es|
  {
    es == [] || (Permitted(l, es[0]) && PermittedRun(pa, pb, Next(pa, pb, l, es[0]), es[1..]))
  }

  lemma {:induction false} RunInv(pa: Profile, pb: Profile, l: Link, es: seq<Event>)
    requires pa.n201 >= 1 && pb.n201 >= 1 && LinkInv(pa, pb, l) && Guarded(l.a.s) && Guarded(l.b.s)
    requires PermittedRun(pa, pb, l, es)
    ensures var l' := Run(pa, pb, l, es); LinkInv(pa, pb, l') && Guarded(l'.a.s) && Guarded(l'.b.s)
    decreases |es|
  {
    if es != [] {
      NextInv(pa, pb, l, es[0]);
      NextGuarded(pa, pb, l, es[0]);
      RunInv(pa, pb, Next(pa, pb, l, es[0]), es[1..]);
    }
  }

  lemma ReachableInv(pa: Profile, pb: Profile, l: Link, es: seq<Event>)
    requires pa.n201 >= 1 && pb.n201 >= 1 && Initial(pa, pb, l) && PermittedRun(pa, pb, l, es)
    ensures var l' := Run(pa, pb, l, es); LinkInv(pa, pb, l') && Guarded(l'.a.s) && Guarded(l'.b.s)
  {
    InitialInv(pa, pb, l);
    RunInv(pa, pb, l, es);
  }

  /** What one side delivers is an initial part of what the other accepted, and all of it once the sender is idle. */
  predicate InOrder(sender: Node, receiver: Node) {
    && receiver.h.delivered <= sender.h.queued
    && (Established(sender.s) && sender.s.va == sender.s.vs ==> receiver.h.delivered == sender.h.queued)
  }

  lemma InOrderFrom(p: Profile, q: Profile, x: Node, y: Node, xy: seq<Frame>, yx: seq<Frame>)
    requires p.n201 >= 1 && q.n201 >= 1 && NodeInv(p, x) && NodeInv(q, y)
    requires Synced(ViewOf(x), ViewOf(y), xy, yx)
    ensures InOrder(x, y)
  {
    assert y.h.rcvd <= x.h.sent <= AllSegments(p.n201, x.h.queued);
    AssemblePrefix(p.n201, x.h.queued, y.h.rcvd);
    if Established(x.s) && x.s.va == x.s.vs {
      assert x.h.sent + AllSegments(p.n201, []) == AllSegments(p.n201, x.h.queued);
      assert x.h.sent + [] == x.h.sent;
      assert y.h.rcvd == x.h.sent;
      AssembleInvertsSegmentation(p.n201, x.h.queued);
    }
  }

  /**
   The delivery theorem. From two released or two freshly established entities, over every run of permitted
   events, each side delivers whole messages in order, without duplicate, gap or alteration; the modulo-8
   counters stand for exact unbounded ones; and an unacknowledged segment is always guarded by T200.
   */
  lemma InOrderDelivery(pa: Profile, pb: Profile, l: Link, es: seq<Event>)
    requires pa.n201 >= 1 && pb.n201 >= 1 && Initial(pa, pb, l) && PermittedRun(pa, pb, l, es)
    ensures var l' := Run(pa, pb, l, es);
      && InOrder(l'.a, l'.b) && InOrder(l'.b, l'.a)
      && Guarded(l'.a.s) && Guarded(l'.b.s)
  {
    ReachableInv(pa, pb, l, es);
    var l' := Run(pa, pb, l, es);
    InOrderFrom(pa, pb, l'.a, l'.b, l'.ab, l'.ba);
    InOrderFrom(pb, pa, l'.b, l'.a, l'.ba, l'.ab);
  }

  /** One direction with unbounded counters: what is acknowledged, accepted and sent, and what is in flight. */
  predicate ExactCounters(x: Node, y: Node, xy: seq<Frame>, yx: seq<Frame>) {
    var acked := Acknowledged(ViewOf(x));
    && 0 <= acked <= |y.h.rcvd| <= |x.h.sent| <= acked + 1
    && x.s.va == acked % 8 && x.s.vs == |x.h.sent| % 8
    && y.h.rcvd <= x.h.sent
    && (forall i :: 0 <= i < |xy| && xy[i].IFrame? ==> xy[i].ns == |y.h.rcvd| % 8 || xy[i].ns == (|y.h.rcvd| - 1) % 8)
    && (forall i :: 0 <= i < |yx| && Numbered(yx[i]) ==> yx[i].nr == acked % 8 || yx[i].nr == |y.h.rcvd| % 8)
    && (forall i, j :: 0 <= i < j < |yx| && Numbered(yx[i]) && Numbered(yx[j]) && yx[i].nr == |y.h.rcvd| % 8
          ==> yx[j].nr == |y.h.rcvd| % 8)
  }

  lemma ExactFrom(x: Node, y: Node, xy: seq<Frame>, yx: seq<Frame>)
    requires Synced(ViewOf(x), ViewOf(y), xy, yx)
    ensures Established(x.s) ==> ExactCounters(x, y, xy, yx)
  {
    if Established(x.s) { CountersExact(ViewOf(x), ViewOf(y), xy, yx); }
  }

  /** Over every permitted run the modulo-8 tests are exact on every established side. */
  lemma ExactSequenceNumbers(pa: Profile, pb: Profile, l: Link, es: seq<Event>)
    requires pa.n201 >= 1 && pb.n201 >= 1 && Initial(pa, pb, l) && PermittedRun(pa, pb, l, es)
    ensures var l' := Run(pa, pb, l, es);
      && (Established(l'.a.s) ==> ExactCounters(l'.a, l'.b, l'.ab, l'.ba))
      && (Established(l'.b.s) ==> ExactCounters(l'.b, l'.a, l'.ba, l'.ab))
  {
    ReachableInv(pa, pb, l, es);
    var l' := Run(pa, pb, l, es);
    ExactFrom(l'.a, l'.b, l'.ab, l'.ba);
    ExactFrom(l'.b, l'.a, l'.ba, l'.ab);
  }

  /** A request to an established entity that is answered or ignored: no reset, no release, nothing reported. */
  predicate Harmless(p: Profile, s: Entity, f: Frame) {
    var o := Perform(p, s, DoReceive(f));
    Established(o.s) && o.s == s.(state := o.s.state) && o.up == [] && !StartsLink(s, DoReceive(f))
  }

  lemma RequestInWindow(p: Profile, s: Entity, f: Frame)
    requires Established(s) && s.establishing && IsSABME(f)
    ensures Harmless(p, s, f)
  {
    if f.address.sapi == s.sapi {
      assert Perform(p, s, DoReceive(f)) == ReceiveSABME(s, f);
    }
  }

  /**
   However often the request was repeated and however late a copy arrives, it changes none of the data of an
   established responder.
   */
  lemma LateRequestIsHarmless(pa: Profile, pb: Profile, l: Link, es: seq<Event>)
    requires pa.n201 >= 1 && pb.n201 >= 1 && Initial(pa, pb, l) && PermittedRun(pa, pb, l, es)
    ensures var l' := Run(pa, pb, l, es);
      l'.ab != [] && IsSABME(l'.ab[0]) && Established(l'.b.s) ==> Harmless(pb, l'.b.s, l'.ab[0])
  {
    ReachableInv(pa, pb, l, es);
    var l' := Run(pa, pb, l, es);
    if l'.ab != [] && IsSABME(l'.ab[0]) && Established(l'.b.s) {
      assert HasRequest(l'.ab);
      RequestInWindow(pb, l'.b.s, l'.ab[0]);
    }
  }
}
