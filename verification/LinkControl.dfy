/**
 Link control gets through: an establishment and a release, once asked for, complete on both sides whatever was lost
 on the way, as soon as T200 has expired once more and the channels deliver.
 */
module LinkControl {
  import opened Frames
  import opened Segmentation
  import opened Entities
  import opened EntityInvariants
  import opened Establishment
  import opened Delivery
  import opened Release
  import opened Progress
  import opened Answers
  import Contention

  // ----- Establishment -----

  predicate IsAnswer(sapi: Sapi, f: Frame) { f.UFrame? && f.uType == UA && f.pf && f.address.sapi == sapi }

  /** The request of the caller, as the peer hears it. */
  predicate IsRequest(sapi: Sapi, info: Octets, f: Frame) {
    IsSABME(f) && f.pf && f.address.sapi == sapi && f.info == info
  }

  /** A responder that has not been asked yet, or was asked with `info` and has heard nothing else since. */
  predicate AskedFor(s: Entity, info: Octets) {
    && s.t200 == Off && (s.state == LinkReleased || (Established(s) && s.establishing))
    && (s.state == ContentionResolution ==> info != [] && Contention.Contending(s, info))
  }

  /** A caller that waits, or has been answered. */
  predicate Calling(s: Entity, info: Octets) {
    if s.state == AwaitingEstablish then s.pending == PendingSABME(info) && s.t200.Armed?
    else s.state == LinkEstablished && s.t200 == Off
  }

  /** Nothing but repetitions of one request and its answers. */
  predicate Asking(l: Link, info: Octets) {
    && l.a.s.sapi == l.b.s.sapi && Calling(l.a.s, info) && AskedFor(l.b.s, info)
    && (forall f :: f in l.ab ==> IsRequest(l.b.s.sapi, info, f))
    && (forall f :: f in l.ba ==> IsAnswer(l.a.s.sapi, f))
    && (l.a.s.state == LinkEstablished || l.ba != [] ==> Established(l.b.s))
  }

  /** Deliveries, losses, and ticks within the caller's budget. */
  predicate Waiting(pa: Profile, l: Link, e: Event) {
    match e
    case CallA(act) => act.DoTick? && (Expires(l.a.s, act.elapsed) ==> l.a.s.rc <= pa.n200)
    case CallB(act) => act.DoTick?
    case _ => true
  }

  /** The responder hears the request: it is up, and answers once. */
  lemma RequestHeard(p: Profile, s: Entity, info: Octets, f: Frame)
    requires AskedFor(s, info) && IsRequest(s.sapi, info, f)
    ensures var o := Perform(p, s, DoReceive(f));
      && Established(o.s) && AskedFor(o.s, info) && o.s.sapi == s.sapi && |o.tx| == 1 && IsAnswer(s.sapi, o.tx[0])
      && o.up == (if Established(s) then [] else [Indication(L3_ESTABLISH_INDICATION, info)])
  {
    hide Perform;
    if s.state == ContentionResolution {
      Contention.SecondRequest(p, s, info, f);
    } else {
      AnswerToSABME(p, s, f);
      if s.state == LinkReleased && s.sapi == Sapi0 && info != [] { Contention.RequestOpens(p, s, f); }
      else if s.state == LinkReleased { SapiKept(p, s, DoReceive(f)); }
    }
  }

  lemma SapiKept(p: Profile, s: Entity, a: Action)
    requires !a.DoOpen?
    ensures Perform(p, s, a).s.sapi == s.sapi
  {
    hide Perform;
    StepAddressed(p, s, a);
  }

  /** The caller hears an answer: it is up, and says so the first time. */
  lemma AnswerHeard(p: Profile, s: Entity, info: Octets, f: Frame)
    requires Calling(s, info) && IsAnswer(s.sapi, f)
    ensures var o := Perform(p, s, DoReceive(f));
      && o.s.state == LinkEstablished && Calling(o.s, info) && o.s.sapi == s.sapi && o.tx == []
      && o.up == (if s.state == AwaitingEstablish then [Indication(L3_ESTABLISH_CONFIRM, [])] else [])
  {
    hide Perform;
    AnswerToUA(p, s, f);
    SapiKept(p, s, DoReceive(f));
  }

  lemma TickWaits(p: Profile, s: Entity, info: Octets, elapsed: nat)
    requires Calling(s, info) && (Expires(s, elapsed) ==> s.rc <= p.n200)
    ensures var o := Perform(p, s, DoTick(elapsed));
      && Calling(o.s, info) && o.s.state == s.state && o.s.sapi == s.sapi && o.up == []
      && (forall f :: f in o.tx ==> IsRequest(s.sapi, info, f))
      && (s.state == AwaitingEstablish && Expires(s, elapsed) ==> |o.tx| == 1)
  {
  }

  lemma TickOff(p: Profile, s: Entity, info: Octets, elapsed: nat)
    requires AskedFor(s, info)
    ensures Perform(p, s, DoTick(elapsed)) == Outcome(s, [], [])
  {
  }

  /** What the event reports is the news of it: the caller has been answered, the responder has been asked. */
  predicate Reported(pa: Profile, pb: Profile, l: Link, e: Event, info: Octets) {
    var l' := Next(pa, pb, l, e);
    && ReportsA(pa, l, e) == (if l'.a.s.state == l.a.s.state then [] else [Indication(L3_ESTABLISH_CONFIRM, [])])
    && ReportsB(pb, l, e) == (if Established(l'.b.s) == Established(l.b.s) then []
                              else [Indication(L3_ESTABLISH_INDICATION, info)])
  }

  lemma NextAsking(pa: Profile, pb: Profile, l: Link, e: Event, info: Octets)
    requires Asking(l, info) && Waiting(pa, l, e)
    ensures Asking(Next(pa, pb, l, e), info) && Reported(pa, pb, l, e, info)
    ensures Established(l.b.s) ==> Established(Next(pa, pb, l, e).b.s)
  {
    hide Perform, AskedFor, IsRequest, IsAnswer, Track;
    match e {
      case CallA(act) =>
        TickWaits(pa, l.a.s, info, act.elapsed);
        TrackState(pa, l.a, act);
      case CallB(act) =>
        TickOff(pb, l.b.s, info, act.elapsed);
        TrackState(pb, l.b, act);
      case DeliverA =>
        if l.ba != [] {
          AnswerHeard(pa, l.a.s, info, l.ba[0]);
          TrackState(pa, l.a, DoReceive(l.ba[0]));
        }
      case DeliverB =>
        if l.ab != [] {
          RequestHeard(pb, l.b.s, info, l.ab[0]);
          TrackState(pb, l.b, DoReceive(l.ab[0]));
        }
      case LoseToA(k) => assert forall f :: f in Without(l.ba, k) ==> f in l.ba;
      case LoseToB(k) => assert forall f :: f in Without(l.ab, k) ==> f in l.ab;
    }
  }

  predicate WaitingRun(pa: Profile, pb: Profile, l: Link, es: seq<Event>)
    decreases |es|
  {
    es == [] || (Waiting(pa, l, es[0]) && WaitingRun(pa, pb, Next(pa, pb, l, es[0]), es[1..]))
  }

  /** Everything reported to layer 3 of the caller, and of the responder, during a run. */
  function HeardByA(pa: Profile, pb: Profile, l: Link, es: seq<Event>): seq<Indication>
    decreases |es|
  {
    if es == [] then [] else ReportsA(pa, l, es[0]) + HeardByA(pa, pb, Next(pa, pb, l, es[0]), es[1..])
  }

  function HeardByB(pa: Profile, pb: Profile, l: Link, es: seq<Event>): seq<Indication>
    decreases |es|
  {
    if es == [] then [] else ReportsB(pb, l, es[0]) + HeardByB(pa, pb, Next(pa, pb, l, es[0]), es[1..])
  }

  /** Over every such run, each layer 3 is told once, when its side comes up, and nothing else. */
  lemma {:induction false} RunAsking(pa: Profile, pb: Profile, l: Link, es: seq<Event>, info: Octets)
    requires Asking(l, info) && WaitingRun(pa, pb, l, es)
    ensures var l' := Run(pa, pb, l, es);
      && Asking(l', info) && (Established(l.b.s) ==> Established(l'.b.s))
      && (l.a.s.state == LinkEstablished ==> l'.a.s.state == LinkEstablished)
      && HeardByA(pa, pb, l, es) == (if l'.a.s.state == l.a.s.state then [] else [Indication(L3_ESTABLISH_CONFIRM, [])])
      && HeardByB(pa, pb, l, es) == (if Established(l'.b.s) == Established(l.b.s) then []
                                     else [Indication(L3_ESTABLISH_INDICATION, info)])
    decreases |es|
  {
    hide Next, Waiting, Asking, ReportsA, ReportsB;
    if es != [] {
      NextAsking(pa, pb, l, es[0], info);
      CallerStates(pa, pb, l, es[0], info);
      RunAsking(pa, pb, Next(pa, pb, l, es[0]), es[1..], info);
    }
  }

  /** The caller only moves from waiting to established. */
  lemma CallerStates(pa: Profile, pb: Profile, l: Link, e: Event, info: Octets)
    requires Asking(l, info) && Waiting(pa, l, e)
    ensures var s, s' := l.a.s.state, Next(pa, pb, l, e).a.s.state;
      && (s == AwaitingEstablish || s == LinkEstablished) && (s' == AwaitingEstablish || s' == LinkEstablished)
      && (s == LinkEstablished ==> s' == LinkEstablished)
  {
    hide Perform, AskedFor, IsRequest, IsAnswer, Track;
    NextAsking(pa, pb, l, e, info);
    match e {
      case CallA(act) =>
        TickWaits(pa, l.a.s, info, act.elapsed);
        TrackState(pa, l.a, act);
      case DeliverA =>
        if l.ba != [] {
          AnswerHeard(pa, l.a.s, info, l.ba[0]);
          TrackState(pa, l.a, DoReceive(l.ba[0]));
        }
      case _ =>
    }
  }

  /** An unanswered request is on its way, or an answer is. */
  predicate Underway(l: Link) { l.a.s.state == AwaitingEstablish ==> l.ab != [] || l.ba != [] }

  function AskWork(l: Link): nat { 2 * |l.ab| + |l.ba| }

  lemma RoundAsks(pa: Profile, pb: Profile, l: Link, info: Octets)
    requires Asking(l, info) && Underway(l)
    ensures var l' := Next(pa, pb, Next(pa, pb, l, DeliverA), DeliverB);
      && Asking(l', info) && Underway(l') && (l.ab != [] || l.ba != [] ==> AskWork(l') < AskWork(l))
  {
    hide Perform, Asking, Track;
    var l1 := Next(pa, pb, l, DeliverA);
    DeliverAAsks(pa, pb, l, info);
    DeliverBAsks(pa, pb, l1, info);
  }

  lemma DeliverAAsks(pa: Profile, pb: Profile, l: Link, info: Octets)
    requires Asking(l, info) && Underway(l)
    ensures var l' := Next(pa, pb, l, DeliverA);
      && Asking(l', info) && Underway(l') && AskWork(l') == AskWork(l) - (if l.ba == [] then 0 else 1)
      && l'.ab == l.ab
  {
    hide Perform, AskedFor, IsRequest, IsAnswer, Track;
    NextAsking(pa, pb, l, DeliverA, info);
    if l.ba != [] {
      AnswerHeard(pa, l.a.s, info, l.ba[0]);
      TrackState(pa, l.a, DoReceive(l.ba[0]));
      assert l.ab + [] == l.ab;
    }
  }

  lemma DeliverBAsks(pa: Profile, pb: Profile, l: Link, info: Octets)
    requires Asking(l, info) && Underway(l)
    ensures var l' := Next(pa, pb, l, DeliverB);
      Asking(l', info) && Underway(l') && AskWork(l') == AskWork(l) - (if l.ab == [] then 0 else 1)
  {
    hide Perform, AskedFor, IsRequest, IsAnswer, Track, Calling;
    NextAsking(pa, pb, l, DeliverB, info);
    if l.ab != [] { RequestHeard(pb, l.b.s, info, l.ab[0]); }
  }

  lemma {:induction false} AskingDrains(pa: Profile, pb: Profile, l: Link, info: Octets, n: nat)
    requires Asking(l, info) && Underway(l) && n >= AskWork(l)
    ensures var l' := Run(pa, pb, l, Rounds(n));
      l'.ab == [] && l'.ba == [] && l'.a.s.state == LinkEstablished && Established(l'.b.s)
    decreases n
  {
    hide Next, Run, Rounds;
    if l.ab == [] && l.ba == [] {
      StaysQuiet(pa, pb, l, n);
    } else {
      RoundsStep(pa, pb, l, n);
      RoundAsks(pa, pb, l, info);
      AskingDrains(pa, pb, Next(pa, pb, Next(pa, pb, l, DeliverA), DeliverB), info, n - 1);
    }
  }

  /** Two released sides on one SAPI, and the call for a link. */
  function AfterCall(pa: Profile, pb: Profile, l: Link, info: Octets): Link {
    Next(pa, pb, l, CallA(DoSendSABME(info)))
  }

  lemma CallAsks(pa: Profile, pb: Profile, l: Link, info: Octets)
    requires l.ab == [] && l.ba == [] && l.a.s.sapi == l.b.s.sapi
    requires l.a.s.state == LinkReleased && l.b.s.state == LinkReleased && l.b.s.t200 == Off
    ensures var l1 := AfterCall(pa, pb, l, info);
      Asking(l1, info) && Underway(l1) && l1.a.s.state == AwaitingEstablish && l1.b == l.b
  {
  }

  /** T200 of a waiting caller expires. */
  function CallerExpires(pa: Profile, pb: Profile, l: Link): Link {
    if l.a.s.state == AwaitingEstablish then Next(pa, pb, l, CallA(Expiry(l.a.s))) else l
  }

  lemma ExpiryAsks(pa: Profile, pb: Profile, l: Link, info: Octets)
    requires Asking(l, info) && l.a.s.rc <= pa.n200
    ensures var l' := CallerExpires(pa, pb, l); Asking(l', info) && Underway(l')
  {
    hide Perform, AskedFor, IsRequest, IsAnswer, Track;
    if l.a.s.state == AwaitingEstablish {
      NextAsking(pa, pb, l, CallA(Expiry(l.a.s)), info);
      TickWaits(pa, l.a.s, info, Expiry(l.a.s).elapsed);
    }
  }

  /**
   Establishment: between two released sides a call for a link, followed by any deliveries, losses and ticks within
   the budget, comes to this. Each layer 3 has been told of the link at most once, exactly when its side came up. If
   T200 then expires once more at a caller still waiting, plain delivery brings both sides up.
   */
  lemma EstablishmentRecovers(pa: Profile, pb: Profile, l: Link, info: Octets, es: seq<Event>, n: nat)
    requires l.ab == [] && l.ba == [] && l.a.s.sapi == l.b.s.sapi
    requires l.a.s.state == LinkReleased && l.b.s.state == LinkReleased && l.b.s.t200 == Off
    requires WaitingRun(pa, pb, AfterCall(pa, pb, l, info), es)
    requires var l2 := Run(pa, pb, AfterCall(pa, pb, l, info), es);
      l2.a.s.rc <= pa.n200 && n >= AskWork(CallerExpires(pa, pb, l2))
    ensures var l1 := AfterCall(pa, pb, l, info); var l2 := Run(pa, pb, l1, es);
      var l3 := Run(pa, pb, CallerExpires(pa, pb, l2), Rounds(n));
      && HeardByA(pa, pb, l1, es)
         == (if l2.a.s.state == LinkEstablished then [Indication(L3_ESTABLISH_CONFIRM, [])] else [])
      && HeardByB(pa, pb, l1, es)
         == (if Established(l2.b.s) then [Indication(L3_ESTABLISH_INDICATION, info)] else [])
      && l3.a.s.state == LinkEstablished && Established(l3.b.s) && l3.ab == [] && l3.ba == []
  {
    hide Next, Run, Rounds, WaitingRun, HeardByA, HeardByB, AfterCall, CallerExpires, AskWork, Underway;
    CallAsks(pa, pb, l, info);
    var l1 := AfterCall(pa, pb, l, info);
    RunAsking(pa, pb, l1, es, info);
    var l2 := Run(pa, pb, l1, es);
    ExpiryAsks(pa, pb, l2, info);
    AskingDrains(pa, pb, CallerExpires(pa, pb, l2), info, n);
  }

  // ----- Release -----

  /** Supervisory frames as the entities send them, and no request. */
  predicate Tame(c: seq<Frame>) { Usual(c) && NoRequests(c) }

  predicate IsDISC(sapi: Sapi, f: Frame) { f.UFrame? && f.uType == DISC && f.pf && f.address.sapi == sapi }

  predicate HasDISC(c: seq<Frame>, sapi: Sapi) { exists f :: f in c && IsDISC(sapi, f) }

  /** A frame that confirms a release is on its way. */
  predicate HasConfirm(c: seq<Frame>, sapi: Sapi) { exists f :: f in c && Confirms(sapi, f) }

  /** `a` has asked for the release: the DISC is on its way to a peer that is not down yet, or its answer is. */
  predicate Closing(l: Link) {
    && l.a.s.sapi == l.b.s.sapi && Tame(l.ab) && Tame(l.ba)
    && (l.a.s.state == AwaitingRelease || l.a.s.state == LinkReleased)
    && (Connected(l.b.s) || l.b.s.state == LinkReleased)
    && (l.b.s.state != LinkReleased ==> HasDISC(l.ab, l.b.s.sapi))
    && (l.a.s.state == AwaitingRelease ==> HasDISC(l.ab, l.b.s.sapi) || HasConfirm(l.ba, l.a.s.sapi))
  }

  /** What a frame without a request can do to an entity: it stays up, or goes down, and does not start anew. */
  predicate Winds(s: Entity, f: Frame, o: Outcome) {
    && o.s.sapi == s.sapi
    && (Connected(s) || s.state == LinkReleased ==> Connected(o.s) || o.s.state == LinkReleased)
    && (s.state == LinkReleased ==> o.s.state == LinkReleased)
    && (s.state == AwaitingRelease ==>
          (o.s.state == LinkReleased <==> Confirms(s.sapi, f))
          && (o.s.state != LinkReleased ==> o.s.state == AwaitingRelease)
          && (CONFIRM in o.up <==> o.s.state == LinkReleased))
    && (IsDISC(s.sapi, f) && (Connected(s) || s.state == LinkReleased) ==>
          o.s.state == LinkReleased && |o.tx| == 1 && Confirms(s.sapi, o.tx[0]))
    && (s.state == LinkReleased ==> CONFIRM !in o.up)
    && Tame(o.tx)
  }

  lemma WindsU(p: Profile, s: Entity, f: Frame)
    requires f.UFrame? && f.uType != SABME && f.address.sapi == s.sapi
    ensures Winds(s, f, Perform(p, s, DoReceive(f)))
  {
    hide Perform;
    StepAddressed(p, s, DoReceive(f));
    match f.uType {
      case UA => if f.pf { AnswerToUA(p, s, f); } else { Ignored(p, s, f); }
      case DM => if f.pf { AnswerToDM(p, s, f); } else { Ignored(p, s, f); }
      case DISC => AnswerToDISC(p, s, f);
      case UI => WindsUI(p, s, f);
    }
  }

  lemma WindsUI(p: Profile, s: Entity, f: Frame)
    requires f.UFrame? && f.uType == UI && f.address.sapi == s.sapi
    ensures Perform(p, s, DoReceive(f)) == Outcome(s, [], [Indication(L3_UNIT_DATA, f.info)])
  {
  }

  lemma SentTame(p: Profile, s: Entity, f: Frame)
    requires Consistent(p, s)
    ensures Tame(Perform(p, s, DoReceive(f)).tx)
  {
    hide Perform;
    SentUsual(p, s, DoReceive(f));
    SentFrames(p, s, DoReceive(f));
    var tx := Perform(p, s, DoReceive(f)).tx;
    forall i | 0 <= i < |tx| ensures !IsSABME(tx[i]) { NoRequestBack(p, s, f, tx[i]); }
  }

  lemma NoRequestBack(p: Profile, s: Entity, f: Frame, g: Frame)
    requires g in Perform(p, s, DoReceive(f)).tx
    ensures !IsSABME(g)
  {
    if f.address.sapi == s.sapi {
      match f {
        case IFrame(_, _, _, _, _, _) => SentOnI(p, s, f);
        case SFrame(_, _, _, _) => SentOnS(p, s, f);
        case UFrame(_, _, _, _, _) => SentOnU(p, s, f);
      }
    }
  }

  lemma WindsAll(p: Profile, s: Entity, f: Frame)
    requires Consistent(p, s) && (f.SFrame? ==> Benign(f)) && !IsSABME(f)
    ensures Winds(s, f, Perform(p, s, DoReceive(f)))
  {
    hide Perform;
    SentTame(p, s, f);
    StepAddressed(p, s, DoReceive(f));
    if f.address.sapi != s.sapi {
      Ignored(p, s, f);
    } else {
      match f {
        case IFrame(_, _, _, _, _, _) => AnswerToI(p, s, f);
        case SFrame(_, _, _, _) => if Established(s) { AnswerToReady(p, s, f); } else { IdleS(p, s, f); }
        case UFrame(_, _, _, _, _) => WindsU(p, s, f);
      }
    }
  }

  lemma TameParts(c: seq<Frame>, d: seq<Frame>)
    requires Tame(c)
    ensures Tame(d) ==> Tame(c + d)
    ensures c != [] ==> Tame(c[1..]) && !IsSABME(c[0]) && (c[0].SFrame? ==> Benign(c[0]))
  {
    if Tame(d) { assert forall i :: |c| <= i < |c + d| ==> (c + d)[i] == d[i - |c|]; }
    if c != [] { assert forall i :: 0 <= i < |c| - 1 ==> c[1..][i] == c[i + 1]; }
  }

  lemma DISCKept(c: seq<Frame>, sapi: Sapi, tx: seq<Frame>)
    ensures HasDISC(c, sapi) ==> HasDISC(c + tx, sapi)
    ensures c != [] && HasDISC(c, sapi) && !IsDISC(sapi, c[0]) ==> HasDISC(c[1..], sapi)
  {
    if HasDISC(c, sapi) {
      var f :| f in c && IsDISC(sapi, f);
      assert f in c + tx;
      if !IsDISC(sapi, c[0]) { InTail(c, f); }
    }
  }

  lemma ConfirmKept(c: seq<Frame>, sapi: Sapi, tx: seq<Frame>)
    ensures HasConfirm(c, sapi) ==> HasConfirm(c + tx, sapi)
    ensures c != [] && HasConfirm(c, sapi) && !Confirms(sapi, c[0]) ==> HasConfirm(c[1..], sapi)
    ensures HasConfirm(tx, sapi) ==> HasConfirm(c + tx, sapi)
  {
    if HasConfirm(c, sapi) {
      var f :| f in c && Confirms(sapi, f);
      assert f in c + tx;
      if !Confirms(sapi, c[0]) { InTail(c, f); }
    }
    if HasConfirm(tx, sapi) {
      var f :| f in tx && Confirms(sapi, f);
      assert f in c + tx;
    }
  }

  lemma DeliverACloses(pa: Profile, pb: Profile, l: Link)
    requires Consistent(pa, l.a.s) && Closing(l) && l.ba != []
    ensures var l' := Next(pa, pb, l, DeliverA);
      && Closing(l') && l'.b == l.b
      && (CONFIRM in ReportsA(pa, l, DeliverA) <==> l.a.s.state != l'.a.s.state)
  {
    hide Perform, Track, Tame, HasDISC, HasConfirm, Confirms;
    var f := l.ba[0];
    var o := Perform(pa, l.a.s, DoReceive(f));
    TameParts(l.ba, []);
    WindsAll(pa, l.a.s, f);
    TrackState(pa, l.a, DoReceive(f));
    TameParts(l.ab, o.tx);
    DISCKept(l.ab, l.b.s.sapi, o.tx);
    ConfirmKept(l.ba, l.a.s.sapi, []);
  }

  lemma DeliverBCloses(pa: Profile, pb: Profile, l: Link)
    requires Consistent(pb, l.b.s) && Closing(l) && l.ab != []
    ensures var l' := Next(pa, pb, l, DeliverB); Closing(l') && l'.a == l.a
  {
    hide Perform, Track, Tame, HasDISC, Confirms;
    var f := l.ab[0];
    var o := Perform(pb, l.b.s, DoReceive(f));
    TameParts(l.ab, []);
    WindsAll(pb, l.b.s, f);
    TrackState(pb, l.b, DoReceive(f));
    TameParts(l.ba, o.tx);
    DISCKept(l.ab, l.b.s.sapi, []);
    if IsDISC(l.b.s.sapi, f) { assert o.tx[0] in o.tx && Confirms(l.a.s.sapi, o.tx[0]); }
    ConfirmKept(l.ba, l.a.s.sapi, o.tx);
  }

  // ----- The work of a release -----

  /** Hearing a frame, in any state, shrinks what is left to do. */
  predicate Shrinks(p: Profile, s: Entity, f: Frame, o: Outcome)
    requires p.n201 >= 1
  {
    QueueWork(p, o.s) + TotalWeight(o.tx) < QueueWork(p, s) + Weight(f)
  }

  lemma QueueAfterCut(p: Profile, queue: seq<Octets>)
    requires p.n201 >= 1 && NonEmpty(queue) && queue != []
    ensures |AllSegments(p.n201, queue)| == 1 + |AllSegments(p.n201, AfterCut(p.n201, queue))|
  {
    CutTakesFirst(p.n201, queue);
  }

  lemma AckShrinks(p: Profile, s: Entity, nr: Seq8)
    requires p.n201 >= 1 && NonEmpty(s.queue)
    ensures var o := ProcessAck(p, s, nr);
      && |o.tx| <= 1 && QueueWork(p, o.s) + TotalWeight(o.tx) <= QueueWork(p, s)
      && (o.tx == [] ==> TotalWeight(o.tx) == 0)
  {
    hide ProcessAck, AllSegments, Cut;
    AckPart(p, s, nr);
    if nr == s.vs && s.queue != [] {
      QueueAfterCut(p, s.queue);
      TwoParts(ProcessAck(p, s, nr).tx, []);
      assert ProcessAck(p, s, nr).tx + [] == ProcessAck(p, s, nr).tx;
    }
  }

  lemma IShrinks(p: Profile, s: Entity, f: Frame)
    requires p.n201 >= 1 && NonEmpty(s.queue) && f.IFrame?
    ensures Shrinks(p, s, f, ReceiveI(p, s, f))
  {
    hide ProcessAck, AllSegments;
    if Established(s) {
      var acked := ProcessAck(p, Settle(s), f.nr);
      AckShrinks(p, Settle(s), f.nr);
      var next := SequenceI(p, acked.s, f);
      WeightConcat(acked.tx, next.tx);
      SequenceShrinks(p, acked.s, f);
    }
  }

  lemma SequenceShrinks(p: Profile, s: Entity, f: Frame)
    requires p.n201 >= 1 && f.IFrame?
    ensures var o := SequenceI(p, s, f); TotalWeight(o.tx) <= 2 && QueueWork(p, o.s) <= QueueWork(p, s)
  {
    var o := SequenceI(p, s, f);
    TwoParts(o.tx, []);
    assert o.tx + [] == o.tx;
    assert |AllSegments(p.n201, [])| == 0;
  }

  lemma SShrinks(p: Profile, s: Entity, f: Frame)
    requires p.n201 >= 1 && NonEmpty(s.queue) && f.SFrame? && Benign(f)
    ensures Shrinks(p, s, f, ReceiveS(p, s, f))
  {
    hide ProcessAck, AllSegments;
    if Established(s) {
      var acked := ProcessAck(p, Settle(s), f.nr);
      AckShrinks(p, Settle(s), f.nr);
      var next := AnswerS(acked.s, f);
      assert next.s == acked.s;
      assert next.tx != [] ==> f.sType == REJ && next.tx == [MakeS(acked.s.sapi, acked.s.vr, RR, true)];
      WeightConcat(acked.tx, next.tx);
      TwoParts(next.tx, []);
      assert next.tx + [] == next.tx;
    }
  }

  lemma UShrinks(p: Profile, s: Entity, f: Frame)
    requires p.n201 >= 1 && f.UFrame? && f.uType != SABME && f.address.sapi == s.sapi
    ensures Shrinks(p, s, f, Perform(p, s, DoReceive(f)))
  {
    hide Perform;
    var o := Perform(p, s, DoReceive(f));
    match f.uType {
      case UA => if f.pf { AnswerToUA(p, s, f); } else { Ignored(p, s, f); }
      case DM => if f.pf { AnswerToDM(p, s, f); } else { Ignored(p, s, f); }
      case DISC => AnswerToDISC(p, s, f);
      case UI => WindsUI(p, s, f);
    }
    assert o.s.queue == s.queue || o.s.queue == [];
    assert |o.tx| <= 1 && (o.tx != [] ==> f.uType == DISC && Weight(o.tx[0]) == 1);
    TwoParts(o.tx, []);
    assert o.tx + [] == o.tx;
    assert |AllSegments(p.n201, [])| == 0;
  }

  lemma AnyShrinks(p: Profile, s: Entity, f: Frame)
    requires p.n201 >= 1 && NonEmpty(s.queue) && !IsSABME(f) && (f.SFrame? ==> Benign(f))
    ensures Shrinks(p, s, f, Perform(p, s, DoReceive(f)))
  {
    hide ReceiveI, ReceiveS, ReceiveU, AllSegments;
    if f.address.sapi == s.sapi {
      match f {
        case IFrame(_, _, _, _, _, _) => IShrinks(p, s, f);
        case SFrame(_, _, _, _) => SShrinks(p, s, f);
        case UFrame(_, _, _, _, _) => UShrinks(p, s, f);
      }
    }
  }

  predicate Steadied(pa: Profile, pb: Profile, l: Link) {
    Consistent(pa, l.a.s) && Consistent(pb, l.b.s) && Closing(l)
  }

  lemma DeliverAShrinks(pa: Profile, pb: Profile, l: Link)
    requires pa.n201 >= 1 && pb.n201 >= 1 && Steadied(pa, pb, l) && l.ba != []
    ensures var l' := Next(pa, pb, l, DeliverA); Steadied(pa, pb, l') && Work(pa, pb, l') < Work(pa, pb, l)
  {
    hide Perform, Track, Closing, QueueWork, Tame;
    var f := l.ba[0];
    DeliverACloses(pa, pb, l);
    PerformConsistent(pa, l.a.s, DoReceive(f));
    TrackState(pa, l.a, DoReceive(f));
    ClosingHeads(l);
    AnyShrinks(pa, l.a.s, f);
    WeightConcat(l.ab, Perform(pa, l.a.s, DoReceive(f)).tx);
  }

  lemma DeliverBShrinks(pa: Profile, pb: Profile, l: Link)
    requires pa.n201 >= 1 && pb.n201 >= 1 && Steadied(pa, pb, l) && l.ab != []
    ensures var l' := Next(pa, pb, l, DeliverB); Steadied(pa, pb, l') && Work(pa, pb, l') < Work(pa, pb, l)
  {
    hide Perform, Track, Closing, QueueWork, Tame;
    var f := l.ab[0];
    DeliverBCloses(pa, pb, l);
    PerformConsistent(pb, l.b.s, DoReceive(f));
    TrackState(pb, l.b, DoReceive(f));
    ClosingHeads(l);
    AnyShrinks(pb, l.b.s, f);
    WeightConcat(l.ba, Perform(pb, l.b.s, DoReceive(f)).tx);
  }

  lemma ClosingHeads(l: Link)
    requires Closing(l)
    ensures l.ab != [] ==> !IsSABME(l.ab[0]) && (l.ab[0].SFrame? ==> Benign(l.ab[0]))
    ensures l.ba != [] ==> !IsSABME(l.ba[0]) && (l.ba[0].SFrame? ==> Benign(l.ba[0]))
  {
    TameParts(l.ab, []);
    TameParts(l.ba, []);
  }

  /** How often the caller's layer 3 is told during a run that the release is confirmed. */
  function ConfirmsHeard(pa: Profile, pb: Profile, l: Link, es: seq<Event>): nat
    decreases |es|
  {
    if es == [] then 0
    else (if CONFIRM in ReportsA(pa, l, es[0]) then 1 else 0) + ConfirmsHeard(pa, pb, Next(pa, pb, l, es[0]), es[1..])
  }

  lemma ConfirmsRound(pa: Profile, pb: Profile, l: Link, n: nat)
    requires n >= 1
    ensures ConfirmsHeard(pa, pb, l, Rounds(n))
         == (if CONFIRM in ReportsA(pa, l, DeliverA) then 1 else 0)
            + ConfirmsHeard(pa, pb, Next(pa, pb, Next(pa, pb, l, DeliverA), DeliverB), Rounds(n - 1))
  {
    hide Next;
    var es := Rounds(n);
    assert es[0] == DeliverA && es[1] == DeliverB && es[1..][1..] == Rounds(n - 1);
    var l1 := Next(pa, pb, l, DeliverA);
    assert ConfirmsHeard(pa, pb, l1, es[1..])
        == 0 + ConfirmsHeard(pa, pb, Next(pa, pb, l1, DeliverB), es[1..][1..]);
  }

  /** One round of a release, and whether it brings the confirmation. */
  lemma RoundCloses(pa: Profile, pb: Profile, l: Link)
    requires pa.n201 >= 1 && pb.n201 >= 1 && Steadied(pa, pb, l) && (l.ab != [] || l.ba != [])
    ensures var l' := Next(pa, pb, Next(pa, pb, l, DeliverA), DeliverB);
      && Steadied(pa, pb, l') && Work(pa, pb, l') < Work(pa, pb, l)
      && (CONFIRM in ReportsA(pa, l, DeliverA) <==> l'.a.s.state != l.a.s.state)
  {
    hide Closing, Work, ReportsA;
    var l1 := Next(pa, pb, l, DeliverA);
    if l.ba != [] {
      DeliverAShrinks(pa, pb, l);
      DeliverACloses(pa, pb, l);
    } else {
      NoReport(pa, l);
    }
    if l1.ab != [] {
      DeliverBShrinks(pa, pb, l1);
      DeliverBCloses(pa, pb, l1);
    }
  }

  lemma NoReport(pa: Profile, l: Link)
    requires l.ba == []
    ensures ReportsA(pa, l, DeliverA) == []
  {
  }

  /** Enough rounds of delivery end a release on both sides, and the caller is told exactly once. */
  lemma {:induction false} ReleaseDrains(pa: Profile, pb: Profile, l: Link, n: nat)
    requires pa.n201 >= 1 && pb.n201 >= 1 && Steadied(pa, pb, l) && n >= Work(pa, pb, l)
    ensures var l' := Run(pa, pb, l, Rounds(n));
      && l'.a.s.state == LinkReleased && l'.b.s.state == LinkReleased && l'.ab == [] && l'.ba == []
      && ConfirmsHeard(pa, pb, l, Rounds(n)) == if l.a.s.state == AwaitingRelease then 1 else 0
    decreases n
  {
    hide Next, Run, Rounds, ReportsA, ConfirmsHeard;
    if l.ab == [] && l.ba == [] {
      StaysQuiet(pa, pb, l, n);
      NothingMore(pa, pb, l, n);
    } else {
      var l' := Next(pa, pb, Next(pa, pb, l, DeliverA), DeliverB);
      SomethingToDo(pa, pb, l);
      RoundsStep(pa, pb, l, n);
      ConfirmsRound(pa, pb, l, n);
      RoundCloses(pa, pb, l);
      CallerCloses(pa, pb, l);
      ReleaseDrains(pa, pb, l', n - 1);
    }
  }

  lemma CallerCloses(pa: Profile, pb: Profile, l: Link)
    requires pa.n201 >= 1 && pb.n201 >= 1 && Steadied(pa, pb, l)
    ensures var l' := Next(pa, pb, Next(pa, pb, l, DeliverA), DeliverB);
      l.a.s.state == LinkReleased ==> l'.a.s.state == LinkReleased
  {
    hide Perform, Track, Tame, HasDISC, HasConfirm;
    if l.ba != [] {
      TameParts(l.ba, []);
      WindsAll(pa, l.a.s, l.ba[0]);
      TrackState(pa, l.a, DoReceive(l.ba[0]));
    }
  }

  lemma {:induction false} NothingMore(pa: Profile, pb: Profile, l: Link, n: nat)
    requires l.ab == [] && l.ba == []
    ensures ConfirmsHeard(pa, pb, l, Rounds(n)) == 0
  {
    if n > 0 {
      ConfirmsRound(pa, pb, l, n);
      NothingMore(pa, pb, l, n - 1);
    }
  }

  // ----- The ways into a release -----

  lemma CallCloses(pa: Profile, pb: Profile, l: Link)
    requires Consistent(pa, l.a.s) && Consistent(pb, l.b.s) && Established(l.a.s)
    requires Connected(l.b.s) || l.b.s.state == LinkReleased
    requires l.a.s.sapi == l.b.s.sapi && Tame(l.ab) && Tame(l.ba)
    ensures var l' := Next(pa, pb, l, CallA(DoSendDISC));
      Steadied(pa, pb, l') && l'.a.s.state == AwaitingRelease
  {
    PerformConsistent(pa, l.a.s, DoSendDISC);
    var tx := Perform(pa, l.a.s, DoSendDISC).tx;
    assert IsDISC(l.b.s.sapi, tx[0]) && tx[0] in l.ab + tx;
    hide Consistent, HasConfirm;
    TameParts(l.ab, tx);
  }

  lemma ExpiryCloses(pa: Profile, pb: Profile, l: Link)
    requires Consistent(pa, l.a.s) && Consistent(pb, l.b.s) && l.a.s.state == AwaitingRelease && l.a.s.rc <= pa.n200
    requires Connected(l.b.s) || l.b.s.state == LinkReleased
    requires l.a.s.sapi == l.b.s.sapi && Tame(l.ab) && Tame(l.ba)
    ensures var l' := Next(pa, pb, l, CallA(Expiry(l.a.s)));
      Steadied(pa, pb, l') && l'.a.s.state == AwaitingRelease
  {
    PerformConsistent(pa, l.a.s, Expiry(l.a.s));
    var tx := Perform(pa, l.a.s, Expiry(l.a.s)).tx;
    assert tx == Retransmission(l.a.s);
    assert IsDISC(l.b.s.sapi, tx[0]) && tx[0] in l.ab + tx;
    hide Consistent, HasConfirm;
    TameParts(l.ab, tx);
  }

  /**
   Release: when `a` asks for the release of an established link, with whatever data traffic is in flight, plain
   delivery takes both sides down and confirms it to layer 3 of `a` exactly once.
   */
  lemma ReleaseCompletes(pa: Profile, pb: Profile, l: Link, n: nat)
    requires pa.n201 >= 1 && pb.n201 >= 1 && Consistent(pa, l.a.s) && Consistent(pb, l.b.s)
    requires Established(l.a.s) && (Connected(l.b.s) || l.b.s.state == LinkReleased)
    requires l.a.s.sapi == l.b.s.sapi && Tame(l.ab) && Tame(l.ba)
    requires n >= Work(pa, pb, Next(pa, pb, l, CallA(DoSendDISC)))
    ensures var l1 := Next(pa, pb, l, CallA(DoSendDISC)); var l2 := Run(pa, pb, l1, Rounds(n));
      && l2.a.s.state == LinkReleased && l2.b.s.state == LinkReleased && l2.ab == [] && l2.ba == []
      && ConfirmsHeard(pa, pb, l1, Rounds(n)) == 1
  {
    hide Next, Run, Rounds, Work, ConfirmsHeard, Steadied;
    CallCloses(pa, pb, l);
    ReleaseDrains(pa, pb, Next(pa, pb, l, CallA(DoSendDISC)), n);
  }

  /**
   Recovery of a release: after any permitted run that leaves the initiator waiting for its release, whatever was
   lost, one expiry of T200 within the budget and plain delivery take both sides down; a peer that is already down
   confirms it too. Only a request still in flight or a peer out of service stands in the way.
   */
  lemma ReleaseRecovers(pa: Profile, pb: Profile, start: Link, es: seq<Event>, n: nat)
    requires pa.n201 >= 1 && pb.n201 >= 1 && Initial(pa, pb, start) && PermittedRun(pa, pb, start, es)
    requires var l := Run(pa, pb, start, es);
      && l.a.s.state == AwaitingRelease && l.a.s.rc <= pa.n200 && l.a.s.sapi == l.b.s.sapi
      && l.b.s.state != Unused && NoRequests(l.ab)
      && n >= Work(pa, pb, Next(pa, pb, l, CallA(Expiry(l.a.s))))
    ensures var l := Run(pa, pb, start, es); var l1 := Next(pa, pb, l, CallA(Expiry(l.a.s)));
      var l2 := Run(pa, pb, l1, Rounds(n));
      && l2.a.s.state == LinkReleased && l2.b.s.state == LinkReleased && l2.ab == [] && l2.ba == []
      && ConfirmsHeard(pa, pb, l1, Rounds(n)) == 1
  {
    hide Next, Run, Rounds, Work, ConfirmsHeard, Steadied, PermittedRun, Consistent, Recorded, Expiry;
    ReachableInv(pa, pb, start, es);
    RunUsual(pa, pb, start, es);
    var l := Run(pa, pb, start, es);
    ExpiryCloses(pa, pb, l);
    ReleaseDrains(pa, pb, Next(pa, pb, l, CallA(Expiry(l.a.s))), n);
  }

  // ----- The other side -----

  /** The same link seen from the other side. */
  function Mirror(l: Link): Link { Link(l.b, l.a, l.ba, l.ab) }

  function MirrorEvent(e: Event): Event {
    match e
    case CallA(act) => CallB(act)
    case CallB(act) => CallA(act)
    case DeliverA => DeliverB
    case DeliverB => DeliverA
    case LoseToA(k) => LoseToB(k)
    case LoseToB(k) => LoseToA(k)
  }

  function MirrorAll(es: seq<Event>): seq<Event> {
    if es == [] then [] else [MirrorEvent(es[0])] + MirrorAll(es[1..])
  }

  lemma NextMirror(pa: Profile, pb: Profile, l: Link, e: Event)
    ensures Next(pb, pa, Mirror(l), MirrorEvent(e)) == Mirror(Next(pa, pb, l, e))
  {
  }

  lemma {:induction false} RunMirror(pa: Profile, pb: Profile, l: Link, es: seq<Event>)
    ensures Run(pb, pa, Mirror(l), MirrorAll(es)) == Mirror(Run(pa, pb, l, es))
    decreases |es|
  {
    hide Next;
    if es != [] {
      NextMirror(pa, pb, l, es[0]);
      RunMirror(pa, pb, Next(pa, pb, l, es[0]), es[1..]);
      assert MirrorAll(es)[1..] == MirrorAll(es[1..]);
    }
  }

  /** The responder may ask for the release just as well. */
  lemma ReleaseByResponder(pa: Profile, pb: Profile, l: Link, n: nat)
    requires pa.n201 >= 1 && pb.n201 >= 1 && Consistent(pa, l.a.s) && Consistent(pb, l.b.s)
    requires Established(l.b.s) && (Connected(l.a.s) || l.a.s.state == LinkReleased)
    requires l.a.s.sapi == l.b.s.sapi && Tame(l.ab) && Tame(l.ba)
    requires n >= Work(pb, pa, Mirror(Next(pa, pb, l, CallB(DoSendDISC))))
    ensures var l2 := Run(pa, pb, Next(pa, pb, l, CallB(DoSendDISC)), MirrorAll(Rounds(n)));
      l2.a.s.state == LinkReleased && l2.b.s.state == LinkReleased && l2.ab == [] && l2.ba == []
  {
    hide Next, Run, Rounds, Work, ConfirmsHeard, Consistent, Tame;
    var l1 := Next(pa, pb, l, CallB(DoSendDISC));
    NextMirror(pa, pb, l, CallB(DoSendDISC));
    ReleaseCompletes(pb, pa, Mirror(l), n);
    RunMirror(pb, pa, Mirror(l1), Rounds(n));
    assert Mirror(Mirror(l1)) == l1;
  }

  /** With nothing else in flight: DISC, UA, and the two reports. */
  lemma PlainRelease(pa: Profile, pb: Profile, l: Link)
    requires Established(l.a.s) && Established(l.b.s) && l.a.s.sapi == l.b.s.sapi && l.ab == [] && l.ba == []
    ensures var l1 := Next(pa, pb, l, CallA(DoSendDISC)); var l2 := Next(pa, pb, l1, DeliverB);
      var l3 := Next(pa, pb, l2, DeliverA);
      && ReportsA(pa, l, CallA(DoSendDISC)) == [] && l1.a.s.state == AwaitingRelease
      && ReportsB(pb, l1, DeliverB) == [Indication(L3_RELEASE_INDICATION, [])]
      && ReportsA(pa, l2, DeliverA) == [Indication(L3_RELEASE_CONFIRM, [])]
      && l3.a.s.state == LinkReleased && l3.b.s.state == LinkReleased && l3.ab == [] && l3.ba == []
      && Cleared(l3.a.s) && Cleared(l3.b.s)
  {
    var l1 := Next(pa, pb, l, CallA(DoSendDISC));
    assert |l1.ab| == 1 && IsDISC(l.b.s.sapi, l1.ab[0]) && l1.ba == [];
    ReleaseAnswered(pa, pb, l1);
  }

  lemma ReleaseAnswered(pa: Profile, pb: Profile, l: Link)
    requires l.a.s.state == AwaitingRelease && Established(l.b.s) && l.a.s.sapi == l.b.s.sapi
    requires |l.ab| == 1 && IsDISC(l.b.s.sapi, l.ab[0]) && l.ba == []
    ensures var l2 := Next(pa, pb, l, DeliverB); var l3 := Next(pa, pb, l2, DeliverA);
      && ReportsB(pb, l, DeliverB) == [Indication(L3_RELEASE_INDICATION, [])]
      && ReportsA(pa, l2, DeliverA) == [Indication(L3_RELEASE_CONFIRM, [])]
      && l3.a.s.state == LinkReleased && l3.b.s.state == LinkReleased && l3.ab == [] && l3.ba == []
      && Cleared(l3.a.s) && Cleared(l3.b.s)
  {
    hide Perform, Track;
    var l2 := Next(pa, pb, l, DeliverB);
    AnswerToDISC(pb, l.b.s, l.ab[0]);
    TrackState(pb, l.b, DoReceive(l.ab[0]));
    AnswerToUA(pa, l.a.s, l2.ba[0]);
    TrackState(pa, l.a, DoReceive(l2.ba[0]));
  }
}
