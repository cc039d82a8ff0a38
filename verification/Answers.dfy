/**
 What the peer hears and what layer 3 is told, in every state and for every frame, written down as the protocol has
 it (GSM 04.06 sections 5.3 to 5.5) and proved of the entity.
 */
module Answers {
  import opened Frames
  import Codec
  import opened Segmentation
  import opened Entities
  import opened EntityInvariants
  import opened SingleEntity
  import opened Establishment

  /** The entity goes to `next`, sends `tx` and reports `up`. */
  predicate Does(o: Outcome, next: LinkState, tx: seq<Frame>, up: seq<Indication>) {
    o.s.state == next && o.tx == tx && o.up == up
  }

  /** A response: C/R = 0, on the entity's SAPI. */
  function Response(s: Entity, t: UType, pf: bool, info: Octets): Frame {
    UFrame(Address(s.sapi, false, true), t, pf, false, info)
  }

  function Supervisory(s: Entity, t: SType, nr: Seq8, pf: bool): Frame {
    SFrame(Address(s.sapi, false, true), nr, t, pf)
  }

  predicate Cleared(s: Entity) {
    CountersClear(s) && s.rc == 0 && s.t200 == Off && s.pending == NoPending
  }

  /** One entity serves one SAPI, and unanswerable link control (P/F = 0) is ignored, except DISC. */
  lemma Ignored(p: Profile, s: Entity, f: Frame)
    requires f.address.sapi != s.sapi || (f.UFrame? && !f.pf && f.uType != DISC && f.uType != UI)
    ensures Perform(p, s, DoReceive(f)) == Outcome(s, [], [])
  {
  }

  // ----- Link control -----

  lemma AnswerToDISC(p: Profile, s: Entity, f: Frame)
    requires f.UFrame? && f.uType == DISC && f.address.sapi == s.sapi
    ensures var o := Perform(p, s, DoReceive(f));
      var ua, dm := [Response(s, UA, f.pf, [])], [Response(s, DM, f.pf, [])];
      && (match s.state
          case Unused => Does(o, Unused, [], [])
          case LinkReleased => Does(o, LinkReleased, dm, [])
          case AwaitingEstablish => Does(o, LinkReleased, [], [Indication(L3_RELEASE_INDICATION, [])])
          case AwaitingRelease => Does(o, LinkReleased, ua, [Indication(L3_RELEASE_CONFIRM, [])])
          case LinkEstablished => Does(o, LinkReleased, ua, [Indication(L3_RELEASE_INDICATION, [])])
          case ContentionResolution => Does(o, LinkReleased, ua, [Indication(L3_RELEASE_INDICATION, [])]))
      && (if Released(s) then o.s == s.(establishing := false) else Cleared(o.s) && !o.s.establishing)
  {
    assert Perform(p, s, DoReceive(f)) == ReceiveDISC(s, f);
  }

  lemma AnswerToUA(p: Profile, s: Entity, f: Frame)
    requires f.UFrame? && f.uType == UA && f.pf && f.address.sapi == s.sapi
    ensures var o := Perform(p, s, DoReceive(f));
      match s.state
      case AwaitingEstablish => Does(o, LinkEstablished, [], [Indication(L3_ESTABLISH_CONFIRM, [])]) && Cleared(o.s)
      case AwaitingRelease => Does(o, LinkReleased, [], [Indication(L3_RELEASE_CONFIRM, [])]) && Cleared(o.s)
      case _ => o == Outcome(s, [], [])
  {
    assert Perform(p, s, DoReceive(f)) == ReceiveUA(s, f);
  }

  lemma AnswerToDM(p: Profile, s: Entity, f: Frame)
    requires f.UFrame? && f.uType == DM && f.pf && f.address.sapi == s.sapi
    ensures var o := Perform(p, s, DoReceive(f));
      if s.state == AwaitingRelease then
        Does(o, LinkReleased, [], [Indication(L3_RELEASE_CONFIRM, [])]) && Cleared(o.s)
      else if Released(s) then o == Outcome(s, [], [])
      else o == Outcome(s.(t200 := Armed(p.t200Ms)), [], [Indication(L3_RELEASE_INDICATION, [])])
  {
    assert Perform(p, s, DoReceive(f)) == ReceiveDM(p, s, f);
  }

  /** Outside contention resolution, which has its own module. */
  lemma AnswerToSABME(p: Profile, s: Entity, f: Frame)
    requires IsSABME(f) && f.pf && f.address.sapi == s.sapi && s.state != ContentionResolution
    ensures var o := Perform(p, s, DoReceive(f));
      var echo, plain := [Response(s, UA, true, f.info)], [Response(s, UA, true, [])];
      match s.state
      case Unused => o == Outcome(s, [], [])
      case LinkReleased =>
        && Does(o, if f.info != [] && s.sapi == Sapi0 then ContentionResolution else LinkEstablished,
                echo, [Indication(L3_ESTABLISH_INDICATION, f.info)])
        && Cleared(o.s) && o.s.establishing
      case AwaitingEstablish => o == Outcome(s, plain, [])
      case AwaitingRelease => o == Outcome(s, [Response(s, DM, true, [])], [])
      case LinkEstablished =>
        if s.establishing then o == Outcome(s, echo, [])
        else if f.info != [] then
          Does(o, Unused, [Response(s, DM, true, [])], [Indication(MDL_ERROR_INDICATION, [])]) && Cleared(o.s)
        else Does(o, LinkEstablished, plain, []) && Cleared(o.s)
  {
    assert Perform(p, s, DoReceive(f)) == ReceiveSABME(s, f);
  }

  // ----- Unit data -----

  /** A UI frame carries its octets to layer 3 of a peer on that SAPI, in any state, and to no other. */
  lemma UnitDataCrosses(p: Profile, q: Profile, x: Entity, y: Entity, sapi: Sapi, data: Octets)
    ensures var o := Perform(p, x, DoSendUI(sapi, data));
      && o.s == x && |o.tx| == 1 && o.up == []
      && Perform(q, y, DoReceive(o.tx[0]))
         == Outcome(y, [], if sapi == y.sapi then [Indication(L3_UNIT_DATA, data)] else [])
      && (sapi != Undefined && |data| <= 63 ==> Codec.Decode(Codec.Encode(o.tx[0])) == Codec.Ok(o.tx[0]))
  {
    hide Codec.Decode, Codec.Encode;
    Codec.DecodeEncode(MakeUI(sapi, x.commandBit, data));
  }

  // ----- Numbered frames -----

  function Last<T>(c: seq<T>): T
    requires c != []
  {
    c[|c| - 1]
  }

  /**
   An I-frame is always answered, F mirroring P: RR when it was the awaited one, REJ when not; the last segment of a
   message hands the whole of it up. Only an awaited frame over the limits ends the link, with no answer.
   */
  lemma AnswerToI(p: Profile, s: Entity, f: Frame)
    requires f.IFrame? && f.address.sapi == s.sapi
    ensures var o := Perform(p, s, DoReceive(f)); var awaited := f.ns == s.vr;
      if !Established(s) then o == Outcome(s.(establishing := false), [], [])
      else if awaited && (|f.info| > p.n201 || |s.reassembly| + |f.info| > 4096) then
        && o.s.state == LinkReleased && Cleared(o.s) && o.up == [Indication(MDL_ERROR_INDICATION, [])]
        && forall g :: g in o.tx ==> g.IFrame?
      else
        && o.s.state == LinkEstablished && o.s.vr == (if awaited then (s.vr + 1) % 8 else s.vr)
        && o.tx != [] && Last(o.tx) == Supervisory(s, if awaited then RR else REJ, o.s.vr, f.pf)
        && o.up == (if awaited && !f.more then [Indication(L3_DATA, s.reassembly + f.info)] else [])
  {
    hide ProcessAck;
    assert Perform(p, s, DoReceive(f)) == ReceiveI(p, s, f);
    if Established(s) {
      AckQuiet(p, Settle(s), f.nr);
      SentOnAck(p, Settle(s), f.nr);
    }
  }

  lemma AckQuiet(p: Profile, s: Entity, nr: Seq8)
    ensures var o := ProcessAck(p, s, nr);
      && o.up == [] && o.s.vr == s.vr && o.s.reassembly == s.reassembly
      && o.s.sapi == s.sapi && o.s.state == s.state && o.s.establishing == s.establishing
  {
  }

  /** An acknowledgement of everything stops T200 and clears RC before the next segment; any other touches neither. */
  lemma AckStopsTimer(p: Profile, s: Entity, f: Frame)
    requires Established(s) && f.SFrame? && f.sType == RR && !f.pf && f.address.sapi == s.sapi
    ensures var o := Perform(p, s, DoReceive(f));
      && o.s.va == f.nr
      && (f.nr == s.vs && s.queue == [] ==> o.s.t200 == Off && o.s.rc == 0 && o.tx == [])
      && (f.nr == s.vs && s.queue != [] ==>
            o.s.t200 == Armed(p.t200Ms) && o.s.rc == 0 && |o.tx| == 1 && o.tx[0].IFrame?)
      && (f.nr != s.vs ==> o.s.t200 == s.t200 && o.s.rc == s.rc && o.tx == [])
  {
    assert Perform(p, s, DoReceive(f)) == ReceiveS(p, s, f);
  }

  /** RR and REJ on an established link: N(R) first, then RR with F = 1 to a polled RR command or REJ response. */
  lemma AnswerToReady(p: Profile, s: Entity, f: Frame)
    requires f.SFrame? && f.address.sapi == s.sapi && Established(s) && (f.sType == RR || f.sType == REJ)
    requires f.sType == REJ && f.pf ==> !f.address.command
    ensures var o := Perform(p, s, DoReceive(f)); var acked := ProcessAck(p, Settle(s), f.nr);
      && Does(o, LinkEstablished, acked.tx + SupervisoryAnswer(s, f), []) && o.s.vr == s.vr && o.s == acked.s
  {
    hide ProcessAck;
    assert Perform(p, s, DoReceive(f)) == ReceiveS(p, s, f);
    AckQuiet(p, Settle(s), f.nr);
  }

  predicate PollsFor(f: Frame) {
    f.SFrame? && f.pf && ((f.sType == RR && f.address.command) || (f.sType == REJ && !f.address.command))
  }

  function SupervisoryAnswer(s: Entity, f: Frame): seq<Frame> {
    if PollsFor(f) then [Supervisory(s, RR, s.vr, true)] else []
  }

  /** RNR in any state, and a polled REJ command on a link, end in Unused with DM, F = 1, and an error report. */
  lemma UnexpectedS(p: Profile, s: Entity, f: Frame)
    requires f.SFrame? && f.address.sapi == s.sapi
    requires f.sType == RNR || (f.sType == REJ && f.pf && f.address.command && Established(s))
    ensures var o := Perform(p, s, DoReceive(f));
      && o.s.state == Unused && Cleared(o.s) && !o.s.establishing && o.up == [Indication(MDL_ERROR_INDICATION, [])]
      && o.tx != [] && Last(o.tx) == Response(s, DM, true, [])
      && forall i :: 0 <= i < |o.tx| - 1 ==> o.tx[i].IFrame?
  {
    hide ProcessAck;
    assert Perform(p, s, DoReceive(f)) == ReceiveS(p, s, f);
    if f.sType != RNR {
      AckQuiet(p, Settle(s), f.nr);
      SentOnAck(p, Settle(s), f.nr);
      var acked := ProcessAck(p, Settle(s), f.nr).tx;
      assert forall i :: 0 <= i < |acked| ==> acked[i] in acked;
    }
  }

  /** Off the link RR and REJ only close the establishment window; the unnamed fourth code never does more. */
  lemma IdleS(p: Profile, s: Entity, f: Frame)
    requires f.SFrame? && f.address.sapi == s.sapi && f.sType != RNR && (f.sType == Reserved || !Established(s))
    ensures Perform(p, s, DoReceive(f)) == Outcome(s.(establishing := false), [], [])
  {
    assert Perform(p, s, DoReceive(f)) == ReceiveS(p, s, f);
  }

  // ----- Polls and finals over whole runs -----

  /** A poll that the entity lives to answer. */
  predicate Polled(s: Entity, a: Action, o: Outcome) {
    && a.DoReceive? && a.f.address.sapi == s.sapi && Established(s) && o.s.state == LinkEstablished
    && ((a.f.IFrame? && a.f.pf) || PollsFor(a.f))
  }

  predicate IsFinal(f: Frame) { f.SFrame? && f.pf }

  function Finals(tx: seq<Frame>): nat {
    if tx == [] then 0 else Finals(tx[..|tx| - 1]) + (if IsFinal(Last(tx)) then 1 else 0)
  }

  lemma {:induction false} NoFinals(tx: seq<Frame>)
    requires forall i :: 0 <= i < |tx| ==> !IsFinal(tx[i])
    ensures Finals(tx) == 0
  {
    if tx != [] { NoFinals(tx[..|tx| - 1]); }
  }

  lemma FinalsSnoc(tx: seq<Frame>, f: Frame)
    requires forall i :: 0 <= i < |tx| ==> !IsFinal(tx[i])
    ensures Finals(tx + [f]) == if IsFinal(f) then 1 else 0
  {
    assert (tx + [f])[..|tx|] == tx;
    NoFinals(tx);
  }

  /** Every action sends as many final supervisory frames as it hears polls: one or none. */
  lemma OneFinalPerPoll(p: Profile, s: Entity, a: Action)
    ensures var o := Perform(p, s, a); Finals(o.tx) == if Polled(s, a, o) then 1 else 0
  {
    hide Perform, ProcessAck;
    var o := Perform(p, s, a);
    if a.DoReceive? && a.f.address.sapi == s.sapi {
      match a.f {
        case IFrame(_, _, _, _, _, _) => FinalOfI(p, s, a.f);
        case SFrame(_, _, _, _) => FinalOfS(p, s, a.f);
        case UFrame(_, _, _, _, _) => FinalOfOther(p, s, a);
      }
    } else {
      FinalOfOther(p, s, a);
    }
  }

  lemma FinalOfI(p: Profile, s: Entity, f: Frame)
    requires f.IFrame? && f.address.sapi == s.sapi
    ensures var o := Perform(p, s, DoReceive(f)); Finals(o.tx) == if Polled(s, DoReceive(f), o) then 1 else 0
  {
    hide ProcessAck;
    var o := Perform(p, s, DoReceive(f));
    assert o == ReceiveI(p, s, f);
    if Established(s) {
      AckQuiet(p, Settle(s), f.nr);
      SentOnAck(p, Settle(s), f.nr);
      var acked := ProcessAck(p, Settle(s), f.nr);
      var next := SequenceI(p, acked.s, f);
      assert forall i :: 0 <= i < |acked.tx| ==> acked.tx[i] in acked.tx;
      if next.tx == [] {
        assert acked.tx + [] == acked.tx;
        NoFinals(acked.tx);
      } else {
        assert next.tx == [next.tx[0]];
        FinalsSnoc(acked.tx, next.tx[0]);
      }
    }
  }

  lemma FinalOfS(p: Profile, s: Entity, f: Frame)
    requires f.SFrame? && f.address.sapi == s.sapi
    ensures var o := Perform(p, s, DoReceive(f)); Finals(o.tx) == if Polled(s, DoReceive(f), o) then 1 else 0
  {
    hide Perform, Finals;
    var o := Perform(p, s, DoReceive(f));
    if f.sType == RNR || (f.sType == REJ && f.pf && f.address.command && Established(s)) {
      UnexpectedS(p, s, f);
      NoFinals(o.tx);
    } else if f.sType == Reserved || !Established(s) {
      IdleS(p, s, f);
      NoFinals([]);
    } else {
      FinalOfReady(p, s, f);
    }
  }

  lemma FinalOfReady(p: Profile, s: Entity, f: Frame)
    requires f.SFrame? && f.address.sapi == s.sapi && Established(s) && (f.sType == RR || f.sType == REJ)
    requires f.sType == REJ && f.pf ==> !f.address.command
    ensures var o := Perform(p, s, DoReceive(f)); Finals(o.tx) == if Polled(s, DoReceive(f), o) then 1 else 0
  {
    hide Perform, Finals, ProcessAck;
    AnswerToReady(p, s, f);
    SentOnAck(p, Settle(s), f.nr);
    var acked := ProcessAck(p, Settle(s), f.nr).tx;
    assert forall i :: 0 <= i < |acked| ==> acked[i] in acked;
    NoFinals(acked);
    FinalsSnoc(acked, Supervisory(s, RR, s.vr, true));
    assert acked + [] == acked;
  }

  lemma FinalOfOther(p: Profile, s: Entity, a: Action)
    requires a.DoReceive? ==> a.f.address.sapi != s.sapi || a.f.UFrame?
    ensures Finals(Perform(p, s, a).tx) == 0
  {
    if a.DoReceive? && a.f.address.sapi == s.sapi { ReceiveUPlain(p, s, a.f); }
    NoFinals(Perform(p, s, a).tx);
  }

  function PollsHeard(p: Profile, n: Node, acts: seq<Action>): nat
    decreases |acts|
  {
    if acts == [] then 0
    else
      (if Polled(n.s, acts[0], Perform(p, n.s, acts[0])) then 1 else 0)
      + PollsHeard(p, Track(p, n, acts[0]), acts[1..])
  }

  function FinalsSent(p: Profile, n: Node, acts: seq<Action>): nat
    decreases |acts|
  {
    if acts == [] then 0
    else Finals(Perform(p, n.s, acts[0]).tx) + FinalsSent(p, Track(p, n, acts[0]), acts[1..])
  }

  /** Over every run against any peer, each poll gets one final answer, and no other final answer is sent. */
  lemma {:induction false} FinalsMatchPolls(p: Profile, n: Node, acts: seq<Action>)
    ensures FinalsSent(p, n, acts) == PollsHeard(p, n, acts)
    decreases |acts|
  {
    hide Perform, Track, Polled;
    if acts != [] {
      OneFinalPerPoll(p, n.s, acts[0]);
      FinalsMatchPolls(p, Track(p, n, acts[0]), acts[1..]);
    }
  }

  // ----- Addresses over whole runs -----

  /** Commands carry the entity's C/R bit, responses 0; all but UI go out on its SAPI; EA is always set. */
  predicate Addressed(sapi: Sapi, commandBit: bool, f: Frame) {
    var command := f.IFrame? || (f.UFrame? && (f.uType == SABME || f.uType == DISC || f.uType == UI));
    && f.address.ea
    && f.address.command == (command && commandBit)
    && ((f.UFrame? && f.uType == UI) || f.address.sapi == sapi)
  }

  predicate AllAddressed(s: Entity, tx: seq<Frame>) { forall f :: f in tx ==> Addressed(s.sapi, s.commandBit, f) }

  predicate SameLine(s: Entity, s': Entity) { s'.sapi == s.sapi && s'.commandBit == s.commandBit }

  lemma AckAddressed(p: Profile, s: Entity, nr: Seq8)
    ensures var o := ProcessAck(p, s, nr); AllAddressed(s, o.tx) && SameLine(s, o.s)
  {
  }

  lemma IAddressed(p: Profile, s: Entity, f: Frame)
    requires f.IFrame?
    ensures var o := ReceiveI(p, s, f); AllAddressed(s, o.tx) && SameLine(s, o.s)
  {
    hide ProcessAck;
    AckAddressed(p, Settle(s), f.nr);
  }

  lemma SAddressed(p: Profile, s: Entity, f: Frame)
    requires f.SFrame?
    ensures var o := ReceiveS(p, s, f); AllAddressed(s, o.tx) && SameLine(s, o.s)
  {
    hide ProcessAck;
    AckAddressed(p, Settle(s), f.nr);
  }

  lemma SABMEAddressed(s: Entity, f: Frame)
    requires f.UFrame?
    ensures var o := ReceiveSABME(s, f); AllAddressed(s, o.tx) && SameLine(s, o.s)
  {
  }

  lemma DISCAddressed(s: Entity, f: Frame)
    requires f.UFrame?
    ensures var o := ReceiveDISC(s, f); AllAddressed(s, o.tx) && SameLine(s, o.s)
  {
  }

  lemma UAddressed(p: Profile, s: Entity, f: Frame)
    requires f.UFrame?
    ensures var o := ReceiveU(p, s, f); AllAddressed(s, o.tx) && SameLine(s, o.s)
  {
    hide ReceiveSABME, ReceiveDISC;
    match f.uType {
      case SABME => SABMEAddressed(s, f);
      case UA => assert ReceiveUA(s, f).tx == [];
      case DM => assert ReceiveDM(p, s, f).tx == [];
      case DISC => DISCAddressed(s, f);
      case UI =>
    }
  }

  lemma StepAddressed(p: Profile, s: Entity, a: Action)
    requires !a.DoOpen?
    ensures var o := Perform(p, s, a); AllAddressed(s, o.tx) && SameLine(s, o.s)
  {
    hide ReceiveI, ReceiveS, ReceiveU;
    if a.DoReceive? && a.f.address.sapi == s.sapi {
      match a.f {
        case IFrame(_, _, _, _, _, _) => IAddressed(p, s, a.f);
        case SFrame(_, _, _, _) => SAddressed(p, s, a.f);
        case UFrame(_, _, _, _, _) => UAddressed(p, s, a.f);
      }
    }
  }

  lemma {:induction false} LineKept(p: Profile, n: Node, acts: seq<Action>)
    requires forall i :: 0 <= i < |acts| ==> !acts[i].DoOpen?
    ensures SameLine(n.s, RunNode(p, n, acts).s)
    decreases |acts|
  {
    hide Perform;
    if acts != [] {
      StepAddressed(p, n.s, acts[0]);
      LineKept(p, Track(p, n, acts[0]), acts[1..]);
    }
  }

  /** From one open() to the next, every frame of every run goes out with the SAPI and C/R bit that open() was given. */
  lemma AddressedOverRuns(p: Profile, n: Node, sapi: Sapi, commandBit: bool, acts: seq<Action>, a: Action)
    requires !a.DoOpen? && forall i :: 0 <= i < |acts| ==> !acts[i].DoOpen?
    ensures var m := RunNode(p, Track(p, n, DoOpen(sapi, commandBit)), acts);
      forall f :: f in Perform(p, m.s, a).tx ==> Addressed(sapi, commandBit, f)
  {
    var m0 := Track(p, n, DoOpen(sapi, commandBit));
    assert m0.s.sapi == sapi && m0.s.commandBit == commandBit;
    hide Perform, Track;
    LineKept(p, m0, acts);
    StepAddressed(p, RunNode(p, m0, acts).s, a);
  }

  // ----- Calls -----

  /** What each call accepts, why it refuses, and that a refused call does nothing. */
  lemma Calls(p: Profile, s: Entity, data: Octets)
    ensures SendDataResult(s, data) == Accepted <==> Established(s) && data != []
    ensures SendDataResult(s, data) == Rejected(EmptyData) <==> Established(s) && data == []
    ensures SendDataResult(s, data) != Accepted ==> Perform(p, s, DoSendData(data)) == Outcome(s, [], [])
    ensures SendSABMEResult(s) == Accepted <==> Established(s) || s.state == LinkReleased
    ensures Established(s) ==>
      Perform(p, s, DoSendSABME(data)) == Outcome(s, [], [Indication(L3_ESTABLISH_CONFIRM, [])])
    ensures SendSABMEResult(s) != Accepted ==> Perform(p, s, DoSendSABME(data)) == Outcome(s, [], [])
    ensures SendDISCResult(s) == Accepted <==> Established(s)
    ensures SendDISCResult(s) != Accepted ==> Perform(p, s, DoSendDISC) == Outcome(s, [], [])
    ensures var o := Perform(p, s, DoHardRelease); Does(o, LinkReleased, [], []) && Cleared(o.s) && !o.s.establishing
  {
  }

  /** Whatever goes out for the first time has the whole of T200 and the whole retransmission budget before it. */
  lemma FreshBudget(p: Profile, s: Entity, a: Action)
    requires Established(s) || s.state == LinkReleased
    requires !a.DoTick? && !a.DoReceive?
    ensures var o := Perform(p, s, a);
      o.tx != [] && !a.DoSendUI? ==> o.s.rc == 0 && o.s.t200 == Armed(p.t200Ms) && o.s.pending != NoPending
  {
  }
}
