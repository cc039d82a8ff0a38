/** Two link entities joined by two FIFO channels that may lose any frame. */
module LinkSystem {
  import opened Frames
  import opened Segmentation
  import opened Entities
  import opened EntityInvariants
  import opened Window

  // ----- One entity as an end of the window -----

  /** An entity takes part in the exchange while established, and counts as fresh before its first link. */
  function View(s: Entity, h: History): End {
    End(Established(s) || h.links == 0, s.vs, s.va, s.vr, h.sent, h.rcvd)
  }

  function ViewOf(n: Node): End { View(n.s, n.h) }

  lemma TrySendSynced(p: Profile, s: Entity, h: History, y: End, xy: seq<Frame>, yx: seq<Frame>)
    requires NonEmpty(s.queue) && Established(s) && Synced(View(s, h), y, xy, yx)
    ensures var o := TrySend(p, s);
      Synced(View(o.s, h.(sent := h.sent + FirstSent(o.tx))), y, xy + o.tx, yx)
  {
    if s.vs == s.va && s.queue != [] {
      var f := TrySend(p, s).tx[0];
      SendNew(View(s, h), y, xy, yx, f);
    } else {
      assert xy + [] == xy && h.sent + [] == h.sent;
    }
  }

  /** Processing the N(R) of the frame at the head of the incoming channel. */
  lemma AckSynced(p: Profile, s: Entity, h: History, y: End, xy: seq<Frame>, yx: seq<Frame>)
    requires NonEmpty(s.queue) && Established(s) && Synced(View(s, h), y, xy, yx)
    requires yx != [] && Numbered(yx[0])
    ensures var o := ProcessAck(p, s, yx[0].nr);
      && Synced(View(o.s, h.(sent := h.sent + FirstSent(o.tx))), y, xy + o.tx, yx)
      && o.s.state == s.state && (o.tx == [] || FirstSent(o.tx) != [])
      && o.s.vr == s.vr && o.s.sapi == s.sapi
  {
    TakeAck(View(s, h), y, xy, yx);
    if yx[0].nr == s.vs {
      TrySendSynced(p, s.(va := yx[0].nr, rc := 0, t200 := Off), h, y, xy, yx);
    } else {
      assert xy + [] == xy && h.sent + [] == h.sent;
    }
  }

  lemma SequenceSynced(p: Profile, s: Entity, h: History, y: End, xy: seq<Frame>, yx: seq<Frame>)
    requires s.state == LinkEstablished && h.links >= 1 && Synced(View(s, h), y, xy, yx)
    requires yx != [] && yx[0].IFrame?
    ensures var f := yx[0]; var o := SequenceI(p, s, f);
      var got := if f.ns == s.vr && o.s.state == LinkEstablished then [SegmentOf(f)] else [];
      Synced(View(o.s, h.(rcvd := h.rcvd + got)), y, xy + o.tx, yx[1..]) && FirstSent(o.tx) == []
  {
    var f := yx[0];
    var o := SequenceI(p, s, f);
    var x := View(s, h);
    assert h.rcvd + [] == h.rcvd && xy + [] == xy;
    if f.ns != s.vr {
      DropHead(x, y, xy, yx);
      SendSupervisory(x, y, xy, yx[1..], o.tx[0]);
    } else if TooLong(p, s, f.info) {
      DropHead(x, y, xy, yx);
      Leave(x, y, xy, yx[1..], View(o.s, h));
    } else {
      Accept(x, y, xy, yx);
      SendSupervisory(x.(vr := Next8(x.vr), rcvd := x.rcvd + [SegmentOf(f)]), y, xy, yx[1..], o.tx[0]);
    }
  }

  lemma AnswerSSynced(s: Entity, h: History, y: End, xy: seq<Frame>, yx: seq<Frame>, f: Frame)
    requires s.state == LinkEstablished && h.links >= 1 && Synced(View(s, h), y, xy, yx) && f.SFrame?
    ensures var o := AnswerS(s, f); Synced(View(o.s, h), y, xy + o.tx, yx)
  {
    var o := AnswerS(s, f);
    assert xy + [] == xy;
    if o.tx != [] {
      if o.tx[0].SFrame? { SendSupervisory(View(s, h), y, xy, yx, o.tx[0]); }
      else {
        SendUnnumbered(View(s, h), y, xy, yx, o.tx[0]);
        Leave(View(s, h), y, xy + o.tx, yx, View(o.s, h));
      }
    }
  }

  lemma ReceiveISynced(p: Profile, s: Entity, h: History, y: End, xy: seq<Frame>, yx: seq<Frame>)
    requires NonEmpty(s.queue) && (Established(s) ==> h.links >= 1) && Synced(View(s, h), y, xy, yx)
    requires yx != [] && yx[0].IFrame? && yx[0].address.sapi == s.sapi
    ensures var a := DoReceive(yx[0]); var o := ReceiveI(p, s, yx[0]);
      Synced(View(o.s, Record(s, h, a, o)), y, xy + o.tx, yx[1..])
  {
    hide Synced, ProcessAck, SequenceI;
    var f := yx[0];
    var s1 := Settle(s);
    if s1.state == LinkEstablished {
      AckSynced(p, s1, h, y, xy, yx);
      var acked := ProcessAck(p, s1, f.nr);
      var h1 := h.(sent := h.sent + FirstSent(acked.tx));
      SequenceSynced(p, acked.s, h1, y, xy + acked.tx, yx);
      var next := SequenceI(p, acked.s, f);
      FirstSentOfTwo(acked.tx, next.tx);
      assert xy + (acked.tx + next.tx) == xy + acked.tx + next.tx;
    } else {
      DropHead(View(s, h), y, xy, yx);
      AddNothing(h);
      assert xy + [] == xy;
    }
  }

  lemma EstablishedSSynced(p: Profile, s: Entity, h: History, y: End, xy: seq<Frame>, yx: seq<Frame>)
    requires NonEmpty(s.queue) && Established(s) && h.links >= 1 && Synced(View(s, h), y, xy, yx)
    requires yx != [] && yx[0].SFrame? && (yx[0].sType == RR || yx[0].sType == REJ)
    ensures var a := DoReceive(yx[0]); var o := ReceiveS(p, s, yx[0]);
      Synced(View(o.s, Record(s, h, a, o)), y, xy + o.tx, yx[1..])
  {
    hide Synced, ProcessAck, AnswerS;
    var f := yx[0];
    var s1 := Settle(s);
    AckSynced(p, s1, h, y, xy, yx);
    var acked := ProcessAck(p, s1, f.nr);
    var h1 := h.(sent := h.sent + FirstSent(acked.tx));
    DropHead(View(acked.s, h1), y, xy + acked.tx, yx);
    AnswerSSynced(acked.s, h1, y, xy + acked.tx, yx[1..], f);
    AnswerSPlain(acked.s, f);
    var next := AnswerS(acked.s, f);
    FirstSentOfTwo(acked.tx, next.tx);
    AddNothing(h1);
    assert xy + (acked.tx + next.tx) == xy + acked.tx + next.tx;
  }

  lemma ReceiveSSynced(p: Profile, s: Entity, h: History, y: End, xy: seq<Frame>, yx: seq<Frame>)
    requires NonEmpty(s.queue) && (Established(s) ==> h.links >= 1) && Synced(View(s, h), y, xy, yx)
    requires yx != [] && yx[0].SFrame? && yx[0].address.sapi == s.sapi
    requires h.links == 0 ==> CountersClear(s)
    ensures var a := DoReceive(yx[0]); var o := ReceiveS(p, s, yx[0]);
      Synced(View(o.s, Record(s, h, a, o)), y, xy + o.tx, yx[1..])
  {
    hide Synced;
    var f := yx[0];
    if Established(s) && (f.sType == RR || f.sType == REJ) {
      EstablishedSSynced(p, s, h, y, xy, yx);
    } else {
      var o := ReceiveS(p, s, f);
      assert o == AbnormalRelease(s, true) || o == Quiet(s.(establishing := false));
      DropHead(View(s, h), y, xy, yx);
      AddNothing(h);
      UnnumberedSynced(s, h, y, xy, yx[1..], o);
    }
  }

  /** Outcomes that leave the window alone: at most one unnumbered frame, and the link kept or ended. */
  lemma UnnumberedSynced(s: Entity, h: History, y: End, xy: seq<Frame>, yx: seq<Frame>, o: Outcome)
    requires Synced(View(s, h), y, xy, yx)
    requires |o.tx| <= 1 && (o.tx != [] ==> o.tx[0].UFrame?)
    requires || (o.s.vs == s.vs && o.s.va == s.va && o.s.vr == s.vr && Established(o.s) == Established(s))
             || (!Established(o.s) && (h.links >= 1 || CountersClear(o.s)))
    requires h.links == 0 ==> CountersClear(s)
    ensures Synced(View(o.s, h), y, xy + o.tx, yx)
  {
    hide Synced;
    if o.tx == [] { assert xy + o.tx == xy; }
    else {
      assert o.tx == [o.tx[0]];
      SendUnnumbered(View(s, h), y, xy, yx, o.tx[0]);
    }
    if View(o.s, h) != View(s, h) {
      Leave(View(s, h), y, xy + o.tx, yx, View(o.s, h));
    }
  }

  lemma ReceiveUSynced(p: Profile, s: Entity, h: History, y: End, xy: seq<Frame>, yx: seq<Frame>)
    requires Synced(View(s, h), y, xy, yx) && (Established(s) ==> h.links >= 1)
    requires yx != [] && yx[0].UFrame? && yx[0].address.sapi == s.sapi
    requires h.links == 0 ==> CountersClear(s) && h == NO_HISTORY
    requires StartsLink(s, DoReceive(yx[0])) ==> h.links == 0
    ensures var a := DoReceive(yx[0]); var o := ReceiveU(p, s, yx[0]);
      Synced(View(o.s, Record(s, h, a, o)), y, xy + o.tx, yx[1..])
  {
    hide Synced, ReceiveU;
    var f := yx[0];
    var o := ReceiveU(p, s, f);
    DropHead(View(s, h), y, xy, yx);
    ReceiveUPlain(p, s, f);
    if StartsLink(s, DoReceive(f)) {
      ReceiveUStarts(p, s, f);
      AddNothing(NO_HISTORY.(links := 1));
      if o.tx == [] { assert xy + o.tx == xy; }
      else {
        assert o.tx == [o.tx[0]];
        SendUnnumbered(View(s, h), y, xy, yx[1..], o.tx[0]);
      }
    } else {
      ReceiveUKeeps(p, s, f);
      AddNothing(h);
      UnnumberedSynced(s, h, y, xy, yx[1..], o);
    }
  }

  /** Receiving the frame at the head of the incoming channel keeps the two ends in step. */
  lemma ReceiveSynced(p: Profile, n: Node, y: End, xy: seq<Frame>, yx: seq<Frame>)
    requires p.n201 >= 1 && NodeInv(p, n) && Synced(ViewOf(n), y, xy, yx) && yx != []
    requires StartsLink(n.s, DoReceive(yx[0])) ==> n.h.links == 0
    ensures var a := DoReceive(yx[0]);
      Synced(ViewOf(Track(p, n, a)), y, xy + Perform(p, n.s, a).tx, yx[1..])
  {
    hide Synced, ReceiveI, ReceiveS, ReceiveU;
    var f := yx[0];
    if f.address.sapi != n.s.sapi {
      DropHead(ViewOf(n), y, xy, yx);
      AddNothing(n.h);
      assert xy + [] == xy;
    } else {
      match f {
        case IFrame(_, _, _, _, _, _) => ReceiveISynced(p, n.s, n.h, y, xy, yx);
        case SFrame(_, _, _, _) => ReceiveSSynced(p, n.s, n.h, y, xy, yx);
        case UFrame(_, _, _, _, _) => ReceiveUSynced(p, n.s, n.h, y, xy, yx);
      }
    }
  }

  /** The pending I-frame is the latest segment sent. */
  predicate PendingIsLast(s: Entity, h: History) {
    s.pending.PendingI? ==>
      && Established(s) && |h.sent| >= 1
      && s.pending == PendingI((|h.sent| - 1) % 8, h.sent[|h.sent| - 1])
  }

  lemma RetransmissionSynced(s: Entity, h: History, y: End, xy: seq<Frame>, yx: seq<Frame>)
    requires PendingIsLast(s, h) && Synced(View(s, h), y, xy, yx)
    ensures Synced(View(s, h), y, xy + Retransmission(s), yx) && FirstSent(Retransmission(s)) == []
  {
    match s.pending {
      case PendingI(_, _) => SendAgain(View(s, h), y, xy, yx, Retransmission(s)[0]);
      case NoPending => assert xy + [] == xy;
      case _ => SendUnnumbered(View(s, h), y, xy, yx, Retransmission(s)[0]);
    }
  }

  lemma TickSynced(p: Profile, s: Entity, h: History, y: End, xy: seq<Frame>, yx: seq<Frame>, elapsed: nat)
    requires PendingIsLast(s, h) && Synced(View(s, h), y, xy, yx)
    requires h.links == 0 ==> CountersClear(s)
    ensures var a := DoTick(elapsed); var o := Tick(p, s, elapsed);
      Synced(View(o.s, Record(s, h, a, o)), y, xy + o.tx, yx)
  {
    hide Synced;
    var o := Tick(p, s, elapsed);
    RetransmissionSynced(s, h, y, xy, yx);
    AddNothing(h);
    assert FirstSent(o.tx) == [] && Delivered(o.up) == [];
    assert Record(s, h, DoTick(elapsed), o) == h;
    if o.tx == [] {
      UnnumberedSynced(s, h, y, xy, yx, o);
    } else {
      assert o.tx == Retransmission(s) && View(o.s, h) == View(s, h);
    }
  }

  lemma SendDataSynced(p: Profile, s: Entity, h: History, y: End, xy: seq<Frame>, yx: seq<Frame>, data: Octets)
    requires NonEmpty(s.queue) && Synced(View(s, h), y, xy, yx)
    ensures var a := DoSendData(data); var o := SendData(p, s, data);
      Synced(View(o.s, Record(s, h, a, o)), y, xy + o.tx, yx)
  {
    assert xy + [] == xy;
    AddNothing(h);
    if SendDataResult(s, data) == Accepted {
      TrySendSynced(p, s.(queue := s.queue + [data]), h, y, xy, yx);
    }
  }

  lemma ControlSynced(p: Profile, s: Entity, h: History, y: End, xy: seq<Frame>, yx: seq<Frame>, a: Action)
    requires NonEmpty(s.queue) && Synced(View(s, h), y, xy, yx)
    requires (h.links == 0 ==> CountersClear(s)) && (Established(s) ==> h.links >= 1)
    requires !a.DoReceive? && !a.DoTick? && !a.DoSendData?
    ensures var o := Perform(p, s, a); Synced(View(o.s, Record(s, h, a, o)), y, xy + o.tx, yx)
  {
    var o := Perform(p, s, a);
    AddNothing(h);
    assert Record(s, h, a, o) == h;
    UnnumberedSynced(s, h, y, xy, yx, o);
  }

  /** Any call of the API keeps the two ends in step. */
  lemma CallSynced(p: Profile, n: Node, y: End, xy: seq<Frame>, yx: seq<Frame>, a: Action)
    requires p.n201 >= 1 && NodeInv(p, n) && Synced(ViewOf(n), y, xy, yx) && !a.DoReceive?
    ensures Synced(ViewOf(Track(p, n, a)), y, xy + Perform(p, n.s, a).tx, yx)
  {
    match a {
      case DoTick(elapsed) => TickSynced(p, n.s, n.h, y, xy, yx, elapsed);
      case DoSendData(data) => SendDataSynced(p, n.s, n.h, y, xy, yx, data);
      case _ =>
        ControlSynced(p, n.s, n.h, y, xy, yx, a);
    }
  }
}
