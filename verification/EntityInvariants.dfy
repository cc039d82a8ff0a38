/** What every call keeps, for one entity facing an arbitrary peer. */
module EntityInvariants {
  import opened Frames
  import opened Segmentation
  import opened Entities

  // ----- Without history -----

  predicate CountersClear(s: Entity) {
    && s.vs == 0 && s.va == 0 && s.vr == 0 && s.queue == [] && s.reassembly == []
  }

  predicate TimerOk(p: Profile, t: Timer) {
    t.Armed? ==> t.remaining <= p.t200Ms && (p.t200Ms >= 1 ==> t.remaining >= 1)
  }

  predicate Consistent(p: Profile, s: Entity) {
    && NonEmpty(s.queue)
    && (s.state == LinkReleased || s.state == Unused ==>
          CountersClear(s) && s.rc == 0 && s.t200 == Off && s.pending == NoPending)
    && (s.state == AwaitingEstablish ==> CountersClear(s))
    && (s.state == AwaitingEstablish <==> s.pending.PendingSABME?)
    && (s.state == AwaitingRelease <==> s.pending.PendingDISC?)
    && (s.state == AwaitingEstablish || s.state == AwaitingRelease ==> s.t200.Armed?)
    && TimerOk(p, s.t200)
    && s.rc <= p.n200 + 1
    && |s.reassembly| <= MAX_REASSEMBLY
    && (s.va == s.vs ==> s.queue == [])
  }

  lemma TrySendConsistent(p: Profile, s: Entity)
    requires Established(s) && NonEmpty(s.queue) && !s.pending.PendingSABME? && !s.pending.PendingDISC?
    requires TimerOk(p, s.t200) && s.rc <= p.n200 + 1 && |s.reassembly| <= MAX_REASSEMBLY
    ensures Consistent(p, TrySend(p, s).s)
    ensures TrySend(p, s).s.state == s.state
  {
  }

  lemma ProcessAckConsistent(p: Profile, s: Entity, nr: Seq8)
    requires Consistent(p, s) && Established(s)
    ensures Consistent(p, ProcessAck(p, s, nr).s)
    ensures ProcessAck(p, s, nr).s.state == s.state
  {
    if nr == s.vs { TrySendConsistent(p, s.(va := nr, rc := 0, t200 := Off)); }
  }

  lemma ReceiveIConsistent(p: Profile, s: Entity, f: Frame)
    requires Consistent(p, s) && f.IFrame?
    ensures Consistent(p, ReceiveI(p, s, f).s)
  {
    var s1 := Settle(s);
    if s1.state == LinkEstablished { ProcessAckConsistent(p, s1, f.nr); }
  }

  lemma AnswerSConsistent(p: Profile, s: Entity, f: Frame)
    requires Consistent(p, s) && Established(s) && f.SFrame?
    ensures Consistent(p, AnswerS(s, f).s)
  {
  }

  lemma ReceiveSConsistent(p: Profile, s: Entity, f: Frame)
    requires Consistent(p, s) && f.SFrame?
    ensures Consistent(p, ReceiveS(p, s, f).s)
  {
    hide ProcessAck, AnswerS;
    var s1 := Settle(s);
    if s1.state == LinkEstablished {
      ProcessAckConsistent(p, s1, f.nr);
      AnswerSConsistent(p, ProcessAck(p, s1, f.nr).s, f);
    }
  }

  lemma ReceiveSABMEConsistent(p: Profile, s: Entity, f: Frame)
    requires Consistent(p, s) && f.UFrame?
    ensures Consistent(p, ReceiveSABME(s, f).s)
  {
    var c := Clear(s);
    assert Consistent(p, c.(state := LinkEstablished)) && Consistent(p, c.(state := LinkReleased));
  }

  lemma ReceiveUConsistent(p: Profile, s: Entity, f: Frame)
    requires Consistent(p, s) && f.UFrame?
    ensures Consistent(p, ReceiveU(p, s, f).s)
  {
    hide Consistent;
    match f.uType {
      case SABME => ReceiveSABMEConsistent(p, s, f);
      case UA => ReceiveAnswerConsistent(p, s, f);
      case DM => ReceiveAnswerConsistent(p, s, f);
      case DISC => ReceiveDISCConsistent(p, s, f);
      case UI =>
    }
  }

  lemma ReceiveAnswerConsistent(p: Profile, s: Entity, f: Frame)
    requires Consistent(p, s) && f.UFrame?
    ensures Consistent(p, ReceiveUA(s, f).s) && Consistent(p, ReceiveDM(p, s, f).s)
  {
  }

  lemma ReceiveDISCConsistent(p: Profile, s: Entity, f: Frame)
    requires Consistent(p, s) && f.UFrame?
    ensures Consistent(p, ReceiveDISC(s, f).s)
  {
  }

  lemma ReceiveConsistent(p: Profile, s: Entity, f: Frame)
    requires Consistent(p, s)
    ensures Consistent(p, Receive(p, s, f).s)
  {
    if f.address.sapi == s.sapi {
      match f {
        case IFrame(_, _, _, _, _, _) => ReceiveIConsistent(p, s, f);
        case SFrame(_, _, _, _) => ReceiveSConsistent(p, s, f);
        case UFrame(_, _, _, _, _) => ReceiveUConsistent(p, s, f);
      }
    }
  }

  lemma SendDataConsistent(p: Profile, s: Entity, data: Octets)
    requires Consistent(p, s)
    ensures Consistent(p, SendData(p, s, data).s)
  {
    if SendDataResult(s, data) == Accepted { TrySendConsistent(p, s.(queue := s.queue + [data])); }
  }

  lemma TickConsistent(p: Profile, s: Entity, elapsed: nat)
    requires Consistent(p, s)
    ensures Consistent(p, Tick(p, s, elapsed).s)
  {
  }

  lemma LinkControlConsistent(p: Profile, s: Entity, info: Octets)
    requires Consistent(p, s)
    ensures Consistent(p, SendSABME(p, s, info).s) && Consistent(p, SendDISC(p, s).s)
  {
  }

  lemma ReleaseConsistent(p: Profile, s: Entity, sapi: Sapi, commandBit: bool)
    requires Consistent(p, s)
    ensures Consistent(p, HardRelease(s).s) && Consistent(p, Open(s, sapi, commandBit).s)
  {
  }

  /** Any call and any received frame keeps the entity consistent. */
  lemma PerformConsistent(p: Profile, s: Entity, a: Action)
    requires Consistent(p, s)
    ensures Consistent(p, Perform(p, s, a).s)
  {
    match a {
      case DoReceive(f) => ReceiveConsistent(p, s, f);
      case DoSendData(data) => SendDataConsistent(p, s, data);
      case DoTick(elapsed) => TickConsistent(p, s, elapsed);
      case DoSendUI(_, _) =>
      case DoOpen(sapi, commandBit) => ReleaseConsistent(p, s, sapi, commandBit);
      case DoHardRelease => ReleaseConsistent(p, s, s.sapi, s.commandBit);
      case DoSendSABME(info) => LinkControlConsistent(p, s, info);
      case DoSendDISC => LinkControlConsistent(p, s, []);
    }
  }

  // ----- With the history of the current link -----

  /**
   What happened since the link was last established: the messages accepted from layer 3, the segments sent for
   the first time, the segments accepted from the peer and the messages delivered to layer 3. `links` counts
   establishments.
   */
  datatype History = History(
    links: nat, queued: seq<Octets>, sent: seq<Segment>, rcvd: seq<Segment>, delivered: seq<Octets>)

  datatype Node = Node(s: Entity, h: History)

  const NO_HISTORY := History(0, [], [], [], [])

  /** The three places where cleared counters are followed by an established link. */
  predicate StartsLink(s: Entity, a: Action) {
    a.DoReceive? && a.f.UFrame? && a.f.pf && a.f.address.sapi == s.sapi &&
    (|| (a.f.uType == SABME && s.state == LinkReleased)
     || (a.f.uType == SABME && s.state == LinkEstablished && !s.establishing && a.f.info == [])
     || (a.f.uType == UA && s.state == AwaitingEstablish))
  }

  /** First transmissions carry P = 0; retransmissions carry P = 1. */
  function FirstSent(tx: seq<Frame>): seq<Segment> {
    if tx != [] && tx[0].IFrame? && !tx[0].pf then [Segment(tx[0].more, tx[0].info)] else []
  }

  function Queued(s: Entity, a: Action): seq<Octets> {
    if a.DoSendData? && SendDataResult(s, a.data) == Accepted then [a.data] else []
  }

  function Received(s: Entity, a: Action, o: Outcome): seq<Segment> {
    if a.DoReceive? && a.f.IFrame? && a.f.address.sapi == s.sapi && Established(s) && a.f.ns == s.vr
       && o.s.state == LinkEstablished
    then [Segment(a.f.more, a.f.info)] else []
  }

  function Delivered(up: seq<Indication>): seq<Octets> {
    if up != [] && up[0].primitive == L3_DATA then [up[0].data] else []
  }

  /** The history after an action with the given outcome. */
  function Record(s: Entity, h: History, a: Action, o: Outcome): History {
    var h0 := if StartsLink(s, a) then NO_HISTORY.(links := h.links + 1) else h;
    h0.(queued := h0.queued + Queued(s, a), sent := h0.sent + FirstSent(o.tx),
        rcvd := h0.rcvd + Received(s, a, o), delivered := h0.delivered + Delivered(o.up))
  }

  function Track(p: Profile, n: Node, a: Action): Node {
    var o := Perform(p, n.s, a);
    Node(o.s, Record(n.s, n.h, a, o))
  }

  predicate Connected(s: Entity) { Established(s) || s.state == AwaitingRelease }

  /** The counters, buffers and the pending frame against the history of a connected entity. */
  predicate Linked(p: Profile, s: Entity, h: History)
    requires p.n201 >= 1
  {
    && NonEmpty(h.queued)
    && s.vs == |h.sent| % 8
    && s.vr == |h.rcvd| % 8
    && Assemble(h.rcvd) == Assembly(h.delivered, s.reassembly)
    && h.sent + AllSegments(p.n201, s.queue) == AllSegments(p.n201, h.queued)
    && (s.pending.PendingI? ==>
          |h.sent| >= 1 && s.pending == PendingI((|h.sent| - 1) % 8, h.sent[|h.sent| - 1]))
  }

  /** What a link leaves behind: only segments of accepted messages were sent, only whole messages delivered. */
  predicate Frozen(p: Profile, h: History)
    requires p.n201 >= 1
  {
    && NonEmpty(h.queued)
    && h.sent <= AllSegments(p.n201, h.queued)
    && Assemble(h.rcvd).done == h.delivered
  }

  predicate Recorded(p: Profile, s: Entity, h: History)
    requires p.n201 >= 1
  {
    && (Connected(s) ==> h.links >= 1 && Linked(p, s, h))
    && Frozen(p, h)
    && (h.links == 0 ==> h == NO_HISTORY)
  }

  predicate NodeInv(p: Profile, n: Node)
    requires p.n201 >= 1
  {
    Consistent(p, n.s) && Recorded(p, n.s, n.h)
  }

  lemma LinkedFrozen(p: Profile, s: Entity, h: History)
    requires p.n201 >= 1 && Linked(p, s, h)
    ensures Frozen(p, h)
  {
  }

  lemma LinkedSame(p: Profile, s: Entity, s': Entity, h: History)
    requires p.n201 >= 1 && Linked(p, s, h)
    requires s'.vs == s.vs && s'.vr == s.vr && s'.pending == s.pending
    requires s'.queue == s.queue && s'.reassembly == s.reassembly
    ensures Linked(p, s', h)
  {
  }

  lemma TrySendLinked(p: Profile, s: Entity, h: History)
    requires p.n201 >= 1 && NonEmpty(s.queue) && Linked(p, s, h)
    ensures var o := TrySend(p, s);
      Linked(p, o.s, h.(sent := h.sent + FirstSent(o.tx))) && (o.tx == [] || FirstSent(o.tx) != [])
  {
    if s.vs == s.va && s.queue != [] {
      CutTakesFirst(p.n201, s.queue);
      var seg := Cut(p.n201, s.queue[0]);
      assert h.sent + ([seg] + AllSegments(p.n201, AfterCut(p.n201, s.queue)))
          == h.sent + [seg] + AllSegments(p.n201, AfterCut(p.n201, s.queue));
      NextMod8(|h.sent|);
    } else {
      assert h.sent + [] == h.sent;
    }
  }

  lemma NextMod8(n: nat)
    ensures (n % 8 + 1) % 8 == (n + 1) % 8
  {
  }

  lemma ProcessAckLinked(p: Profile, s: Entity, h: History, nr: Seq8)
    requires p.n201 >= 1 && NonEmpty(s.queue) && Linked(p, s, h)
    ensures var o := ProcessAck(p, s, nr);
      Linked(p, o.s, h.(sent := h.sent + FirstSent(o.tx))) && (o.tx == [] || FirstSent(o.tx) != [])
    ensures ProcessAck(p, s, nr).s.vr == s.vr && ProcessAck(p, s, nr).s.reassembly == s.reassembly
  {
    if nr == s.vs { TrySendLinked(p, s.(va := nr, rc := 0, t200 := Off), h); }
    else { assert h.sent + [] == h.sent; }
  }

  lemma AcceptLinked(p: Profile, s: Entity, h: History, f: Frame)
    requires p.n201 >= 1 && f.IFrame? && f.ns == s.vr && Linked(p, s, h) && !TooLong(p, s, f.info)
    ensures var o := AcceptI(p, s, f);
      Linked(p, o.s, h.(rcvd := h.rcvd + [Segment(f.more, f.info)], delivered := h.delivered + Delivered(o.up)))
  {
    FeedAllSnoc(Assembly([], []), h.rcvd, Segment(f.more, f.info));
    NextMod8(|h.rcvd|);
    if f.more { assert h.delivered + [] == h.delivered; }
  }

  lemma EmptyLinked(p: Profile, s: Entity, links: nat)
    requires p.n201 >= 1 && CountersClear(s) && !s.pending.PendingI?
    ensures Linked(p, s, NO_HISTORY.(links := links))
  {
  }

  lemma AddNothing(h: History)
    ensures h.(queued := h.queued + [], sent := h.sent + [], rcvd := h.rcvd + [], delivered := h.delivered + []) == h
  {
    assert h.queued + [] == h.queued && h.sent + [] == h.sent;
    assert h.rcvd + [] == h.rcvd && h.delivered + [] == h.delivered;
  }

  lemma SequenceLinked(p: Profile, s: Entity, h: History, f: Frame)
    requires p.n201 >= 1 && f.IFrame? && s.state == LinkEstablished && Linked(p, s, h)
    ensures var o := SequenceI(p, s, f);
      var got := if f.ns == s.vr && o.s.state == LinkEstablished then [Segment(f.more, f.info)] else [];
      var h' := h.(rcvd := h.rcvd + got, delivered := h.delivered + Delivered(o.up));
      Frozen(p, h') && (Connected(o.s) ==> Linked(p, o.s, h')) && FirstSent(o.tx) == []
  {
    AddNothing(h);
    LinkedFrozen(p, s, h);
    if f.ns == s.vr && !TooLong(p, s, f.info) {
      AcceptLinked(p, s, h, f);
      var o := AcceptI(p, s, f);
      LinkedFrozen(p, o.s, h.(rcvd := h.rcvd + [Segment(f.more, f.info)], delivered := h.delivered + Delivered(o.up)));
    }
  }

  lemma ReceiveIRecorded(p: Profile, s: Entity, h: History, f: Frame)
    requires p.n201 >= 1 && NonEmpty(s.queue) && Recorded(p, s, h) && f.IFrame? && f.address.sapi == s.sapi
    ensures var o := ReceiveI(p, s, f); Recorded(p, o.s, Record(s, h, DoReceive(f), o))
  {
    var o := ReceiveI(p, s, f);
    if Established(s) {
      EstablishedI(p, s, h, f);
    } else {
      AddNothing(h);
      assert o == Quiet(Settle(s));
      if Connected(o.s) { LinkedSame(p, s, o.s, h); }
    }
  }

  lemma EstablishedI(p: Profile, s: Entity, h: History, f: Frame)
    requires p.n201 >= 1 && NonEmpty(s.queue) && Established(s) && Linked(p, s, h) && h.links >= 1
    requires f.IFrame? && f.address.sapi == s.sapi
    ensures var o := ReceiveI(p, s, f); Recorded(p, o.s, Record(s, h, DoReceive(f), o))
  {
    var s1 := Settle(s);
    LinkedSame(p, s, s1, h);
    ProcessAckLinked(p, s1, h, f.nr);
    var acked := ProcessAck(p, s1, f.nr);
    var h1 := h.(sent := h.sent + FirstSent(acked.tx));
    SequenceLinked(p, acked.s, h1, f);
    var next := SequenceI(p, acked.s, f);
    FirstSentOfTwo(acked.tx, next.tx);
    AddNothing(h1);
  }

  lemma FirstSentOfTwo(a: seq<Frame>, b: seq<Frame>)
    requires FirstSent(b) == []
    requires a == [] || FirstSent(a) != []
    ensures FirstSent(a + b) == FirstSent(a)
  {
    if a == [] { assert a + b == b; }
  }

  lemma ReceiveSRecorded(p: Profile, s: Entity, h: History, f: Frame)
    requires p.n201 >= 1 && NonEmpty(s.queue) && Recorded(p, s, h) && f.SFrame? && f.address.sapi == s.sapi
    ensures var o := ReceiveS(p, s, f); Recorded(p, o.s, Record(s, h, DoReceive(f), o))
  {
    hide Linked, Frozen;
    var o := ReceiveS(p, s, f);
    if Established(s) && (f.sType == RR || f.sType == REJ) {
      EstablishedS(p, s, h, f);
    } else {
      AddNothing(h);
      assert o == AbnormalRelease(s, true) || o == Quiet(s.(establishing := false));
      assert Record(s, h, DoReceive(f), o) == h;
      if Connected(o.s) { LinkedSame(p, s, o.s, h); }
    }
  }

  lemma EstablishedS(p: Profile, s: Entity, h: History, f: Frame)
    requires p.n201 >= 1 && NonEmpty(s.queue) && Established(s) && Linked(p, s, h) && h.links >= 1
    requires f.SFrame? && f.address.sapi == s.sapi && (f.sType == RR || f.sType == REJ)
    ensures var o := ReceiveS(p, s, f); Recorded(p, o.s, Record(s, h, DoReceive(f), o))
  {
    var s1 := Settle(s);
    LinkedSame(p, s, s1, h);
    ProcessAckLinked(p, s1, h, f.nr);
    var acked := ProcessAck(p, s1, f.nr);
    var h1 := h.(sent := h.sent + FirstSent(acked.tx));
    LinkedFrozen(p, acked.s, h1);
    AnswerSPlain(acked.s, f);
    FirstSentOfTwo(acked.tx, AnswerS(acked.s, f).tx);
    AddNothing(h1);
  }

  lemma AnswerSPlain(s: Entity, f: Frame)
    requires f.SFrame?
    ensures var o := AnswerS(s, f); FirstSent(o.tx) == [] && Delivered(o.up) == [] && (o.s == s || o.s.state == Unused)
  {
  }

  /** A received U-frame that starts no link either leaves the link's data alone or ends the link. */
  lemma ReceiveUKeeps(p: Profile, s: Entity, f: Frame)
    requires f.UFrame? && f.address.sapi == s.sapi && !StartsLink(s, DoReceive(f))
    ensures var s' := ReceiveU(p, s, f).s;
      || ((s'.state == LinkReleased || s'.state == Unused) && CountersClear(s'))
      || ((s'.state == s.state || (s'.state == LinkEstablished && s.state == ContentionResolution))
          && s'.vs == s.vs && s'.va == s.va && s'.vr == s.vr && s'.pending == s.pending
          && s'.queue == s.queue && s'.reassembly == s.reassembly)
  {
    match f.uType {
      case SABME => assert ReceiveU(p, s, f) == ReceiveSABME(s, f);
      case UA => assert ReceiveU(p, s, f) == ReceiveUA(s, f);
      case DM => assert ReceiveU(p, s, f) == ReceiveDM(p, s, f);
      case DISC => assert ReceiveU(p, s, f) == ReceiveDISC(s, f);
      case UI =>
    }
  }

  lemma ReceiveUStarts(p: Profile, s: Entity, f: Frame)
    requires f.UFrame? && f.address.sapi == s.sapi && StartsLink(s, DoReceive(f))
    ensures var s' := ReceiveU(p, s, f).s;
      Established(s') && CountersClear(s') && s'.pending == NoPending && s'.t200 == Off
  {
  }

  lemma ReceiveUPlain(p: Profile, s: Entity, f: Frame)
    requires f.UFrame? && f.address.sapi == s.sapi
    ensures var o := ReceiveU(p, s, f); FirstSent(o.tx) == [] && Delivered(o.up) == []
    ensures var o := ReceiveU(p, s, f); |o.tx| <= 1 && |o.up| <= 1 && (o.tx != [] ==> o.tx[0].UFrame?)
  {
    match f.uType {
      case SABME => assert ReceiveU(p, s, f) == ReceiveSABME(s, f);
      case UA => assert ReceiveU(p, s, f) == ReceiveUA(s, f);
      case DM => assert ReceiveU(p, s, f) == ReceiveDM(p, s, f);
      case DISC => assert ReceiveU(p, s, f) == ReceiveDISC(s, f);
      case UI =>
    }
  }

  lemma ReceiveURecorded(p: Profile, s: Entity, h: History, f: Frame)
    requires p.n201 >= 1 && NonEmpty(s.queue) && Recorded(p, s, h) && f.UFrame? && f.address.sapi == s.sapi
    ensures var o := ReceiveU(p, s, f); Recorded(p, o.s, Record(s, h, DoReceive(f), o))
  {
    ReceiveUPlain(p, s, f);
    var o := ReceiveU(p, s, f);
    if StartsLink(s, DoReceive(f)) {
      ReceiveUStarts(p, s, f);
      var h0 := NO_HISTORY.(links := h.links + 1);
      AddNothing(h0);
      EmptyLinked(p, o.s, h.links + 1);
      LinkedFrozen(p, o.s, h0);
    } else {
      AddNothing(h);
      assert Record(s, h, DoReceive(f), o) == h;
      ReceiveUKeeps(p, s, f);
    }
  }

  lemma SendDataRecorded(p: Profile, s: Entity, h: History, data: Octets)
    requires p.n201 >= 1 && NonEmpty(s.queue) && Recorded(p, s, h)
    ensures var o := SendData(p, s, data); Recorded(p, o.s, Record(s, h, DoSendData(data), o))
  {
    AddNothing(h);
    if SendDataResult(s, data) == Accepted {
      var s1 := s.(queue := s.queue + [data]);
      var h1 := h.(queued := h.queued + [data]);
      AllSegmentsSnoc(p.n201, s.queue, data);
      AllSegmentsSnoc(p.n201, h.queued, data);
      assert h.sent + (AllSegments(p.n201, s.queue) + Segments(p.n201, data))
          == h.sent + AllSegments(p.n201, s.queue) + Segments(p.n201, data);
      assert Linked(p, s1, h1);
      TrySendLinked(p, s1, h1);
      var o := TrySend(p, s1);
      var h2 := h1.(sent := h1.sent + FirstSent(o.tx));
      LinkedFrozen(p, o.s, h2);
      AddNothing(h2);
    }
  }

  lemma TickRecorded(p: Profile, s: Entity, h: History, elapsed: nat)
    requires p.n201 >= 1 && NonEmpty(s.queue) && Recorded(p, s, h)
    ensures var o := Tick(p, s, elapsed); Recorded(p, o.s, Record(s, h, DoTick(elapsed), o))
  {
    hide Linked, Frozen;
    AddNothing(h);
    var o := Tick(p, s, elapsed);
    assert FirstSent(o.tx) == [] && Delivered(o.up) == [];
    assert Record(s, h, DoTick(elapsed), o) == h;
    if Connected(o.s) { LinkedSame(p, s, o.s, h); }
  }

  /** Every call and every received frame keeps counters, buffers and history in step. */
  lemma TrackInv(p: Profile, n: Node, a: Action)
    requires p.n201 >= 1 && NodeInv(p, n)
    ensures NodeInv(p, Track(p, n, a))
  {
    hide ReceiveI, ReceiveS, ReceiveU;
    AddNothing(n.h);
    PerformConsistent(p, n.s, a);
    match a {
      case DoReceive(f) =>
        if f.address.sapi == n.s.sapi {
          match f {
            case IFrame(_, _, _, _, _, _) => ReceiveIRecorded(p, n.s, n.h, f);
            case SFrame(_, _, _, _) => ReceiveSRecorded(p, n.s, n.h, f);
            case UFrame(_, _, _, _, _) => ReceiveURecorded(p, n.s, n.h, f);
          }
        }
      case DoSendData(data) => SendDataRecorded(p, n.s, n.h, data);
      case DoTick(elapsed) => TickRecorded(p, n.s, n.h, elapsed);
      case _ => assert FirstSent(Perform(p, n.s, a).tx) == [] && Delivered(Perform(p, n.s, a).up) == [];
    }
  }
}
