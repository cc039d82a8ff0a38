/** One entity over whole runs, facing an arbitrary peer: any calls and any received frames. */
module SingleEntity {
  import opened Frames
  import opened Segmentation
  import opened Entities
  import opened EntityInvariants
  import Arithmetic

  function RunNode(p: Profile, n: Node, acts: seq<Action>): Node
    decreases |acts|
  {
    if acts == [] then n else RunNode(p, Track(p, n, acts[0]), acts[1..])
  }

  const FRESH := Node(INITIAL, NO_HISTORY)

  lemma {:induction false} RunNodeInv(p: Profile, n: Node, acts: seq<Action>)
    requires p.n201 >= 1 && NodeInv(p, n)
    ensures NodeInv(p, RunNode(p, n, acts))
    decreases |acts|
  {
    if acts != [] {
      TrackInv(p, n, acts[0]);
      RunNodeInv(p, Track(p, n, acts[0]), acts[1..]);
    }
  }

  lemma ReachableNode(p: Profile, acts: seq<Action>)
    requires p.n201 >= 1
    ensures NodeInv(p, RunNode(p, FRESH, acts))
  {
    assert NodeInv(p, FRESH);
    RunNodeInv(p, FRESH, acts);
  }

  /** Every run of calls and received frames leaves the entity in a consistent state, whatever the profile. */
  lemma {:induction false} ReachableConsistent(p: Profile, n: Node, acts: seq<Action>)
    requires Consistent(p, n.s)
    ensures Consistent(p, RunNode(p, n, acts).s)
    decreases |acts|
  {
    if acts != [] {
      PerformConsistent(p, n.s, acts[0]);
      ReachableConsistent(p, Track(p, n, acts[0]), acts[1..]);
    }
  }

  /** What that means state by state. */
  lemma ReachableStates(p: Profile, acts: seq<Action>)
    ensures var s := RunNode(p, FRESH, acts).s;
      && (s.state == LinkReleased || s.state == Unused ==>
            && s.vs == 0 && s.va == 0 && s.vr == 0 && s.rc == 0
            && s.t200 == Off && s.pending == NoPending && s.queue == [] && s.reassembly == [])
      && (s.state == AwaitingEstablish <==> s.pending.PendingSABME?)
      && (s.state == AwaitingRelease <==> s.pending.PendingDISC?)
      && (s.state == AwaitingEstablish || s.state == AwaitingRelease ==>
            s.t200.Armed? && s.t200.remaining <= p.t200Ms && (p.t200Ms >= 1 ==> s.t200.remaining >= 1))
      && s.rc <= p.n200 + 1
      && |s.reassembly| <= MAX_REASSEMBLY
      && (s.va == s.vs ==> s.queue == [])
  {
    ReachableConsistent(p, FRESH, acts);
  }

  // ----- The k = 1 window -----

  /** A first transmission: it carries the next segment of the accepted messages, with N(S) = V(A). */
  predicate FirstTransmission(p: Profile, n: Node, n': Node, f: Frame)
    requires p.n201 >= 1
  {
    && f.IFrame? && !f.pf && f.nr == n.s.vr
    && f.ns == |n.h.sent| % 8
    && |n.h.sent| < |AllSegments(p.n201, n'.h.queued)|
    && Segment(f.more, f.info) == AllSegments(p.n201, n'.h.queued)[|n.h.sent|]
    && (Established(n'.s) ==> n'.s.va == f.ns && n'.s.vs == Next8(f.ns))
  }

  /** A retransmission: the latest first transmission again, with P = 1 and the current V(R). */
  predicate Repeats(n: Node, f: Frame) {
    && f.IFrame? && f.pf && f.nr == n.s.vr
    && |n.h.sent| >= 1 && f.ns == (|n.h.sent| - 1) % 8
    && Segment(f.more, f.info) == n.h.sent[|n.h.sent| - 1]
  }

  lemma TickSends(p: Profile, n: Node, elapsed: nat)
    requires p.n201 >= 1 && NodeInv(p, n)
    ensures var tx := Tick(p, n.s, elapsed).tx;
      forall i :: 0 <= i < |tx| && tx[i].IFrame? ==> i == 0 && Repeats(n, tx[i])
  {
  }

  lemma AckSends(p: Profile, s: Entity, nr: Seq8)
    ensures var o := ProcessAck(p, s, nr);
      && |o.tx| <= 1
      && (o.tx != [] ==> o.tx[0].IFrame? && !o.tx[0].pf && o.tx[0].nr == s.vr && o.tx[0].ns == s.vs
                         && o.s.va == s.vs && o.s.vs == Next8(s.vs))
  {
  }

  lemma SequenceSends(p: Profile, s: Entity, f: Frame)
    requires f.IFrame?
    ensures var o := SequenceI(p, s, f);
      |o.tx| <= 1 && (o.tx != [] ==> o.tx[0].SFrame?) && (Established(o.s) ==> o.s.va == s.va && o.s.vs == s.vs)
  {
  }

  /** What a call may put on the line: at most one I-frame, first. */
  predicate OneIFrame(tx: seq<Frame>) { forall i :: 1 <= i < |tx| ==> !tx[i].IFrame? }

  predicate SendsInWindow(s: Entity, o: Outcome) {
    && OneIFrame(o.tx)
    && (o.tx != [] && o.tx[0].IFrame? ==>
          && !o.tx[0].pf && o.tx[0].nr == s.vr && o.tx[0].ns == s.vs
          && (Established(o.s) ==> o.s.va == s.vs && o.s.vs == Next8(s.vs)))
  }

  lemma ReceiveISends(p: Profile, s: Entity, f: Frame)
    requires f.IFrame?
    ensures SendsInWindow(s, ReceiveI(p, s, f))
  {
    var s1 := Settle(s);
    AckSends(p, s1, f.nr);
    SequenceSends(p, ProcessAck(p, s1, f.nr).s, f);
  }

  lemma ReceiveSSends(p: Profile, s: Entity, f: Frame)
    requires f.SFrame?
    ensures SendsInWindow(s, ReceiveS(p, s, f))
  {
    if Established(s) && (f.sType == RR || f.sType == REJ) {
      var s1 := Settle(s);
      AckSends(p, s1, f.nr);
      AnswerSPlain(ProcessAck(p, s1, f.nr).s, f);
      assert |AnswerS(ProcessAck(p, s1, f.nr).s, f).tx| <= 1;
    }
  }

  lemma PerformSends(p: Profile, s: Entity, a: Action)
    requires !a.DoTick?
    ensures SendsInWindow(s, Perform(p, s, a))
  {
    if a.DoReceive? && a.f.address.sapi == s.sapi {
      match a.f {
        case IFrame(_, _, _, _, _, _) => ReceiveISends(p, s, a.f);
        case SFrame(_, _, _, _) => ReceiveSSends(p, s, a.f);
        case UFrame(_, _, _, _, _) => ReceiveUPlain(p, s, a.f);
      }
    }
  }

  /** Each I-frame put on the line is the next segment, with nothing outstanding, or a faithful repetition. */
  lemma StopAndWait(p: Profile, n: Node, a: Action)
    requires p.n201 >= 1 && NodeInv(p, n)
    ensures var tx := Perform(p, n.s, a).tx;
      forall i :: 0 <= i < |tx| && tx[i].IFrame? ==>
        i == 0 && (if a.DoTick? then Repeats(n, tx[i]) else FirstTransmission(p, n, Track(p, n, a), tx[i]))
  {
    var o := Perform(p, n.s, a);
    if a.DoTick? {
      TickSends(p, n, a.elapsed);
    } else {
      PerformSends(p, n.s, a);
      if o.tx != [] && o.tx[0].IFrame? {
        TrackInv(p, n, a);
        OnlyConnectedSends(p, n.s, a);
        var n' := Track(p, n, a);
        assert n'.h.sent == n.h.sent + [Segment(o.tx[0].more, o.tx[0].info)];
        assert n'.h.sent[|n.h.sent|] == AllSegments(p.n201, n'.h.queued)[|n.h.sent|];
      }
    }
  }

  lemma OnlyConnectedSends(p: Profile, s: Entity, a: Action)
    requires Perform(p, s, a).tx != [] && Perform(p, s, a).tx[0].IFrame? && !a.DoTick?
    ensures Established(s) && !StartsLink(s, a)
  {
    if a.DoReceive? && a.f.address.sapi == s.sapi && a.f.UFrame? { ReceiveUPlain(p, s, a.f); }
  }

  /** The same for every action of every run from the constructor. */
  lemma StopAndWaitOverRuns(p: Profile, acts: seq<Action>, a: Action)
    requires p.n201 >= 1
    ensures var n := RunNode(p, FRESH, acts); var tx := Perform(p, n.s, a).tx;
      forall i :: 0 <= i < |tx| && tx[i].IFrame? ==>
        i == 0 && (if a.DoTick? then Repeats(n, tx[i]) else FirstTransmission(p, n, Track(p, n, a), tx[i]))
  {
    ReachableNode(p, acts);
    StopAndWait(p, RunNode(p, FRESH, acts), a);
  }

  // ----- Conservation -----

  /**
   On a connected entity, the octets sent for the first time followed by those still queued are the accepted
   messages; and what was delivered followed by the partial message is what was accepted from the peer.
   */
  lemma Conservation(p: Profile, acts: seq<Action>)
    requires p.n201 >= 1
    ensures var n := RunNode(p, FRESH, acts);
      && (Connected(n.s) ==> Payload(n.h.sent) + Concat(n.s.queue) == Concat(n.h.queued))
      && (Connected(n.s) ==> Payload(n.h.rcvd) == Concat(n.h.delivered) + n.s.reassembly)
  {
    ReachableNode(p, acts);
    var n := RunNode(p, FRESH, acts);
    if Connected(n.s) {
      PayloadConcat(n.h.sent, AllSegments(p.n201, n.s.queue));
      AllSegmentsPayload(p.n201, n.s.queue);
      AllSegmentsPayload(p.n201, n.h.queued);
      AssembledPayload(n.h.rcvd);
    }
  }

  lemma {:induction false} ConcatSnoc(msgs: seq<Octets>, m: Octets)
    ensures Concat(msgs + [m]) == Concat(msgs) + m
  {
    if msgs == [] {
      assert [] + [m] == [m];
      assert Concat([m]) == m + Concat([]);
    } else {
      assert (msgs + [m])[1..] == msgs[1..] + [m];
      ConcatSnoc(msgs[1..], m);
    }
  }

  lemma {:induction false} AssembledPayload(segs: seq<Segment>)
    ensures Payload(segs) == Concat(Assemble(segs).done) + Assemble(segs).partial
  {
    if segs != [] {
      var init, last := segs[..|segs| - 1], segs[|segs| - 1];
      AssembledPayload(init);
      assert segs == init + [last];
      PayloadConcat(init, [last]);
      assert Payload([last]) == last.info + Payload([]);
      var a := Assemble(init);
      ConcatSnoc(a.done, a.partial + last.info);
    }
  }

  // ----- The retransmission budget -----

  function TickAll(p: Profile, s: Entity, es: seq<nat>): Outcome
    decreases |es|
  {
    if es == [] then Quiet(s)
    else
      var o := Tick(p, s, es[0]);
      var r := TickAll(p, o.s, es[1..]);
      Outcome(r.s, o.tx + r.tx, o.up + r.up)
  }

  function Expiries(p: Profile, s: Entity, es: seq<nat>): nat
    decreases |es|
  {
    if es == [] then 0
    else (if Expires(s, es[0]) then 1 else 0) + Expiries(p, Tick(p, s, es[0]).s, es[1..])
  }

  function Copies(fs: seq<Frame>, k: nat): seq<Frame> { if k == 0 then [] else fs + Copies(fs, k - 1) }

  /** Retransmissions left before the link is given up. */
  function Budget(p: Profile, s: Entity): int { p.n200 + 1 - s.rc }

  lemma {:induction false} SilentAfterRelease(p: Profile, s: Entity, es: seq<nat>)
    requires s.t200 == Off
    ensures TickAll(p, s, es) == Quiet(s) && Expiries(p, s, es) == 0
    decreases |es|
  {
    if es != [] { SilentAfterRelease(p, s, es[1..]); }
  }

  /** `e` expiries: each within the budget repeats the pending frame; the one beyond it releases the link. */
  predicate Spends(p: Profile, s: Entity, o: Outcome, e: nat) {
    var left := Budget(p, s);
    && e <= left + 1
    && (e <= left ==>
          && o.s == s.(rc := s.rc + e, t200 := o.s.t200) && o.s.t200.Armed?
          && o.tx == Copies(Retransmission(s), e) && o.up == [])
    && (e == left + 1 ==>
          && left >= 0 && o.s == AbnormalRelease(s, false).s
          && o.tx == Copies(Retransmission(s), left) && o.up == [Indication(MDL_ERROR_INDICATION, [])])
  }

  lemma SpendsNone(p: Profile, s: Entity, t: Timer, o: Outcome, e: nat)
    requires s.rc <= p.n200 + 1 && Spends(p, s.(t200 := t), o, e)
    ensures Spends(p, s, Outcome(o.s, [] + o.tx, [] + o.up), e)
  {
    assert [] + o.tx == o.tx && [] + o.up == o.up;
    assert Retransmission(s.(t200 := t)) == Retransmission(s);
    assert AbnormalRelease(s.(t200 := t), false).s == AbnormalRelease(s, false).s;
  }

  lemma SpendsOne(p: Profile, s: Entity, t: Timer, o: Outcome, e: nat)
    requires s.rc <= p.n200 && Spends(p, s.(rc := s.rc + 1, t200 := t), o, e)
    ensures Spends(p, s, Outcome(o.s, Retransmission(s) + o.tx, [] + o.up), 1 + e)
  {
    var s1 := s.(rc := s.rc + 1, t200 := t);
    assert [] + o.up == o.up;
    assert Retransmission(s1) == Retransmission(s);
    assert AbnormalRelease(s1, false).s == AbnormalRelease(s, false).s;
  }

  /**
   With no input, whatever the tick sizes: each of the first N200 + 1 - RC expiries repeats the pending frame once
   and changes nothing but RC and the timer; the next one releases the link with a single error indication.
   */
  lemma {:induction false} RetransmissionBudget(p: Profile, s: Entity, es: seq<nat>)
    requires s.t200.Armed? && s.rc <= p.n200 + 1
    ensures Spends(p, s, TickAll(p, s, es), Expiries(p, s, es))
    decreases |es|
  {
    if es != [] {
      var o1 := Tick(p, s, es[0]);
      if !Expires(s, es[0]) {
        RetransmissionBudget(p, o1.s, es[1..]);
        SpendsNone(p, s, o1.s.t200, TickAll(p, o1.s, es[1..]), Expiries(p, o1.s, es[1..]));
      } else if s.rc <= p.n200 {
        RetransmissionBudget(p, o1.s, es[1..]);
        SpendsOne(p, s, o1.s.t200, TickAll(p, o1.s, es[1..]), Expiries(p, o1.s, es[1..]));
      } else {
        SilentAfterRelease(p, o1.s, es[1..]);
        assert o1.up + [] == o1.up;
      }
    }
  }

  lemma {:induction false} EveryTickExpires(p: Profile, s: Entity, es: seq<nat>)
    requires s.t200.Armed? && s.t200.remaining <= p.t200Ms && s.rc <= p.n200 + 1
    requires forall i :: 0 <= i < |es| ==> es[i] >= p.t200Ms
    ensures Expiries(p, s, es) == if |es| <= Budget(p, s) then |es| else Budget(p, s) + 1
    decreases |es|
  {
    if es != [] {
      var o1 := Tick(p, s, es[0]);
      if o1.s.t200 == Off { SilentAfterRelease(p, o1.s, es[1..]); }
      else { EveryTickExpires(p, o1.s, es[1..]); }
    }
  }

  /** A silent peer is given up after N200 + 2 - RC timer periods: an armed entity always ends in LinkReleased. */
  lemma SilentPeerReleases(p: Profile, s: Entity, es: seq<nat>)
    requires Consistent(p, s) && s.t200.Armed? && |es| >= Budget(p, s) + 1
    requires forall i :: 0 <= i < |es| ==> es[i] >= p.t200Ms
    ensures TickAll(p, s, es).s.state == LinkReleased
    ensures TickAll(p, s, es).tx == Copies(Retransmission(s), Budget(p, s))
  {
    EveryTickExpires(p, s, es);
    RetransmissionBudget(p, s, es);
  }

  // ----- The clock -----

  function Sum(es: seq<nat>): nat { if es == [] then 0 else es[0] + Sum(es[1..]) }

  /** Ticks add up: while their sum is short of what T200 has left, all that happens is that it has that much less. */
  lemma {:induction false} TicksAddUp(p: Profile, s: Entity, es: seq<nat>)
    requires s.t200.Armed? && Sum(es) < s.t200.remaining
    ensures TickAll(p, s, es) == Quiet(s.(t200 := Armed(s.t200.remaining - Sum(es))))
    decreases |es|
  {
    if es != [] { TicksAddUp(p, Tick(p, s, es[0]).s, es[1..]); }
  }

  /** and the tick with which the sum reaches it, and no earlier one, is the expiry. */
  lemma ExpiresWhenDue(p: Profile, s: Entity, es: seq<nat>, last: nat)
    requires s.t200.Armed? && Sum(es) < s.t200.remaining
    ensures Expires(TickAll(p, s, es).s, last) <==> Sum(es) + last >= s.t200.remaining
  {
    TicksAddUp(p, s, es);
  }

  /** `k` ticks of a whole T200 period. */
  function Periods(p: Profile, k: nat): seq<nat> { seq(k, _ => p.t200Ms) }

  /** How long a channel waits for an answer before it gives up, in milliseconds. */
  function PatienceMs(p: Profile): nat { (p.n200 + 2) * p.t200Ms }

  /**
   A command that is never answered is given up N200 + 2 periods after the call and not before: after 22.5 s on the
   SDCCH, 25.2 s on the SACCH, 32.4 s on the FACCH and 27.9 s on the half-rate FACCH.
   */
  lemma GivenUpInTime(p: Profile, s: Entity, call: Action, k: nat)
    requires p.t200Ms >= 1
    requires (call.DoSendSABME? && s.state == LinkReleased) || (call.DoSendDISC? && Established(s))
    ensures TickAll(p, Perform(p, s, call).s, Periods(p, k)).s.state == LinkReleased <==> k * p.t200Ms >= PatienceMs(p)
    ensures PatienceMs(SDCCH) == 22500 && PatienceMs(SACCH) == 25200
    ensures PatienceMs(FACCH) == 32400 && PatienceMs(FACCH_LM) == 27900
    ensures SDCCH.n201 == 20 && SACCH.n201 == 18 && FACCH.n201 == 20 && FACCH_LM.n201 == 20
    ensures SDCCH.t200Ms == 900 && SACCH.t200Ms == 3600 && FACCH.t200Ms == 900 && FACCH_LM.t200Ms == 900
  {
    var o, es := Perform(p, s, call), Periods(p, k);
    assert Budget(p, o.s) == p.n200 + 1 && o.s.t200 == Armed(p.t200Ms);
    EveryTickExpires(p, o.s, es);
    RetransmissionBudget(p, o.s, es);
    PeriodsCompare(k, p.n200 + 2, p.t200Ms);
  }

  lemma PeriodsCompare(j: nat, k: nat, d: nat)
    requires d >= 1
    ensures j * d >= k * d <==> j >= k
  {
    if j >= k {
      Arithmetic.MulMonotone(k, j, d);
    } else {
      Arithmetic.MulMonotone(j + 1, k, d);
      assert (j + 1) * d == j * d + d;
    }
  }

  // ----- Repetition of link control -----

  predicate IsControl(f: Frame) { f.UFrame? && (f.uType == SABME || f.uType == DISC) }

  /** While the entity waits for an answer, the only command it sends is the pending one, unchanged. */
  lemma WaitingRepeats(p: Profile, s: Entity, a: Action)
    requires Consistent(p, s) && (s.state == AwaitingEstablish || s.state == AwaitingRelease)
    ensures var o := Perform(p, s, a);
      && (forall f :: f in o.tx && IsControl(f) ==> o.tx == [f] && Retransmission(s) == [f])
      && (o.s.state == s.state ==> Retransmission(o.s) == Retransmission(s))
  {
    hide ReceiveI, ReceiveS, ReceiveU;
    if a.DoReceive? && a.f.address.sapi == s.sapi {
      match a.f {
        case IFrame(_, _, _, _, _, _) => assert ReceiveI(p, s, a.f) == Quiet(Settle(s)) by { OffLinkI(p, s, a.f); }
        case SFrame(_, _, _, _) => OffLinkS(p, s, a.f);
        case UFrame(_, _, _, _, _) => OffLinkU(p, s, a.f);
      }
    }
  }

  lemma OffLinkI(p: Profile, s: Entity, f: Frame)
    requires f.IFrame? && !Established(s)
    ensures ReceiveI(p, s, f) == Quiet(Settle(s))
  {
  }

  lemma OffLinkS(p: Profile, s: Entity, f: Frame)
    requires f.SFrame? && (s.state == AwaitingEstablish || s.state == AwaitingRelease)
    ensures var o := ReceiveS(p, s, f);
      && (forall g :: g in o.tx ==> !IsControl(g))
      && (o.s.state == s.state ==> Retransmission(o.s) == Retransmission(s))
  {
  }

  lemma OffLinkU(p: Profile, s: Entity, f: Frame)
    requires f.UFrame? && (s.state == AwaitingEstablish || s.state == AwaitingRelease)
    ensures var o := ReceiveU(p, s, f);
      && (forall g :: g in o.tx ==> !IsControl(g))
      && (o.s.state == s.state ==> Retransmission(o.s) == Retransmission(s))
  {
    match f.uType {
      case SABME => assert ReceiveU(p, s, f) == ReceiveSABME(s, f);
      case UA => assert ReceiveU(p, s, f) == ReceiveUA(s, f);
      case DM => assert ReceiveU(p, s, f) == ReceiveDM(p, s, f);
      case DISC => assert ReceiveU(p, s, f) == ReceiveDISC(s, f);
      case UI =>
    }
  }

  /** The state after each action of the run is the given one. */
  predicate Stays(p: Profile, n: Node, acts: seq<Action>, state: LinkState)
    decreases |acts|
  {
    n.s.state == state && (acts == [] || Stays(p, Track(p, n, acts[0]), acts[1..], state))
  }

  lemma {:induction false} WaitingKeeps(p: Profile, n: Node, acts: seq<Action>, state: LinkState)
    requires state == AwaitingEstablish || state == AwaitingRelease
    requires Consistent(p, n.s) && Stays(p, n, acts, state)
    ensures var s := RunNode(p, n, acts).s;
      Consistent(p, s) && s.state == state && Retransmission(s) == Retransmission(n.s)
    decreases |acts|
  {
    hide Consistent, Perform, Retransmission;
    if acts != [] {
      PerformConsistent(p, n.s, acts[0]);
      WaitingRepeats(p, n.s, acts[0]);
      WaitingKeeps(p, Track(p, n, acts[0]), acts[1..], state);
    }
  }

  /**
   A call of sendSABME or sendDISC puts one command on the line. However long the entity then waits, and whatever it
   is told and asked to do meanwhile, every command it sends is that very frame, information included.
   */
  lemma CommandRepeatedVerbatim(p: Profile, n: Node, call: Action, acts: seq<Action>, a: Action)
    requires Consistent(p, n.s)
    requires (call.DoSendSABME? && n.s.state == LinkReleased) || (call.DoSendDISC? && Established(n.s))
    requires Stays(p, Track(p, n, call), acts, if call.DoSendSABME? then AwaitingEstablish else AwaitingRelease)
    ensures var first := Perform(p, n.s, call).tx; var s := RunNode(p, Track(p, n, call), acts).s;
      && first == [UFrame(Address(n.s.sapi, n.s.commandBit, true), if call.DoSendSABME? then SABME else DISC, true,
                          false, if call.DoSendSABME? then call.info else [])]
      && forall f :: f in Perform(p, s, a).tx && IsControl(f) ==> Perform(p, s, a).tx == first
  {
    var m := Track(p, n, call);
    assert Retransmission(m.s) == Perform(p, n.s, call).tx;
    PerformConsistent(p, n.s, call);
    hide Consistent, Perform, Retransmission;
    WaitingKeeps(p, m, acts, if call.DoSendSABME? then AwaitingEstablish else AwaitingRelease);
    WaitingRepeats(p, RunNode(p, m, acts).s, a);
  }

  /** With no input at all, each expiry within the budget sends exactly that frame again. */
  lemma CommandRepeatedOnExpiry(p: Profile, n: Node, call: Action, es: seq<nat>)
    requires (call.DoSendSABME? && n.s.state == LinkReleased) || (call.DoSendDISC? && Established(n.s))
    ensures var o := Perform(p, n.s, call); var e := Expiries(p, o.s, es);
      && e <= p.n200 + 2
      && TickAll(p, o.s, es).tx == Copies(o.tx, if e <= p.n200 + 1 then e else p.n200 + 1)
  {
    var o := Perform(p, n.s, call);
    assert Retransmission(o.s) == o.tx && Budget(p, o.s) == p.n200 + 1;
    RetransmissionBudget(p, o.s, es);
  }

  // ----- The establishment window flag -----

  predicate Released(s: Entity) { s.state == LinkReleased || s.state == Unused }

  /** The release paths that leave the establishment flag as it was. */
  predicate KeepsFlag(s: Entity, a: Action) {
    a.DoOpen? ||
    (a.DoReceive? && a.f.UFrame? && s.state == AwaitingRelease && (a.f.uType == UA || a.f.uType == DM))
  }

  /** A release clears the establishment flag, except through open() and through a UA or DM answering our DISC. */
  lemma ReleaseClearsFlag(p: Profile, s: Entity, a: Action)
    requires !Released(s) && Released(Perform(p, s, a).s)
    ensures Perform(p, s, a).s.establishing == (s.establishing && KeepsFlag(s, a))
  {
    hide ReceiveI, ReceiveS, ReceiveU;
    if a.DoReceive? && a.f.address.sapi == s.sapi {
      match a.f {
        case IFrame(_, _, _, _, _, _) => ReleaseOnI(p, s, a.f);
        case SFrame(_, _, _, _) => ReleaseOnS(p, s, a.f);
        case UFrame(_, _, _, _, _) => ReleaseOnU(p, s, a.f);
      }
    }
  }

  lemma ReleaseOnI(p: Profile, s: Entity, f: Frame)
    requires f.IFrame?
    ensures !ReceiveI(p, s, f).s.establishing
  {
  }

  lemma ReleaseOnS(p: Profile, s: Entity, f: Frame)
    requires f.SFrame?
    ensures !ReceiveS(p, s, f).s.establishing
  {
    AnswerSPlain(ProcessAck(p, Settle(s), f.nr).s, f);
  }

  lemma ReleaseOnU(p: Profile, s: Entity, f: Frame)
    requires f.UFrame? && !Released(s) && Released(ReceiveU(p, s, f).s)
    ensures ReceiveU(p, s, f).s.establishing == (s.establishing && KeepsFlag(s, DoReceive(f)))
  {
    match f.uType {
      case SABME => assert ReceiveU(p, s, f) == ReceiveSABME(s, f);
      case UA => assert ReceiveU(p, s, f) == ReceiveUA(s, f);
      case DM => assert ReceiveU(p, s, f) == ReceiveDM(p, s, f);
      case DISC => assert ReceiveU(p, s, f) == ReceiveDISC(s, f);
      case UI =>
    }
  }

  lemma RunNodeStep(p: Profile, n: Node, a: Action, acts: seq<Action>)
    ensures RunNode(p, n, [a] + acts) == RunNode(p, Track(p, n, a), acts)
  {
    assert ([a] + acts)[1..] == acts;
  }

  const RELEASED := INITIAL.(state := LinkReleased)
  const OPENED := INITIAL.(state := LinkEstablished, establishing := true)
  const CLOSING := OPENED.(state := AwaitingRelease, pending := PendingDISC, t200 := Armed(900))

  lemma StaleSteps(h: History)
    ensures Track(SDCCH, Node(INITIAL, h), DoOpen(Sapi0, true)).s == RELEASED
    ensures Track(SDCCH, Node(RELEASED, h), DoReceive(MakeSABME(Sapi0, false, []))).s == OPENED
    ensures Track(SDCCH, Node(OPENED, h), DoSendDISC).s == CLOSING
    ensures Track(SDCCH, Node(CLOSING, h), DoReceive(MakeUA(Sapi0, true, []))).s == RELEASED.(establishing := true)
  {
    hide Record;
    var request, answer := MakeSABME(Sapi0, false, []), MakeUA(Sapi0, true, []);
    assert Perform(SDCCH, RELEASED, DoReceive(request)) == ReceiveSABME(RELEASED, request);
    assert Perform(SDCCH, CLOSING, DoReceive(answer)) == ReceiveUA(CLOSING, answer);
  }

  /** A responder that releases its own link keeps the flag into LinkReleased. */
  lemma StaleFlagIsReachable()
    ensures exists acts :: var s := RunNode(SDCCH, FRESH, acts).s; s.state == LinkReleased && s.establishing
  {
    hide Track;
    var a1, a2 := DoOpen(Sapi0, true), DoReceive(MakeSABME(Sapi0, false, []));
    var a3, a4 := DoSendDISC, DoReceive(MakeUA(Sapi0, true, []));
    var n1 := Track(SDCCH, FRESH, a1);
    var n2 := Track(SDCCH, n1, a2);
    var n3 := Track(SDCCH, n2, a3);
    StaleSteps(FRESH.h);
    StaleSteps(n1.h);
    StaleSteps(n2.h);
    StaleSteps(n3.h);
    RunNodeStep(SDCCH, FRESH, a1, [a2] + ([a3] + ([a4] + [])));
    RunNodeStep(SDCCH, n1, a2, [a3] + ([a4] + []));
    RunNodeStep(SDCCH, n2, a3, [a4] + []);
    RunNodeStep(SDCCH, n3, a4, []);
    var s := RunNode(SDCCH, FRESH, [a1] + ([a2] + ([a3] + ([a4] + [])))).s;
    assert s.state == LinkReleased && s.establishing;
  }
}
