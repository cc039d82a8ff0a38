/**
 What is accepted gets through, in both directions at once: every unacknowledged segment has something in flight
 that moves it on, and deliveries alone use up what is in flight.
 */
module Progress {
  import opened Frames
  import opened Segmentation
  import opened Entities
  import opened EntityInvariants
  import opened Window
  import opened LinkSystem
  import opened Establishment
  import opened Delivery
  import opened Guards

  // ----- What moves a direction on -----

  predicate IsI(f: Frame, sapi: Sapi) { f.IFrame? && f.address.sapi == sapi }

  predicate IsAck(f: Frame, sapi: Sapi, nr: Seq8) { Numbered(f) && f.address.sapi == sapi && f.nr == nr }

  predicate HasSegment(c: seq<Frame>, sapi: Sapi, ns: Seq8) { exists f :: f in c && IsI(f, sapi) && f.ns == ns }

  predicate HasI(c: seq<Frame>, sapi: Sapi) { exists f :: f in c && IsI(f, sapi) }

  predicate HasAck(c: seq<Frame>, sapi: Sapi, nr: Seq8) { exists f :: f in c && IsAck(f, sapi, nr) }

  /**
   While a segment of `x` is unacknowledged: if `y` still waits for it, it is on its way; if `y` has it, a repetition
   is on its way, which `y` will answer, or the acknowledgement is.
   */
  predicate Moving(x: Entity, y: Entity, xy: seq<Frame>, yx: seq<Frame>) {
    x.va != x.vs ==>
      if y.vr != x.vs then HasSegment(xy, y.sapi, y.vr) else HasI(xy, y.sapi) || HasAck(yx, x.sapi, x.vs)
  }

  lemma InTail(c: seq<Frame>, f: Frame)
    requires f in c && f != c[0]
    ensures f in c[1..]
  {
  }

  // ----- What an established entity makes of a frame -----

  /** Frames that do not end a link: no DISC, and supervisory frames as the entities send them. */
  predicate Benign(f: Frame) {
    match f
    case IFrame(_, _, _, _, _, _) => true
    case SFrame(address, _, t, _) => (t == RR || t == REJ) && !address.command
    case UFrame(_, t, _, _, _) => t != DISC
  }

  /** How many deliveries a frame can cause, itself included, not counting new segments. */
  function Weight(f: Frame): nat {
    match f
    case IFrame(_, _, _, _, _, _) => 3
    case SFrame(_, _, t, _) => if t == REJ then 2 else 1
    case UFrame(_, t, _, _, _) => if t == SABME || t == DISC then 2 else 1
  }

  function TotalWeight(c: seq<Frame>): nat { if c == [] then 0 else Weight(c[0]) + TotalWeight(c[1..]) }

  lemma {:induction false} WeightConcat(c: seq<Frame>, d: seq<Frame>)
    ensures TotalWeight(c + d) == TotalWeight(c) + TotalWeight(d)
  {
    if c == [] {
      assert c + d == d;
    } else {
      assert (c + d)[1..] == c[1..] + d;
      WeightConcat(c[1..], d);
    }
  }

  predicate Heard(s: Entity, f: Frame) { Numbered(f) && f.address.sapi == s.sapi }

  /** The frame frees the line for a segment that is waiting. */
  predicate Frees(s: Entity, f: Frame) { Heard(s, f) && f.nr == s.vs && s.queue != [] }

  /** The frame carries the awaited segment. */
  predicate Brings(s: Entity, f: Frame) { Heard(s, f) && f.IFrame? && f.ns == s.vr }

  /** N(R) is taken over, the line is used if free, an awaited segment moves V(R), and I-frames are answered. */
  predicate Handled(p: Profile, s: Entity, f: Frame, o: Outcome) {
    && Established(o.s) && o.s.sapi == s.sapi
    && o.s.va == (if Heard(s, f) then f.nr else s.va)
    && o.s.vs == (if Frees(s, f) then Next8(s.vs) else s.vs)
    && o.s.vr == (if Brings(s, f) then Next8(s.vr) else s.vr)
    && o.s.queue == (if Frees(s, f) then AfterCut(p.n201, s.queue) else s.queue)
    && (Frees(s, f) ==> HasSegment(o.tx, s.sapi, s.vs))
    && (IsI(f, s.sapi) ==> HasAck(o.tx, s.sapi, o.s.vr))
    && (forall g :: g in o.tx ==> Benign(g))
    && TotalWeight(o.tx) < Weight(f) + (if Frees(s, f) then 4 else 0)
  }

  /** At most one segment, then at most one answer. */
  lemma TwoParts(u: seq<Frame>, v: seq<Frame>)
    requires |u| <= 1 && |v| <= 1
    ensures TotalWeight(u + v) == (if u == [] then 0 else Weight(u[0])) + (if v == [] then 0 else Weight(v[0]))
    ensures u != [] ==> u[0] in u + v
    ensures v != [] ==> v[0] in u + v
    ensures forall g :: g in u + v ==> (u != [] && g == u[0]) || (v != [] && g == v[0])
  {
    WeightConcat(u, v);
    if u != [] { assert (u + v)[0] == u[0]; }
    if v != [] { assert (u + v)[|u|] == v[0]; }
  }

  lemma AckPart(p: Profile, s: Entity, nr: Seq8)
    ensures var o := ProcessAck(p, s, nr); var frees := nr == s.vs && s.queue != [];
      && o.s == s.(vs := o.s.vs, va := nr, queue := o.s.queue, pending := o.s.pending, rc := o.s.rc, t200 := o.s.t200)
      && o.s.vs == (if frees then Next8(s.vs) else s.vs)
      && o.s.queue == (if frees then AfterCut(p.n201, s.queue) else s.queue)
      && (if frees then |o.tx| == 1 && IsI(o.tx[0], s.sapi) && o.tx[0].ns == s.vs else o.tx == [])
  {
    hide Cut, AfterCut;
  }

  lemma HandlesI(p: Profile, s: Entity, f: Frame)
    requires Established(s) && IsI(f, s.sapi) && (f.ns == s.vr ==> !TooLong(p, s, f.info))
    ensures Handled(p, s, f, ReceiveI(p, s, f))
  {
    hide ProcessAck, Cut, AfterCut;
    var s1 := Settle(s);
    AckPart(p, s1, f.nr);
    var acked := ProcessAck(p, s1, f.nr);
    var next := SequenceI(p, acked.s, f);
    SequencePart(p, acked.s, f);
    hide SequenceI;
    TwoParts(acked.tx, next.tx);
  }

  lemma SequencePart(p: Profile, s: Entity, f: Frame)
    requires s.state == LinkEstablished && IsI(f, s.sapi) && (f.ns == s.vr ==> !TooLong(p, s, f.info))
    ensures var o := SequenceI(p, s, f);
      && o.s == s.(vr := if f.ns == s.vr then Next8(s.vr) else s.vr, reassembly := o.s.reassembly)
      && |o.tx| == 1 && IsAck(o.tx[0], s.sapi, o.s.vr) && Benign(o.tx[0]) && Weight(o.tx[0]) <= 2
  {
  }

  lemma HandlesS(p: Profile, s: Entity, f: Frame)
    requires Established(s) && f.SFrame? && f.address.sapi == s.sapi && Benign(f)
    ensures Handled(p, s, f, ReceiveS(p, s, f))
  {
    hide ProcessAck, Cut, AfterCut;
    var s1 := Settle(s);
    AckPart(p, s1, f.nr);
    var acked := ProcessAck(p, s1, f.nr);
    var next := AnswerS(acked.s, f);
    assert next.s == acked.s && |next.tx| <= 1;
    assert next.tx != [] ==> f.sType == REJ && next.tx[0] == MakeS(s.sapi, s.vr, RR, true);
    TwoParts(acked.tx, next.tx);
  }

  lemma HandlesU(p: Profile, s: Entity, f: Frame)
    requires Established(s) && f.UFrame? && f.address.sapi == s.sapi && Benign(f) && (IsSABME(f) ==> s.establishing)
    ensures Handled(p, s, f, ReceiveU(p, s, f))
  {
    var o := ReceiveU(p, s, f);
    match f.uType {
      case SABME => assert o == ReceiveSABME(s, f);
      case UA => assert o == ReceiveUA(s, f);
      case DM => assert o == ReceiveDM(p, s, f);
      case UI =>
    }
    assert |o.tx| <= 1 && (o.tx != [] ==> IsSABME(f) && o.tx[0].UFrame? && o.tx[0].uType == UA);
    assert o.tx != [] ==> o.tx == [o.tx[0]];
    TwoParts(o.tx, []);
    assert o.tx + [] == o.tx;
  }

  lemma Handles(p: Profile, s: Entity, f: Frame)
    requires Established(s) && Benign(f) && (IsSABME(f) ==> s.establishing)
    requires Brings(s, f) ==> !TooLong(p, s, f.info)
    ensures Handled(p, s, f, Perform(p, s, DoReceive(f)))
  {
    hide ReceiveI, ReceiveS, ReceiveU;
    if f.address.sapi == s.sapi {
      match f {
        case IFrame(_, _, _, _, _, _) => HandlesI(p, s, f);
        case SFrame(_, _, _, _) => HandlesS(p, s, f);
        case UFrame(_, _, _, _, _) => HandlesU(p, s, f);
      }
    }
  }

  // ----- Deliveries keep both directions moving -----

  /** The counters of two established ends, and the numbers of the frame at the head of the channel to `x`. */
  predicate InStep(x: Entity, y: Entity, f: Frame) {
    && (if x.va == x.vs then y.vr == x.vs else x.vs == Next8(x.va) && (y.vr == x.va || y.vr == x.vs))
    && (Numbered(f) ==> f.nr == x.va || f.nr == y.vr)
    && (f.IFrame? && f.ns == x.vr ==> y.va != y.vs && y.vs == Next8(x.vr))
  }

  lemma HeadInStep(x: Node, y: Node, xy: seq<Frame>, yx: seq<Frame>)
    requires Synced(ViewOf(x), ViewOf(y), xy, yx) && Established(x.s) && Established(y.s) && yx != []
    ensures InStep(x.s, y.s, yx[0])
  {
    Mod8Step(|x.h.sent|);
    Mod8Step(|y.h.sent|);
    Mod8Step(|x.h.rcvd|);
    if |x.h.sent| > 0 { Mod8Step(|x.h.sent| - 1); }
    if |y.h.sent| > 0 { Mod8Step(|y.h.sent| - 1); }
  }

  /** `x` hears the head of the channel from `y`: its own outstanding segment, or the next one, keeps moving. */
  lemma SenderMoves(p: Profile, x: Entity, y: Entity, xy: seq<Frame>, yx: seq<Frame>, o: Outcome)
    requires x.sapi == y.sapi && yx != [] && InStep(x, y, yx[0]) && Handled(p, x, yx[0], o) && Moving(x, y, xy, yx)
    ensures Moving(o.s, y, xy + o.tx, yx[1..])
  {
    var f := yx[0];
    if Frees(x, f) {
      var g :| g in o.tx && IsI(g, x.sapi) && g.ns == x.vs;
      assert g in xy + o.tx;
    } else if o.s.va != o.s.vs {
      if y.vr != x.vs {
        var g :| g in xy && IsI(g, y.sapi) && g.ns == y.vr;
        assert g in xy + o.tx;
      } else if HasI(xy, y.sapi) {
        var g :| g in xy && IsI(g, y.sapi);
        assert g in xy + o.tx;
      } else {
        var g :| g in yx && IsAck(g, x.sapi, x.vs);
        InTail(yx, g);
      }
    }
  }

  /** and so does the outstanding segment of `y`. */
  lemma ReceiverMoves(p: Profile, x: Entity, y: Entity, xy: seq<Frame>, yx: seq<Frame>, o: Outcome)
    requires x.sapi == y.sapi && yx != [] && InStep(x, y, yx[0]) && Handled(p, x, yx[0], o) && Moving(y, x, yx, xy)
    ensures Moving(y, o.s, yx[1..], xy + o.tx)
  {
    var f := yx[0];
    if y.va != y.vs {
      if IsI(f, x.sapi) && o.s.vr == y.vs {
        var g :| g in o.tx && IsAck(g, x.sapi, o.s.vr);
        assert g in xy + o.tx;
      } else if x.vr != y.vs {
        var g :| g in yx && IsI(g, x.sapi) && g.ns == x.vr;
        InTail(yx, g);
      } else if HasI(yx, x.sapi) {
        var g :| g in yx && IsI(g, x.sapi);
        InTail(yx, g);
      } else {
        var g :| g in xy && IsAck(g, y.sapi, y.vs);
        assert g in xy + o.tx;
      }
    }
  }

  // ----- The running link -----

  /** The messages of `x` pass the receive guards of a peer with profile `q`. */
  predicate Carries(p: Profile, q: Profile, x: Node) {
    (x.h.queued != [] ==> p.n201 <= q.n201) && AllWithin(x.h.queued, MAX_REASSEMBLY)
  }

  predicate AllBenign(c: seq<Frame>) { forall f :: f in c ==> Benign(f) }

  /** Both sides established on one SAPI, no release in flight, no message that the peer would refuse. */
  predicate Running(pa: Profile, pb: Profile, l: Link) {
    && Established(l.a.s) && Established(l.b.s) && l.a.s.sapi == l.b.s.sapi
    && AllBenign(l.ab) && AllBenign(l.ba)
    && Carries(pa, pb, l.a) && Carries(pb, pa, l.b)
  }

  predicate Flowing(pa: Profile, pb: Profile, l: Link)
    requires pa.n201 >= 1 && pb.n201 >= 1
  {
    && LinkInv(pa, pb, l) && Running(pa, pb, l)
    && Moving(l.a.s, l.b.s, l.ab, l.ba) && Moving(l.b.s, l.a.s, l.ba, l.ab)
  }

  /** Segments still to be sent, each worth its own delivery and what that causes. */
  function QueueWork(p: Profile, s: Entity): nat
    requires p.n201 >= 1
  {
    4 * |AllSegments(p.n201, s.queue)|
  }

  /** A bound on the deliveries that are still to come. */
  function Work(pa: Profile, pb: Profile, l: Link): nat
    requires pa.n201 >= 1 && pb.n201 >= 1
  {
    QueueWork(pa, l.a.s) + QueueWork(pb, l.b.s) + TotalWeight(l.ab) + TotalWeight(l.ba)
  }

  lemma BroughtFits(p: Profile, q: Profile, x: Node, y: Node, xy: seq<Frame>, yx: seq<Frame>)
    requires p.n201 >= 1 && q.n201 >= 1 && NodeInv(p, x) && NodeInv(q, y) && Established(x.s) && Established(y.s)
    requires Synced(ViewOf(x), ViewOf(y), xy, yx) && yx != [] && Carries(q, p, y)
    ensures Brings(x.s, yx[0]) ==> !TooLong(p, x.s, yx[0].info)
  {
    if Brings(x.s, yx[0]) {
      HeadInStep(x, y, xy, yx);
      SentMeansQueued(q, y);
      AwaitedFits(q, p, y, x, yx, xy, yx[0]);
    }
  }

  lemma SentMeansQueued(p: Profile, x: Node)
    requires p.n201 >= 1 && NodeInv(p, x) && Established(x.s) && x.s.va != x.s.vs
    requires x.s.vs != 0 || |x.h.sent| > 0
    ensures x.h.queued != []
  {
  }

  /** One side hears the head of its channel: both directions keep moving and the work shrinks. */
  lemma Heads(p: Profile, q: Profile, x: Node, y: Node, xy: seq<Frame>, yx: seq<Frame>)
    requires p.n201 >= 1 && q.n201 >= 1 && NodeInv(p, x) && NodeInv(q, y) && Synced(ViewOf(x), ViewOf(y), xy, yx)
    requires Established(x.s) && Established(y.s) && x.s.sapi == y.s.sapi && Carries(q, p, y)
    requires yx != [] && Benign(yx[0]) && (IsSABME(yx[0]) ==> x.s.establishing)
    requires Moving(x.s, y.s, xy, yx) && Moving(y.s, x.s, yx, xy)
    ensures var o := Perform(p, x.s, DoReceive(yx[0]));
      && Established(o.s) && o.s.sapi == x.s.sapi && AllBenign(o.tx)
      && Moving(o.s, y.s, xy + o.tx, yx[1..]) && Moving(y.s, o.s, yx[1..], xy + o.tx)
      && QueueWork(p, o.s) + TotalWeight(xy + o.tx) + TotalWeight(yx[1..])
           < QueueWork(p, x.s) + TotalWeight(xy) + TotalWeight(yx)
      && Track(p, x, DoReceive(yx[0])).h.queued == x.h.queued
  {
    hide Perform, NodeInv, Synced, AllSegments, Moving;
    var f := yx[0];
    var o := Perform(p, x.s, DoReceive(f));
    BroughtFits(p, q, x, y, xy, yx);
    HeadInStep(x, y, xy, yx);
    Handles(p, x.s, f);
    SenderMoves(p, x.s, y.s, xy, yx, o);
    ReceiverMoves(p, x.s, y.s, xy, yx, o);
    WeightConcat(xy, o.tx);
    QueueWorkShrinks(p, x, f);
    assert x.h.queued + [] == x.h.queued;
  }

  lemma QueueWorkShrinks(p: Profile, x: Node, f: Frame)
    requires p.n201 >= 1 && NodeInv(p, x)
    ensures Frees(x.s, f) ==>
      4 * |AllSegments(p.n201, AfterCut(p.n201, x.s.queue))| + 4 == QueueWork(p, x.s)
  {
    if Frees(x.s, f) { CutTakesFirst(p.n201, x.s.queue); }
  }

  lemma BenignAppend(c: seq<Frame>, d: seq<Frame>)
    requires AllBenign(c) && AllBenign(d)
    ensures AllBenign(c + d) && (c != [] ==> AllBenign(c[1..]) && Benign(c[0]))
  {
  }

  lemma DeliverAFlows(pa: Profile, pb: Profile, l: Link)
    requires pa.n201 >= 1 && pb.n201 >= 1 && Flowing(pa, pb, l) && l.ba != []
    ensures var l' := Next(pa, pb, l, DeliverA);
      && Flowing(pa, pb, l') && Work(pa, pb, l') < Work(pa, pb, l)
      && l'.a.h.queued == l.a.h.queued && l'.b == l.b
  {
    hide NodeInv, Direction, Moving, Perform, Track, TotalWeight, AllBenign, QueueWork;
    NextInv(pa, pb, l, DeliverA);
    BenignAppend(l.ba, []);
    Heads(pa, pb, l.a, l.b, l.ab, l.ba);
    BenignAppend(l.ab, Perform(pa, l.a.s, DoReceive(l.ba[0])).tx);
    TrackState(pa, l.a, DoReceive(l.ba[0]));
  }

  lemma TrackState(p: Profile, n: Node, a: Action)
    ensures Track(p, n, a).s == Perform(p, n.s, a).s
  {
  }

  lemma DeliverBFlows(pa: Profile, pb: Profile, l: Link)
    requires pa.n201 >= 1 && pb.n201 >= 1 && Flowing(pa, pb, l) && l.ab != []
    ensures var l' := Next(pa, pb, l, DeliverB);
      && Flowing(pa, pb, l') && Work(pa, pb, l') < Work(pa, pb, l)
      && l'.b.h.queued == l.b.h.queued && l'.a == l.a
  {
    hide NodeInv, Direction, Moving, Perform, Track, TotalWeight, AllBenign, QueueWork;
    NextInv(pa, pb, l, DeliverB);
    BenignAppend(l.ab, []);
    if IsSABME(l.ab[0]) { assert HasRequest(l.ab); }
    Heads(pb, pa, l.b, l.a, l.ba, l.ab);
    BenignAppend(l.ba, Perform(pb, l.b.s, DoReceive(l.ab[0])).tx);
    TrackState(pb, l.b, DoReceive(l.ab[0]));
  }

  // ----- Sending -----

  lemma MovingGrows(x: Entity, y: Entity, xy: seq<Frame>, yx: seq<Frame>, tx: seq<Frame>)
    ensures Moving(x, y, xy, yx) ==> Moving(x, y, xy + tx, yx)
    ensures Moving(x, y, xy, yx) ==> Moving(x, y, xy, yx + tx)
  {
    assert forall f :: f in xy ==> f in xy + tx;
    assert forall f :: f in yx ==> f in yx + tx;
  }

  /** A new message goes out at once or waits; either way the sender's direction is moving. */
  lemma SendMoves(p: Profile, x: Entity, y: Entity, xy: seq<Frame>, yx: seq<Frame>, data: Octets)
    requires Established(x) && x.sapi == y.sapi && Moving(x, y, xy, yx) && Moving(y, x, yx, xy)
    requires x.va == x.vs ==> y.vr == x.vs
    ensures var o := SendData(p, x, data);
      && Established(o.s) && o.s.sapi == x.sapi && AllBenign(o.tx)
      && Moving(o.s, y, xy + o.tx, yx) && Moving(y, o.s, yx, xy + o.tx)
  {
    hide Cut, AfterCut, Moving;
    var o := SendData(p, x, data);
    MovingGrows(x, y, xy, yx, o.tx);
    MovingGrows(y, x, yx, xy, o.tx);
    SameCounters(y, x, y, o.s, yx, xy + o.tx);
    if o.tx == [] {
      SameCounters(x, y, o.s, y, xy + o.tx, yx);
    } else {
      assert o.tx[0] in xy + o.tx && IsI(o.tx[0], y.sapi) && o.tx[0].ns == y.vr;
      SegmentMoves(o.s, y, xy + o.tx, yx);
    }
  }

  lemma SegmentMoves(x: Entity, y: Entity, xy: seq<Frame>, yx: seq<Frame>)
    requires HasSegment(xy, y.sapi, y.vr)
    ensures Moving(x, y, xy, yx)
  {
  }

  lemma SameCounters(x: Entity, y: Entity, x': Entity, y': Entity, xy: seq<Frame>, yx: seq<Frame>)
    requires Moving(x, y, xy, yx) && x'.va == x.va && x'.vs == x.vs && x'.sapi == x.sapi
    requires y'.vr == y.vr && y'.sapi == y.sapi
    ensures Moving(x', y', xy, yx)
  {
  }

  // ----- An expiry sets a stalled direction moving -----

  predicate Outstanding(s: Entity) { s.va != s.vs }

  /** The tick that exhausts T200, on a side that has a segment unacknowledged. */
  function Expiry(s: Entity): Action { DoTick(if s.t200.Armed? then s.t200.remaining else 0) }

  /** The expiry repeats the segment, whichever it is that the peer needs. */
  lemma ExpiryMoves(p: Profile, x: Node, y: Entity, xy: seq<Frame>, yx: seq<Frame>)
    requires p.n201 >= 1 && NodeInv(p, x) && Established(x.s) && Guarded(x.s) && Outstanding(x.s) && x.s.rc <= p.n200
    requires x.s.sapi == y.sapi && x.s.vs == Next8(x.s.va) && (y.vr == x.s.va || y.vr == x.s.vs)
    ensures var o := Perform(p, x.s, Expiry(x.s));
      && Moving(o.s, y, xy + o.tx, yx) && AllBenign(o.tx)
      && o.s == x.s.(rc := x.s.rc + 1, t200 := Armed(p.t200Ms))
      && Track(p, x, Expiry(x.s)).h == x.h
  {
    hide NodeInv, Linked;
    PendingIsOutstanding(p, x);
    AddNothing(x.h);
    var o := Perform(p, x.s, Expiry(x.s));
    assert o.tx == Retransmission(x.s) && o.tx[0] in xy + o.tx;
    assert IsI(o.tx[0], y.sapi) && o.tx[0].ns == x.s.va;
  }

  lemma PendingIsOutstanding(p: Profile, x: Node)
    requires p.n201 >= 1 && NodeInv(p, x) && Established(x.s) && x.s.pending.PendingI? && x.s.vs == Next8(x.s.va)
    ensures x.s.pending.ns == x.s.va
  {
    hide Consistent, Frozen, AllSegments, Assemble;
    Mod8Step(|x.h.sent| - 1);
  }

  // ----- Runs without loss -----

  /** Calls of layer 3 and of the clock that neither end the link nor offer a message the peer would refuse. */
  predicate Ordinary(p: Profile, q: Profile, s: Entity, act: Action) {
    match act
    case DoSendData(data) => p.n201 <= q.n201 && |data| <= MAX_REASSEMBLY
    case DoSendUI(_, _) => true
    case DoTick(elapsed) => Expires(s, elapsed) ==> s.rc <= p.n200
    case _ => false
  }

  /** Deliveries, and such calls on either side. */
  predicate Lossless(pa: Profile, pb: Profile, l: Link, e: Event) {
    match e
    case CallA(act) => Ordinary(pa, pb, l.a.s, act)
    case CallB(act) => Ordinary(pb, pa, l.b.s, act)
    case DeliverA => true
    case DeliverB => true
    case _ => false
  }

  predicate LosslessRun(pa: Profile, pb: Profile, l: Link, es: seq<Event>)
    decreases |es|
  {
    es == [] || (Lossless(pa, pb, l, es[0]) && LosslessRun(pa, pb, Next(pa, pb, l, es[0]), es[1..]))
  }

  /** A tick within the budget and a UI frame leave the counters alone. */
  lemma SideCall(p: Profile, s: Entity, act: Action)
    requires Consistent(p, s) && Established(s)
    requires act.DoSendUI? || (act.DoTick? && (Expires(s, act.elapsed) ==> s.rc <= p.n200))
    ensures var o := Perform(p, s, act); o.s == s.(rc := o.s.rc, t200 := o.s.t200) && AllBenign(o.tx)
  {
  }

  /** An ordinary call of `x` keeps both directions moving. */
  lemma Calls(p: Profile, q: Profile, x: Node, y: Node, xy: seq<Frame>, yx: seq<Frame>, act: Action)
    requires p.n201 >= 1 && NodeInv(p, x) && Synced(ViewOf(x), ViewOf(y), xy, yx)
    requires Established(x.s) && Established(y.s) && x.s.sapi == y.s.sapi && Carries(p, q, x)
    requires Moving(x.s, y.s, xy, yx) && Moving(y.s, x.s, yx, xy) && Ordinary(p, q, x.s, act)
    ensures var o := Perform(p, x.s, act);
      && Established(o.s) && o.s.sapi == x.s.sapi && AllBenign(o.tx)
      && Moving(o.s, y.s, xy + o.tx, yx) && Moving(y.s, o.s, yx, xy + o.tx)
      && Carries(p, q, Track(p, x, act))
  {
    hide NodeInv, Moving, TrySend;
    var o := Perform(p, x.s, act);
    if act.DoSendData? {
      IdleInStep(x, y, xy, yx);
      SendMoves(p, x.s, y.s, xy, yx, act.data);
    } else {
      SideCallMoves(p, x, y.s, xy, yx, act);
    }
  }

  lemma SideCallMoves(p: Profile, x: Node, y: Entity, xy: seq<Frame>, yx: seq<Frame>, act: Action)
    requires p.n201 >= 1 && NodeInv(p, x) && Established(x.s) && Moving(x.s, y, xy, yx) && Moving(y, x.s, yx, xy)
    requires act.DoSendUI? || (act.DoTick? && (Expires(x.s, act.elapsed) ==> x.s.rc <= p.n200))
    ensures var o := Perform(p, x.s, act);
      && Established(o.s) && o.s.sapi == x.s.sapi && AllBenign(o.tx)
      && Moving(o.s, y, xy + o.tx, yx) && Moving(y, o.s, yx, xy + o.tx)
  {
    hide Perform, Moving, Recorded;
    var o := Perform(p, x.s, act);
    SideCall(p, x.s, act);
    MovingGrows(x.s, y, xy, yx, o.tx);
    MovingGrows(y, x.s, yx, xy, o.tx);
    SameCounters(x.s, y, o.s, y, xy + o.tx, yx);
    SameCounters(y, x.s, y, o.s, yx, xy + o.tx);
  }

  lemma IdleInStep(x: Node, y: Node, xy: seq<Frame>, yx: seq<Frame>)
    requires Synced(ViewOf(x), ViewOf(y), xy, yx) && Established(x.s) && Established(y.s)
    ensures if x.s.va == x.s.vs then y.s.vr == x.s.vs
            else x.s.vs == Next8(x.s.va) && (y.s.vr == x.s.va || y.s.vr == x.s.vs)
  {
    Mod8Step(|x.h.sent|);
    if |x.h.sent| > 0 { Mod8Step(|x.h.sent| - 1); }
  }

  lemma CallAFlows(pa: Profile, pb: Profile, l: Link, act: Action)
    requires pa.n201 >= 1 && pb.n201 >= 1 && Flowing(pa, pb, l) && Ordinary(pa, pb, l.a.s, act)
    ensures Flowing(pa, pb, Next(pa, pb, l, CallA(act)))
  {
    hide NodeInv, Direction, Moving, Perform, Track, AllBenign;
    NextInv(pa, pb, l, CallA(act));
    Calls(pa, pb, l.a, l.b, l.ab, l.ba, act);
    BenignAppend(l.ab, Perform(pa, l.a.s, act).tx);
    TrackState(pa, l.a, act);
  }

  lemma CallBFlows(pa: Profile, pb: Profile, l: Link, act: Action)
    requires pa.n201 >= 1 && pb.n201 >= 1 && Flowing(pa, pb, l) && Ordinary(pb, pa, l.b.s, act)
    ensures Flowing(pa, pb, Next(pa, pb, l, CallB(act)))
  {
    hide NodeInv, Direction, Moving, Perform, Track, AllBenign;
    NextInv(pa, pb, l, CallB(act));
    Calls(pb, pa, l.b, l.a, l.ba, l.ab, act);
    BenignAppend(l.ba, Perform(pb, l.b.s, act).tx);
    TrackState(pb, l.b, act);
  }

  /** Every delivery and every ordinary call keeps the link flowing. */
  lemma NextFlows(pa: Profile, pb: Profile, l: Link, e: Event)
    requires pa.n201 >= 1 && pb.n201 >= 1 && Flowing(pa, pb, l) && Lossless(pa, pb, l, e)
    ensures Flowing(pa, pb, Next(pa, pb, l, e))
  {
    hide Flowing;
    match e {
      case CallA(act) => CallAFlows(pa, pb, l, act);
      case CallB(act) => CallBFlows(pa, pb, l, act);
      case DeliverA => if l.ba != [] { DeliverAFlows(pa, pb, l); }
      case DeliverB => if l.ab != [] { DeliverBFlows(pa, pb, l); }
    }
  }

  lemma {:induction false} RunFlows(pa: Profile, pb: Profile, l: Link, es: seq<Event>)
    requires pa.n201 >= 1 && pb.n201 >= 1 && Flowing(pa, pb, l) && LosslessRun(pa, pb, l, es)
    ensures Flowing(pa, pb, Run(pa, pb, l, es))
    decreases |es|
  {
    hide Flowing, Next, Lossless;
    if es != [] {
      NextFlows(pa, pb, l, es[0]);
      RunFlows(pa, pb, Next(pa, pb, l, es[0]), es[1..]);
    }
  }

  // ----- Draining -----

  /** Nothing in flight, nothing unacknowledged, and each side has delivered all that the other accepted. */
  predicate AllDelivered(l: Link) {
    && l.ab == [] && l.ba == []
    && l.a.s.va == l.a.s.vs && l.b.s.va == l.b.s.vs
    && l.b.h.delivered == l.a.h.queued && l.a.h.delivered == l.b.h.queued
  }

  /** On a flowing link, whatever the schedule was: empty channels mean that everything has arrived. */
  lemma QuietMeansDelivered(pa: Profile, pb: Profile, l: Link)
    requires pa.n201 >= 1 && pb.n201 >= 1 && Flowing(pa, pb, l) && l.ab == [] && l.ba == []
    ensures AllDelivered(l)
  {
    hide NodeInv, Direction, Handshake;
    InOrderFrom(pa, pb, l.a, l.b, l.ab, l.ba);
    InOrderFrom(pb, pa, l.b, l.a, l.ba, l.ab);
  }

  function Rounds(n: nat): seq<Event> { if n == 0 then [] else [DeliverA, DeliverB] + Rounds(n - 1) }

  lemma RoundsStep(pa: Profile, pb: Profile, l: Link, n: nat)
    requires n >= 1
    ensures Run(pa, pb, l, Rounds(n)) == Run(pa, pb, Next(pa, pb, Next(pa, pb, l, DeliverA), DeliverB), Rounds(n - 1))
  {
    hide Next;
    var es := Rounds(n);
    assert es[0] == DeliverA && es[1] == DeliverB && es[1..][1..] == Rounds(n - 1);
  }

  /** One round leaves the messages alone and shrinks the work, unless nothing is in flight. */
  lemma RoundFlows(pa: Profile, pb: Profile, l: Link)
    requires pa.n201 >= 1 && pb.n201 >= 1 && Flowing(pa, pb, l)
    ensures var l' := Next(pa, pb, Next(pa, pb, l, DeliverA), DeliverB);
      && Flowing(pa, pb, l') && l'.a.h.queued == l.a.h.queued && l'.b.h.queued == l.b.h.queued
      && (l' == l || Work(pa, pb, l') < Work(pa, pb, l))
      && (l.ab == [] && l.ba == [] <==> l' == l)
  {
    hide Flowing, Work;
    var l1 := Next(pa, pb, l, DeliverA);
    if l.ba != [] { DeliverAFlows(pa, pb, l); }
    if l1.ab != [] { DeliverBFlows(pa, pb, l1); }
  }

  /** Enough rounds of plain delivery empty the channels and deliver everything. */
  lemma {:induction false} Drains(pa: Profile, pb: Profile, l: Link, n: nat)
    requires pa.n201 >= 1 && pb.n201 >= 1 && Flowing(pa, pb, l) && n >= Work(pa, pb, l)
    ensures var l' := Run(pa, pb, l, Rounds(n));
      AllDelivered(l') && l'.a.h.queued == l.a.h.queued && l'.b.h.queued == l.b.h.queued
    decreases n
  {
    hide Flowing, Next, Run, Rounds;
    if l.ab == [] && l.ba == [] {
      StaysQuiet(pa, pb, l, n);
      QuietMeansDelivered(pa, pb, l);
    } else {
      SomethingToDo(pa, pb, l);
      RoundsStep(pa, pb, l, n);
      RoundFlows(pa, pb, l);
      Drains(pa, pb, Next(pa, pb, Next(pa, pb, l, DeliverA), DeliverB), n - 1);
    }
  }

  lemma SomethingToDo(pa: Profile, pb: Profile, l: Link)
    requires pa.n201 >= 1 && pb.n201 >= 1 && (l.ab != [] || l.ba != [])
    ensures Work(pa, pb, l) >= 1
  {
  }

  lemma {:induction false} StaysQuiet(pa: Profile, pb: Profile, l: Link, n: nat)
    requires l.ab == [] && l.ba == []
    ensures Run(pa, pb, l, Rounds(n)) == l
  {
    if n > 0 {
      RoundsStep(pa, pb, l, n);
      StaysQuiet(pa, pb, l, n - 1);
    }
  }

  // ----- The main results -----

  lemma FreshFlows(pa: Profile, pb: Profile, l: Link)
    requires pa.n201 >= 1 && pb.n201 >= 1 && l.ab == [] && l.ba == []
    requires FreshlyLinked(pa, l.a) && FreshlyLinked(pb, l.b) && l.a.s.sapi == l.b.s.sapi
    ensures Flowing(pa, pb, l)
  {
    hide NodeInv, Direction, Handshake;
    InitialInv(pa, pb, l);
  }

  /**
   Transfer without loss: on two freshly established sides, under any interleaving of messages and UI frames sent by
   both, deliveries, and ticks within the budget, plain delivery then brings every accepted message across.
   */
  lemma TransferWithoutLoss(pa: Profile, pb: Profile, l: Link, es: seq<Event>, n: nat)
    requires pa.n201 >= 1 && pb.n201 >= 1 && l.ab == [] && l.ba == []
    requires FreshlyLinked(pa, l.a) && FreshlyLinked(pb, l.b) && l.a.s.sapi == l.b.s.sapi
    requires LosslessRun(pa, pb, l, es) && n >= Work(pa, pb, Run(pa, pb, l, es))
    ensures var l1 := Run(pa, pb, l, es); var l2 := Run(pa, pb, l1, Rounds(n));
      && AllDelivered(l2)
      && l2.b.h.delivered == l1.a.h.queued && l2.a.h.delivered == l1.b.h.queued
  {
    hide Flowing, Run, Rounds, Work, LosslessRun, FreshlyLinked;
    FreshFlows(pa, pb, l);
    RunFlows(pa, pb, l, es);
    Drains(pa, pb, Run(pa, pb, l, es), n);
  }

  /** Supervisory frames in flight are always as the entities send them. */
  predicate Usual(c: seq<Frame>) { forall f :: f in c && f.SFrame? ==> Benign(f) }

  lemma SentUsual(p: Profile, s: Entity, a: Action)
    ensures Usual(Perform(p, s, a).tx)
  {
    hide ReceiveI, ReceiveS, ReceiveU;
    if a.DoReceive? && a.f.address.sapi == s.sapi {
      match a.f {
        case IFrame(_, _, _, _, _, _) => UsualOnI(p, s, a.f);
        case SFrame(_, _, _, _) => UsualOnS(p, s, a.f);
        case UFrame(_, _, _, _, _) => ReceiveUPlain(p, s, a.f);
      }
    }
  }

  lemma UsualOnI(p: Profile, s: Entity, f: Frame)
    requires f.IFrame?
    ensures Usual(ReceiveI(p, s, f).tx)
  {
    hide ProcessAck;
    SentOnAck(p, Settle(s), f.nr);
  }

  lemma UsualOnS(p: Profile, s: Entity, f: Frame)
    requires f.SFrame?
    ensures Usual(ReceiveS(p, s, f).tx)
  {
    hide ProcessAck;
    SentOnAck(p, Settle(s), f.nr);
  }

  lemma NextUsual(pa: Profile, pb: Profile, l: Link, e: Event)
    requires Usual(l.ab) && Usual(l.ba)
    ensures var l' := Next(pa, pb, l, e); Usual(l'.ab) && Usual(l'.ba)
  {
    hide Perform, Track;
    match e {
      case CallA(act) => SentUsual(pa, l.a.s, act);
      case CallB(act) => SentUsual(pb, l.b.s, act);
      case DeliverA => if l.ba != [] { SentUsual(pa, l.a.s, DoReceive(l.ba[0])); }
      case DeliverB => if l.ab != [] { SentUsual(pb, l.b.s, DoReceive(l.ab[0])); }
      case _ =>
    }
  }

  lemma {:induction false} RunUsual(pa: Profile, pb: Profile, l: Link, es: seq<Event>)
    requires Usual(l.ab) && Usual(l.ba)
    ensures var l' := Run(pa, pb, l, es); Usual(l'.ab) && Usual(l'.ba)
    decreases |es|
  {
    hide Next, Usual;
    if es != [] {
      NextUsual(pa, pb, l, es[0]);
      RunUsual(pa, pb, Next(pa, pb, l, es[0]), es[1..]);
    }
  }

  predicate NoRelease(c: seq<Frame>) { forall f :: f in c && f.UFrame? ==> f.uType != DISC }

  /** T200 expires on each side that has a segment unacknowledged. */
  function ExpireA(pa: Profile, pb: Profile, l: Link): Link {
    if Outstanding(l.a.s) then Next(pa, pb, l, CallA(Expiry(l.a.s))) else l
  }

  function ExpireB(pa: Profile, pb: Profile, l: Link): Link {
    if Outstanding(l.b.s) then Next(pa, pb, l, CallB(Expiry(l.b.s))) else l
  }

  predicate WithinBudget(p: Profile, s: Entity) { Outstanding(s) ==> s.rc <= p.n200 }

  lemma ExpireAMoves(pa: Profile, pb: Profile, l: Link)
    requires pa.n201 >= 1 && pb.n201 >= 1 && LinkInv(pa, pb, l) && Running(pa, pb, l)
    requires Guarded(l.a.s) && WithinBudget(pa, l.a.s)
    ensures var l' := ExpireA(pa, pb, l);
      && LinkInv(pa, pb, l') && Running(pa, pb, l') && Moving(l'.a.s, l'.b.s, l'.ab, l'.ba)
      && l'.b == l.b && l'.a.h == l.a.h
  {
    hide NodeInv, Direction, Handshake, Moving, Perform, Track, AllBenign, Guarded;
    IdleInStep(l.a, l.b, l.ab, l.ba);
    if Outstanding(l.a.s) {
      NextInv(pa, pb, l, CallA(Expiry(l.a.s)));
      ExpiryMoves(pa, l.a, l.b.s, l.ab, l.ba);
      BenignAppend(l.ab, Perform(pa, l.a.s, Expiry(l.a.s)).tx);
      TrackState(pa, l.a, Expiry(l.a.s));
    } else {
      IdleMoves(l.a.s, l.b.s, l.ab, l.ba);
    }
  }

  lemma IdleMoves(x: Entity, y: Entity, xy: seq<Frame>, yx: seq<Frame>)
    requires !Outstanding(x)
    ensures Moving(x, y, xy, yx)
  {
  }

  lemma ExpireBMoves(pa: Profile, pb: Profile, l: Link)
    requires pa.n201 >= 1 && pb.n201 >= 1 && LinkInv(pa, pb, l) && Running(pa, pb, l)
    requires Guarded(l.b.s) && WithinBudget(pb, l.b.s) && Moving(l.a.s, l.b.s, l.ab, l.ba)
    ensures var l' := ExpireB(pa, pb, l);
      && Flowing(pa, pb, l') && l'.a == l.a && l'.b.h == l.b.h
  {
    hide NodeInv, Direction, Handshake, Moving, Perform, Track, AllBenign, Guarded;
    IdleInStep(l.b, l.a, l.ba, l.ab);
    if Outstanding(l.b.s) {
      var tx := Perform(pb, l.b.s, Expiry(l.b.s)).tx;
      NextInv(pa, pb, l, CallB(Expiry(l.b.s)));
      ExpiryMoves(pb, l.b, l.a.s, l.ba, l.ab);
      BenignAppend(l.ba, tx);
      TrackState(pb, l.b, Expiry(l.b.s));
      MovingGrows(l.a.s, l.b.s, l.ab, l.ba, tx);
      SameCounters(l.a.s, l.b.s, l.a.s, Perform(pb, l.b.s, Expiry(l.b.s)).s, l.ab, l.ba + tx);
    } else {
      IdleMoves(l.b.s, l.a.s, l.ba, l.ab);
    }
  }

  /**
   Recovery, in both directions at once. Take any permitted run, whatever was lost in it, that leaves both sides
   established with no DISC in flight. If T200 then expires on each side that has a segment unacknowledged, within
   its budget, plain delivery brings every message accepted on either side across, each exactly once.
   */
  lemma RecoversFromLoss(pa: Profile, pb: Profile, start: Link, es: seq<Event>, n: nat)
    requires pa.n201 >= 1 && pb.n201 >= 1 && Initial(pa, pb, start) && PermittedRun(pa, pb, start, es)
    requires var l := Run(pa, pb, start, es);
      && Established(l.a.s) && Established(l.b.s) && l.a.s.sapi == l.b.s.sapi && NoRelease(l.ab) && NoRelease(l.ba)
      && WithinBudget(pa, l.a.s) && WithinBudget(pb, l.b.s) && Carries(pa, pb, l.a) && Carries(pb, pa, l.b)
      && n >= Work(pa, pb, ExpireB(pa, pb, ExpireA(pa, pb, l)))
    ensures var l := Run(pa, pb, start, es);
      && (Outstanding(l.a.s) ==> l.a.s.t200.Armed?) && (Outstanding(l.b.s) ==> l.b.s.t200.Armed?)
      && var l' := Run(pa, pb, ExpireB(pa, pb, ExpireA(pa, pb, l)), Rounds(n));
         && AllDelivered(l')
         && l'.b.h.delivered == l.a.h.queued && l'.a.h.delivered == l.b.h.queued
  {
    hide LinkInv, Flowing, Run, Rounds, Work, PermittedRun, ExpireA, ExpireB;
    var l := Run(pa, pb, start, es);
    ReachableInv(pa, pb, start, es);
    RunUsual(pa, pb, start, es);
    var l1 := ExpireA(pa, pb, l);
    ExpireAMoves(pa, pb, l);
    ExpireBMoves(pa, pb, l1);
    Drains(pa, pb, ExpireB(pa, pb, l1), n);
  }
}
