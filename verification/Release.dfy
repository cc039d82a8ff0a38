/** Release agreement: when one side hears that its release is confirmed, is the other side really down? */
module Release {
  import opened Frames
  import opened Entities
  import opened EntityInvariants
  import opened Establishment
  import opened Delivery

  const CONFIRM := Indication(L3_RELEASE_CONFIRM, [])

  /** Frames that confirm a release to an entity awaiting it. */
  predicate Confirms(sapi: Sapi, f: Frame) {
    && f.UFrame? && f.address.sapi == sapi
    && (((f.uType == UA || f.uType == DM) && f.pf) || f.uType == DISC)
  }

  /** No side starts a new link. */
  predicate NoNewLink(l: Link, e: Event) {
    match e
    case CallA(act) => !act.DoReceive? && (act.DoSendSABME? ==> l.a.s.state != LinkReleased)
    case CallB(act) => !act.DoReceive? && (act.DoSendSABME? ==> l.b.s.state != LinkReleased)
    case _ => true
  }

  predicate NoNewLinks(pa: Profile, pb: Profile, l: Link, es: seq<Event>)
    decreases |es|
  {
    es == [] || (NoNewLink(l, es[0]) && NoNewLinks(pa, pb, Next(pa, pb, l, es[0]), es[1..]))
  }

  /** What the event reports to layer 3 at `a` and at `b`. */
  function ReportsA(pa: Profile, l: Link, e: Event): seq<Indication> {
    match e
    case CallA(act) => Perform(pa, l.a.s, act).up
    case DeliverA => if l.ba == [] then [] else Perform(pa, l.a.s, DoReceive(l.ba[0])).up
    case _ => []
  }

  function ReportsB(pb: Profile, l: Link, e: Event): seq<Indication> {
    match e
    case CallB(act) => Perform(pb, l.b.s, act).up
    case DeliverB => if l.ab == [] then [] else Perform(pb, l.b.s, DoReceive(l.ab[0])).up
    case _ => []
  }

  /** A release is confirmed to one side while the other is still established. */
  predicate Disagrees(pa: Profile, pb: Profile, l: Link, e: Event) {
    || (CONFIRM in ReportsA(pa, l, e) && Established(l.b.s))
    || (CONFIRM in ReportsB(pb, l, e) && Established(l.a.s))
  }

  /** No run without a new link ever disagrees. */
  ghost predicate AlwaysAgrees(pa: Profile, pb: Profile, l: Link) {
    forall es, e :: NoNewLinks(pa, pb, l, es) && NoNewLink(Run(pa, pb, l, es), e) ==>
      !Disagrees(pa, pb, Run(pa, pb, l, es), e)
  }

  predicate NoRequests(c: seq<Frame>) { forall i :: 0 <= i < |c| ==> !IsSABME(c[i]) }

  predicate NoConfirms(sapi: Sapi, c: seq<Frame>) { forall i :: 0 <= i < |c| ==> !Confirms(sapi, c[i]) }

  // ----- Nothing confirming in flight is enough -----

  /** A confirming frame is in flight only from a side that is no longer established. */
  predicate Settled(pa: Profile, pb: Profile, l: Link) {
    && Consistent(pa, l.a.s) && Consistent(pb, l.b.s)
    && NoRequests(l.ab) && NoRequests(l.ba)
    && l.a.s.state != AwaitingEstablish && l.b.s.state != AwaitingEstablish
    && (Established(l.a.s) && Connected(l.b.s) ==> NoConfirms(l.b.s.sapi, l.ab))
    && (Established(l.b.s) && Connected(l.a.s) ==> NoConfirms(l.a.s.sapi, l.ba))
  }

  /** An entity left established by an action has neither sent a confirming frame nor just become established. */
  predicate Steady(s: Entity, o: Outcome) {
    && (Connected(o.s) ==> Connected(s) && o.s.sapi == s.sapi) && o.s.state != AwaitingEstablish
    && (Established(o.s) ==> Established(s))
    && (forall f :: f in o.tx ==> !IsSABME(f))
    && (Established(o.s) ==> forall f, sapi :: f in o.tx ==> !Confirms(sapi, f))
  }

  lemma CallSteady(p: Profile, s: Entity, a: Action)
    requires Consistent(p, s) && s.state != AwaitingEstablish
    requires !a.DoReceive? && (a.DoSendSABME? ==> s.state != LinkReleased)
    ensures Steady(s, Perform(p, s, a)) && CONFIRM !in Perform(p, s, a).up
  {
  }

  lemma ISteady(p: Profile, s: Entity, f: Frame)
    requires s.state != AwaitingEstablish && f.IFrame?
    ensures Steady(s, ReceiveI(p, s, f)) && CONFIRM !in ReceiveI(p, s, f).up
  {
    SentOnAck(p, Settle(s), f.nr);
    AckKeeps(p, Settle(s), f.nr);
  }

  lemma AnswerSteady(s: Entity, f: Frame)
    requires f.SFrame? && s.state != AwaitingEstablish
    ensures Steady(s, AnswerS(s, f)) && CONFIRM !in AnswerS(s, f).up
  {
  }

  lemma SSteady(p: Profile, s: Entity, f: Frame)
    requires s.state != AwaitingEstablish && f.SFrame?
    ensures Steady(s, ReceiveS(p, s, f)) && CONFIRM !in ReceiveS(p, s, f).up
  {
    if Established(s) && (f.sType == RR || f.sType == REJ) {
      SentOnAck(p, Settle(s), f.nr);
      AckKeeps(p, Settle(s), f.nr);
      AnswerSteady(ProcessAck(p, Settle(s), f.nr).s, f);
    }
  }

  lemma AckKeeps(p: Profile, s: Entity, nr: Seq8)
    ensures var o := ProcessAck(p, s, nr); o.s.state == s.state && o.s.sapi == s.sapi && o.up == []
  {
  }

  lemma UnnumberedSteady(p: Profile, s: Entity, f: Frame)
    requires s.state != AwaitingEstablish && f.UFrame? && f.uType != SABME
    ensures Steady(s, Receive(p, s, f))
    ensures CONFIRM in Receive(p, s, f).up ==> Connected(s) && Confirms(s.sapi, f)
  {
    if f.address.sapi == s.sapi {
      match f.uType {
        case UA => assert Receive(p, s, f) == ReceiveUA(s, f);
        case DM => assert Receive(p, s, f) == ReceiveDM(p, s, f);
        case DISC => assert Receive(p, s, f) == ReceiveDISC(s, f);
        case UI =>
      }
    }
  }

  lemma ReceiveSteady(p: Profile, s: Entity, f: Frame)
    requires Consistent(p, s) && s.state != AwaitingEstablish && !IsSABME(f)
    ensures Steady(s, Perform(p, s, DoReceive(f)))
    ensures CONFIRM in Perform(p, s, DoReceive(f)).up ==> Connected(s) && Confirms(s.sapi, f)
  {
    if f.address.sapi == s.sapi {
      match f {
        case IFrame(_, _, _, _, _, _) => ISteady(p, s, f);
        case SFrame(_, _, _, _) => SSteady(p, s, f);
        case UFrame(_, _, _, _, _) => UnnumberedSteady(p, s, f);
      }
    }
  }

  /** A steady step of the side that feeds channel `c` keeps the channel free of requests and untimely confirmations. */
  lemma SteadyChannel(s: Entity, o: Outcome, sapi: Sapi, c: seq<Frame>)
    requires Steady(s, o) && NoRequests(c)
    ensures NoRequests(c + o.tx)
    ensures (Established(s) ==> NoConfirms(sapi, c)) ==> (Established(o.s) ==> NoConfirms(sapi, c + o.tx))
  {
    assert forall i :: |c| <= i < |c + o.tx| ==> (c + o.tx)[i] in o.tx;
  }

  lemma PartOfChannel(sapi: Sapi, c: seq<Frame>, k: nat)
    ensures NoRequests(c) ==> NoRequests(Without(c, k))
    ensures NoConfirms(sapi, c) ==> NoConfirms(sapi, Without(c, k))
    ensures c != [] ==> Without(c, 0) == c[1..]
  {
    var d := Without(c, k);
    assert forall i :: 0 <= i < |d| ==> d[i] == c[if i < k then i else i + 1];
  }

  lemma ActASettled(pa: Profile, pb: Profile, l: Link, act: Action, ba': seq<Frame>)
    requires Settled(pa, pb, l) && Steady(l.a.s, Perform(pa, l.a.s, act))
    requires ba' == l.ba || (l.ba != [] && ba' == l.ba[1..])
    ensures Settled(pa, pb, l.(a := Track(pa, l.a, act), ab := l.ab + Perform(pa, l.a.s, act).tx, ba := ba'))
  {
    PerformConsistent(pa, l.a.s, act);
    SteadyChannel(l.a.s, Perform(pa, l.a.s, act), l.b.s.sapi, l.ab);
    PartOfChannel(l.a.s.sapi, l.ba, 0);
  }

  lemma ActBSettled(pa: Profile, pb: Profile, l: Link, act: Action, ab': seq<Frame>)
    requires Settled(pa, pb, l) && Steady(l.b.s, Perform(pb, l.b.s, act))
    requires ab' == l.ab || (l.ab != [] && ab' == l.ab[1..])
    ensures Settled(pa, pb, l.(b := Track(pb, l.b, act), ba := l.ba + Perform(pb, l.b.s, act).tx, ab := ab'))
  {
    PerformConsistent(pb, l.b.s, act);
    SteadyChannel(l.b.s, Perform(pb, l.b.s, act), l.a.s.sapi, l.ba);
    PartOfChannel(l.b.s.sapi, l.ab, 0);
  }

  lemma NextSettled(pa: Profile, pb: Profile, l: Link, e: Event)
    requires Settled(pa, pb, l) && NoNewLink(l, e)
    ensures Settled(pa, pb, Next(pa, pb, l, e)) && !Disagrees(pa, pb, l, e)
  {
    match e {
      case CallA(act) => CallSteady(pa, l.a.s, act); ActASettled(pa, pb, l, act, l.ba);
      case CallB(act) => CallSteady(pb, l.b.s, act); ActBSettled(pa, pb, l, act, l.ab);
      case DeliverA =>
        if l.ba != [] { ReceiveSteady(pa, l.a.s, l.ba[0]); ActASettled(pa, pb, l, DoReceive(l.ba[0]), l.ba[1..]); }
      case DeliverB =>
        if l.ab != [] { ReceiveSteady(pb, l.b.s, l.ab[0]); ActBSettled(pa, pb, l, DoReceive(l.ab[0]), l.ab[1..]); }
      case LoseToA(k) => PartOfChannel(l.a.s.sapi, l.ba, k);
      case LoseToB(k) => PartOfChannel(l.b.s.sapi, l.ab, k);
    }
  }

  lemma {:induction false} RunSettled(pa: Profile, pb: Profile, l: Link, es: seq<Event>)
    requires Settled(pa, pb, l) && NoNewLinks(pa, pb, l, es)
    ensures Settled(pa, pb, Run(pa, pb, l, es))
    decreases |es|
  {
    if es != [] {
      NextSettled(pa, pb, l, es[0]);
      RunSettled(pa, pb, Next(pa, pb, l, es[0]), es[1..]);
    }
  }

  // ----- and necessary -----

  /** Losing the first `k` frames on the way to `a`. */
  function LoseFirstToA(k: nat): seq<Event> { if k == 0 then [] else [LoseToA(0)] + LoseFirstToA(k - 1) }

  function LoseFirstToB(k: nat): seq<Event> { if k == 0 then [] else [LoseToB(0)] + LoseFirstToB(k - 1) }

  lemma {:induction false} AfterLossToA(pa: Profile, pb: Profile, l: Link, k: nat)
    requires k <= |l.ba|
    ensures NoNewLinks(pa, pb, l, LoseFirstToA(k)) && Run(pa, pb, l, LoseFirstToA(k)) == l.(ba := l.ba[k..])
    decreases k
  {
    if k != 0 {
      var l1 := Next(pa, pb, l, LoseToA(0));
      PartOfChannel(Sapi0, l.ba, 0);
      AfterLossToA(pa, pb, l1, k - 1);
      assert LoseFirstToA(k)[1..] == LoseFirstToA(k - 1);
      assert l1.ba[k - 1..] == l.ba[k..];
    }
  }

  lemma {:induction false} AfterLossToB(pa: Profile, pb: Profile, l: Link, k: nat)
    requires k <= |l.ab|
    ensures NoNewLinks(pa, pb, l, LoseFirstToB(k)) && Run(pa, pb, l, LoseFirstToB(k)) == l.(ab := l.ab[k..])
    decreases k
  {
    if k != 0 {
      var l1 := Next(pa, pb, l, LoseToB(0));
      PartOfChannel(Sapi0, l.ab, 0);
      AfterLossToB(pa, pb, l1, k - 1);
      assert LoseFirstToB(k)[1..] == LoseFirstToB(k - 1);
      assert l1.ab[k - 1..] == l.ab[k..];
    }
  }

  lemma ConfirmedByStray(p: Profile, s: Entity, f: Frame)
    requires s.state == AwaitingRelease && Confirms(s.sapi, f)
    ensures CONFIRM in Perform(p, s, DoReceive(f)).up
  {
    match f.uType {
      case UA => assert Perform(p, s, DoReceive(f)) == ReceiveUA(s, f);
      case DM => assert Perform(p, s, DoReceive(f)) == ReceiveDM(p, s, f);
      case DISC => assert Perform(p, s, DoReceive(f)) == ReceiveDISC(s, f);
    }
  }

  /** A stray confirming frame on the way to `a`: `a` disconnects, and the stray frame answers. */
  lemma StrayToA(pa: Profile, pb: Profile, l: Link, k: nat) returns (es: seq<Event>)
    requires Established(l.a.s) && Established(l.b.s) && k < |l.ba| && Confirms(l.a.s.sapi, l.ba[k])
    ensures NoNewLinks(pa, pb, l, es) && Disagrees(pa, pb, Run(pa, pb, l, es), DeliverA)
  {
    var e := CallA(DoSendDISC);
    var l1 := Next(pa, pb, l, e);
    es := [e] + LoseFirstToA(k);
    assert es[1..] == LoseFirstToA(k);
    AfterLossToA(pa, pb, l1, k);
    ConfirmedByStray(pa, l1.a.s, l1.ba[k]);
  }

  lemma StrayToB(pa: Profile, pb: Profile, l: Link, k: nat) returns (es: seq<Event>)
    requires Established(l.a.s) && Established(l.b.s) && k < |l.ab| && Confirms(l.b.s.sapi, l.ab[k])
    ensures NoNewLinks(pa, pb, l, es) && Disagrees(pa, pb, Run(pa, pb, l, es), DeliverB)
  {
    var e := CallB(DoSendDISC);
    var l1 := Next(pa, pb, l, e);
    es := [e] + LoseFirstToB(k);
    assert es[1..] == LoseFirstToB(k);
    AfterLossToB(pa, pb, l1, k);
    ConfirmedByStray(pb, l1.b.s, l1.ab[k]);
  }

  /**
   Release agreement, exactly. Between two established entities with no establishment request in flight, every
   run without a new link agrees on the release if and only if no final UA, final DM or DISC is already in flight.
   */
  lemma ReleaseAgreement(pa: Profile, pb: Profile, l: Link)
    requires Consistent(pa, l.a.s) && Consistent(pb, l.b.s) && Established(l.a.s) && Established(l.b.s)
    requires NoRequests(l.ab) && NoRequests(l.ba)
    ensures AlwaysAgrees(pa, pb, l) <==> NoConfirms(l.a.s.sapi, l.ba) && NoConfirms(l.b.s.sapi, l.ab)
  {
    if NoConfirms(l.a.s.sapi, l.ba) && NoConfirms(l.b.s.sapi, l.ab) {
      forall es, e | NoNewLinks(pa, pb, l, es) && NoNewLink(Run(pa, pb, l, es), e)
        ensures !Disagrees(pa, pb, Run(pa, pb, l, es), e)
      {
        RunSettled(pa, pb, l, es);
        NextSettled(pa, pb, Run(pa, pb, l, es), e);
      }
    } else if !NoConfirms(l.a.s.sapi, l.ba) {
      var k: nat :| k < |l.ba| && Confirms(l.a.s.sapi, l.ba[k]);
      var es := StrayToA(pa, pb, l, k);
      assert NoNewLink(Run(pa, pb, l, es), DeliverA);
    } else {
      var k: nat :| k < |l.ab| && Confirms(l.b.s.sapi, l.ab[k]);
      var es := StrayToB(pa, pb, l, k);
      assert NoNewLink(Run(pa, pb, l, es), DeliverB);
    }
  }
}
