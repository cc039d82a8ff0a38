/** Concrete runs that show where the guarantees of the link end. */
module Boundary {
  import opened Frames
  import opened Segmentation
  import opened Entities
  import opened EntityInvariants
  import opened Establishment
  import opened Delivery
  import opened Release

  const P := SDCCH

  const IDLE := Entity(LinkReleased, Sapi0, false, false, 0, 0, 0, NoPending, 0, Off, [], [], 0)
  const UP := IDLE.(state := LinkEstablished)

  const REQUEST := MakeSABME(Sapi0, false, [])
  const ANSWER := MakeUA(Sapi0, true, [])

  /** Both sides opened, nothing in flight. */
  const START := Link(Node(IDLE, NO_HISTORY), Node(IDLE, NO_HISTORY), [], [])

  const CALLING := IDLE.(state := AwaitingEstablish, pending := PendingSABME([]), t200 := Armed(900))

  const ONCE := NO_HISTORY.(links := 1)

  /** Some run leads from one link to the other; `Reaches` keeps to permitted events. */
  ghost predicate Leads(l: Link, m: Link) { exists es :: Run(P, P, l, es) == m }

  ghost predicate Reaches(l: Link, m: Link) { exists es :: PermittedRun(P, P, l, es) && Run(P, P, l, es) == m }

  lemma Stay(l: Link)
    ensures Reaches(l, l) && Leads(l, l)
  {
    assert PermittedRun(P, P, l, []) && Run(P, P, l, []) == l;
  }

  lemma Step(l: Link, e: Event, l1: Link, m: Link)
    requires Next(P, P, l, e) == l1
    ensures Leads(l1, m) ==> Leads(l, m)
    ensures Permitted(l, e) && Reaches(l1, m) ==> Reaches(l, m)
  {
    if Leads(l1, m) {
      var es :| Run(P, P, l1, es) == m;
      assert ([e] + es)[1..] == es;
      assert Run(P, P, l, [e] + es) == m;
    }
    if Permitted(l, e) && Reaches(l1, m) {
      var es :| PermittedRun(P, P, l1, es) && Run(P, P, l1, es) == m;
      assert ([e] + es)[1..] == es;
      assert PermittedRun(P, P, l, [e] + es) && Run(P, P, l, [e] + es) == m;
    }
  }

  // ----- A repeated request is answered twice, and the second answer outlives the handshake -----

  const OPEN := UP.(establishing := true)

  const REQUESTED := Link(Node(CALLING, NO_HISTORY), Node(IDLE, NO_HISTORY), [REQUEST], [])
  const TWICE := Link(Node(CALLING.(rc := 1), NO_HISTORY), Node(IDLE, NO_HISTORY), [REQUEST, REQUEST], [])
  const ANSWERED := Link(TWICE.a, Node(OPEN, ONCE), [REQUEST], [ANSWER])
  const ANSWERED_TWICE := Link(TWICE.a, Node(OPEN, ONCE), [], [ANSWER, ANSWER])
  const STRAY := Link(Node(UP, ONCE), Node(OPEN, ONCE), [], [ANSWER])

  /** The request is sent, and sent again when T200 expires. */
  lemma RequestTwice(m: Link)
    ensures Reaches(TWICE, m) ==> Reaches(START, m)
    ensures Leads(TWICE, m) ==> Leads(START, m)
  {
    Step(START, CallA(DoSendSABME([])), REQUESTED, m);
    Step(REQUESTED, CallA(DoTick(900)), TWICE, m);
  }

  lemma FirstAnswer(m: Link)
    ensures Reaches(ANSWERED, m) ==> Reaches(TWICE, m)
    ensures Leads(ANSWERED, m) ==> Leads(TWICE, m)
  {
    Step(TWICE, DeliverB, ANSWERED, m);
  }

  lemma SecondAnswer(m: Link)
    ensures Reaches(STRAY, m) ==> Reaches(ANSWERED, m)
  {
    Step(ANSWERED, DeliverB, ANSWERED_TWICE, m);
    FirstConfirm(m);
  }

  lemma FirstConfirm(m: Link)
    ensures Reaches(STRAY, m) ==> Reaches(ANSWERED_TWICE, m)
  {
    Step(ANSWERED_TWICE, DeliverA, STRAY, m);
  }

  lemma StrayReachable()
    ensures Reaches(START, STRAY)
  {
    Stay(STRAY);
    SecondAnswer(STRAY);
    FirstAnswer(STRAY);
    RequestTwice(STRAY);
  }

  lemma StrayDisagrees()
    ensures !AlwaysAgrees(P, P, STRAY)
  {
    ReleaseAgreement(P, P, STRAY);
    assert Confirms(STRAY.a.s.sapi, STRAY.ba[0]);
  }

  /**
   Release agreement fails after an ordinary handshake: one initiator, one link, no frame lost. The stray UA of the
   repeated request can confirm a release to the initiator while the responder is still established.
   */
  lemma RepeatedRequestBreaksAgreement()
    ensures Initial(P, P, START)
    ensures exists es :: PermittedRun(P, P, START, es) && !AlwaysAgrees(P, P, Run(P, P, START, es))
  {
    hide PermittedRun, Run, AlwaysAgrees;
    StrayReachable();
    StrayDisagrees();
    var es :| PermittedRun(P, P, START, es) && Run(P, P, START, es) == STRAY;
  }

  // ----- A request that reaches a responder after its release -----

  const SEG1 := Segment(false, [1])
  const SEG2 := Segment(false, [2])
  const DATA1 := MakeI(Sapi0, false, 0, 0, false, false, [1])
  const DATA2 := MakeI(Sapi0, false, 0, 0, false, false, [2])
  const READY := MakeS(Sapi0, 1, RR, false)
  const REJECT := MakeS(Sapi0, 1, REJ, false)

  /** The responder with one segment outstanding, numbered 0. */
  function Sending(seg: Segment): Entity {
    OPEN.(vs := 1, pending := PendingI(0, seg), t200 := Armed(900))
  }

  const FIRST := Node(Sending(SEG1), ONCE.(queued := [[1]], sent := [SEG1]))
  const HAS_FIRST := Node(UP.(vr := 1), ONCE.(rcvd := [SEG1], delivered := [[1]]))
  const AGAIN := Node(OPEN, NO_HISTORY.(links := 2))
  const SECOND := Node(Sending(SEG2), History(2, [[2]], [SEG2], [], []))
  const ACKED := Node(UP.(vs := 1, va := 1, pending := PendingI(0, SEG2)), SECOND.h)

  lemma FirstMessage(m: Link)
    ensures Leads(Link(Node(UP, ONCE), FIRST, [REQUEST], [DATA1]), m) ==> Leads(ANSWERED, m)
  {
    var l := Link(TWICE.a, FIRST, [REQUEST], [ANSWER, DATA1]);
    assert Cut(20, [1]) == SEG1;
    Step(ANSWERED, CallB(DoSendData([1])), l, m);
    ConfirmBehindData(m);
  }

  lemma ConfirmBehindData(m: Link)
    ensures Leads(Link(Node(UP, ONCE), FIRST, [REQUEST], [DATA1]), m)
        ==> Leads(Link(TWICE.a, FIRST, [REQUEST], [ANSWER, DATA1]), m)
  {
    var l := Link(TWICE.a, FIRST, [REQUEST], [ANSWER, DATA1]);
    Step(l, DeliverA, Link(Node(UP, ONCE), FIRST, [REQUEST], [DATA1]), m);
  }

  lemma FirstDelivered(m: Link)
    ensures Leads(Link(HAS_FIRST, FIRST, [REQUEST, READY], []), m)
        ==> Leads(Link(Node(UP, ONCE), FIRST, [REQUEST], [DATA1]), m)
  {
    assert [] + [1] == [1];
    Step(Link(Node(UP, ONCE), FIRST, [REQUEST], [DATA1]), DeliverA, Link(HAS_FIRST, FIRST, [REQUEST, READY], []), m);
  }

  /** The responder releases locally; the late request then opens a second link, with counters at zero. */
  lemma Restarted(m: Link)
    ensures Leads(Link(HAS_FIRST, AGAIN, [READY], [ANSWER]), m)
        ==> Leads(Link(HAS_FIRST, FIRST, [REQUEST, READY], []), m)
  {
    var l := Link(HAS_FIRST, Node(IDLE, FIRST.h), [REQUEST, READY], []);
    AddNothing(FIRST.h);
    Step(Link(HAS_FIRST, FIRST, [REQUEST, READY], []), CallB(DoHardRelease), l, m);
    Step(l, DeliverB, Link(HAS_FIRST, AGAIN, [READY], [ANSWER]), m);
  }

  lemma BothLost(m: Link)
    ensures Leads(Link(HAS_FIRST, AGAIN, [], []), m) ==> Leads(Link(HAS_FIRST, AGAIN, [READY], [ANSWER]), m)
  {
    Step(Link(HAS_FIRST, AGAIN, [READY], [ANSWER]), LoseToA(0), Link(HAS_FIRST, AGAIN, [READY], []), m);
    Step(Link(HAS_FIRST, AGAIN, [READY], []), LoseToB(0), Link(HAS_FIRST, AGAIN, [], []), m);
  }

  lemma SecondSent(m: Link)
    ensures Leads(Link(HAS_FIRST, SECOND, [REJECT], []), m) ==> Leads(Link(HAS_FIRST, AGAIN, [], []), m)
  {
    assert Cut(20, [2]) == SEG2;
    Step(Link(HAS_FIRST, AGAIN, [], []), CallB(DoSendData([2])), Link(HAS_FIRST, SECOND, [], [DATA2]), m);
    Step(Link(HAS_FIRST, SECOND, [], [DATA2]), DeliverA, Link(HAS_FIRST, SECOND, [REJECT], []), m);
  }

  lemma SecondAcked(m: Link)
    ensures Leads(Link(HAS_FIRST, ACKED, [], []), m) ==> Leads(Link(HAS_FIRST, SECOND, [REJECT], []), m)
  {
    AddNothing(SECOND.h);
    Step(Link(HAS_FIRST, SECOND, [REJECT], []), DeliverB, Link(HAS_FIRST, ACKED, [], []), m);
  }

  /**
   Why the delivery theorem stops at a second establishment: a late request reaching a responder that has released
   opens a link on one side only, and a message sent on it is acknowledged by the peer without being delivered.
   */
  lemma LateRequestAfterReleaseLosesData()
    ensures exists es :: var l := Run(P, P, START, es);
      Established(l.b.s) && l.b.s.va == l.b.s.vs && l.b.h.queued == [[2]] && l.a.h.delivered == [[1]]
  {
    var l := Link(HAS_FIRST, ACKED, [], []);
    Stay(l);
    SecondAcked(l);
    SecondSent(l);
    BothLost(l);
    Restarted(l);
    FirstDelivered(l);
    FirstMessage(l);
    FirstAnswer(l);
    RequestTwice(l);
    var es :| Run(P, P, START, es) == l;
  }
}
