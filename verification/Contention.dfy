/** Contention resolution (GSM 04.06 section 5.4.1.4): whose SABME the responder confirms. */
module Contention {
  import opened Frames
  import opened Entities
  import opened EntityInvariants
  import opened SingleEntity
  import opened Establishment
  import opened Answers

  /** The sum of the octets, as a plain number. */
  function OctetSum(data: Octets): nat { if data == [] then 0 else data[0] + OctetSum(data[1..]) }

  lemma {:induction false} SumSnoc(data: Octets, o: Octet)
    ensures OctetSum(data + [o]) == OctetSum(data) + o
  {
    if data != [] {
      assert (data + [o])[1..] == data[1..] + [o];
      SumSnoc(data[1..], o);
    }
  }

  /** The 32-bit checksum is the octet sum modulo 2^32. */
  lemma {:induction false} ChecksumIsSum(data: Octets)
    ensures Checksum(data) == OctetSum(data) % 0x1_0000_0000
  {
    if data != [] {
      var init, last := data[..|data| - 1], data[|data| - 1];
      ChecksumIsSum(init);
      assert data == init + [last];
      SumSnoc(init, last);
      ModAdd(OctetSum(init), last);
    }
  }

  lemma ModAdd(x: nat, y: nat)
    ensures (x % 0x1_0000_0000 + y) % 0x1_0000_0000 == (x + y) % 0x1_0000_0000
  {
  }

  /** Both informations have the same octet sum, as far as 32 bits can tell. */
  predicate Matches(a: Octets, b: Octets) { OctetSum(a) % 0x1_0000_0000 == OctetSum(b) % 0x1_0000_0000 }

  /** An open contention remembers the information that opened it. */
  predicate Contending(s: Entity, info: Octets) {
    s.state == ContentionResolution && s.checksum == OctetSum(info) % 0x1_0000_0000
  }

  /** A SABME with information that opens a link on SAPI 0 opens a contention and is echoed. */
  lemma RequestOpens(p: Profile, s: Entity, f: Frame)
    requires s.state == LinkReleased && s.sapi == Sapi0 && IsSABME(f) && f.pf && f.address.sapi == Sapi0 && f.info != []
    ensures var o := Perform(p, s, DoReceive(f));
      && Contending(o.s, f.info) && o.s.sapi == Sapi0 && o.tx == [Response(s, UA, true, f.info)]
      && o.up == [Indication(L3_ESTABLISH_INDICATION, f.info)]
  {
    ChecksumIsSum(f.info);
    assert Perform(p, s, DoReceive(f)) == ReceiveSABME(s, f);
  }

  /** Whatever happens while the contention stays open, it stands for the same information. */
  lemma StaysContending(p: Profile, s: Entity, a: Action, info: Octets)
    requires Contending(s, info) && Perform(p, s, a).s.state == ContentionResolution
    ensures Contending(Perform(p, s, a).s, info)
  {
    hide OctetSum;
    if a.DoReceive? && a.f.address.sapi == s.sapi {
      match a.f {
        case IFrame(_, _, _, _, _, _) => SettledByI(p, s, a.f);
        case SFrame(_, _, _, _) =>
        case UFrame(_, _, _, _, _) => KeptByU(p, s, a.f);
      }
    }
  }

  lemma SettledByI(p: Profile, s: Entity, f: Frame)
    requires f.IFrame? && f.address.sapi == s.sapi && Established(s)
    ensures Perform(p, s, DoReceive(f)).s.state != ContentionResolution
  {
    hide Perform;
    AnswerToI(p, s, f);
  }

  lemma KeptByU(p: Profile, s: Entity, f: Frame)
    requires f.UFrame? && f.address.sapi == s.sapi && s.state == ContentionResolution
    ensures var s' := Perform(p, s, DoReceive(f)).s; s'.state == ContentionResolution ==> s'.checksum == s.checksum
  {
    match f.uType {
      case SABME => assert Perform(p, s, DoReceive(f)) == ReceiveSABME(s, f);
      case UA => assert Perform(p, s, DoReceive(f)) == ReceiveUA(s, f);
      case DM => assert Perform(p, s, DoReceive(f)) == ReceiveDM(p, s, f);
      case DISC => assert Perform(p, s, DoReceive(f)) == ReceiveDISC(s, f);
      case UI =>
    }
  }

  lemma {:induction false} RunContends(p: Profile, n: Node, acts: seq<Action>, info: Octets)
    requires Contending(n.s, info) && Stays(p, n, acts, ContentionResolution)
    ensures Contending(RunNode(p, n, acts).s, info)
    decreases |acts|
  {
    hide Perform, Contending;
    if acts != [] {
      StateOf(p, n, acts[0]);
      StaysIs(p, Track(p, n, acts[0]), acts[1..]);
      StaysContending(p, n.s, acts[0], info);
      RunContends(p, Track(p, n, acts[0]), acts[1..], info);
    }
  }

  lemma StateOf(p: Profile, n: Node, a: Action)
    ensures Track(p, n, a).s == Perform(p, n.s, a).s
  {
  }

  lemma StaysIs(p: Profile, n: Node, acts: seq<Action>)
    requires Stays(p, n, acts, ContentionResolution)
    ensures n.s.state == ContentionResolution
  {
  }

  /** A second request is confirmed, and echoed, exactly when it carries matching information. */
  lemma SecondRequest(p: Profile, s: Entity, info: Octets, g: Frame)
    requires Contending(s, info) && IsSABME(g) && g.pf && g.address.sapi == s.sapi
    ensures Perform(p, s, DoReceive(g)) ==
      if g.info != [] && Matches(g.info, info)
      then Outcome(s.(state := LinkEstablished), [Response(s, UA, true, g.info)], [])
      else Outcome(s, [], [])
  {
    ChecksumIsSum(g.info);
    assert Perform(p, s, DoReceive(g)) == ReceiveSABME(s, g);
  }

  /**
   Contention resolution over runs: once a SABME `f` with information has opened a link on SAPI 0, and for as long as
   the contention stays open, another SABME settles it if and only if it carries information with the same octet sum
   modulo 2^32. That one is echoed; any other changes nothing and is not answered.
   */
  lemma ContentionDecides(p: Profile, n: Node, f: Frame, acts: seq<Action>, g: Frame)
    requires n.s.state == LinkReleased && n.s.sapi == Sapi0
    requires IsSABME(f) && f.pf && f.address.sapi == Sapi0 && f.info != []
    requires Stays(p, Track(p, n, DoReceive(f)), acts, ContentionResolution)
    requires var s := RunNode(p, Track(p, n, DoReceive(f)), acts).s; IsSABME(g) && g.pf && g.address.sapi == s.sapi
    ensures var s := RunNode(p, Track(p, n, DoReceive(f)), acts).s; var o := Perform(p, s, DoReceive(g));
      && (o.s.state == LinkEstablished <==> g.info != [] && Matches(g.info, f.info))
      && (if o.s.state == LinkEstablished
          then o == Outcome(s.(state := LinkEstablished), [Response(s, UA, true, g.info)], [])
          else o == Outcome(s, [], []))
  {
    hide Perform, Matches;
    var n1 := Track(p, n, DoReceive(f));
    RequestOpens(p, n.s, f);
    StateOf(p, n, DoReceive(f));
    RunContends(p, n1, acts, f.info);
    SecondRequest(p, RunNode(p, n1, acts).s, f.info, g);
  }

  /** The sender of the request that opened the contention always settles it by repeating that request. */
  lemma SameRequestSettles(p: Profile, s: Entity, f: Frame)
    requires IsSABME(f) && f.pf && f.address.sapi == s.sapi && f.info != [] && Contending(s, f.info)
    ensures Perform(p, s, DoReceive(f)).s.state == LinkEstablished
  {
    hide Perform;
    SecondRequest(p, s, f.info, f);
  }
}
