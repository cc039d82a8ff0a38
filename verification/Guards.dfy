/** Between two well-behaved entities the receive limits never bite. */
module Guards {
  import opened Frames
  import opened Segmentation
  import opened Entities
  import opened EntityInvariants
  import opened Window
  import opened LinkSystem
  import opened Establishment
  import opened Delivery

  // ----- Segments against the receive limits -----

  lemma {:induction false} SegmentSize(n201: nat, m: Octets, k: nat)
    requires n201 >= 1 && k < |Segments(n201, m)|
    ensures |Segments(n201, m)[k].info| <= n201
    decreases |m|
  {
    if |m| > n201 && k > 0 { SegmentSize(n201, m[n201..], k - 1); }
  }

  /** Inside a message, what is reassembled plus the next segment is an initial part of that message. */
  lemma {:induction false} WithinMessage(n201: nat, m: Octets, k: nat, a: Assembly)
    requires n201 >= 1 && k < |Segments(n201, m)|
    ensures var s := Segments(n201, m);
      && FeedAll(a, s[..k]) == Assembly(a.done, a.partial + Payload(s[..k]))
      && Payload(s[..k]) + s[k].info <= m
    decreases |m|
  {
    var s := Segments(n201, m);
    if k == 0 {
      assert s[..0] == [] && a.partial + [] == a.partial && [] + s[0].info == s[0].info;
    } else {
      var t := Segments(n201, m[n201..]);
      var head := Segment(true, m[..n201]);
      assert s == [head] + t && s[..k] == [head] + t[..k - 1];
      WithinMessage(n201, m[n201..], k - 1, Feed(a, head));
      HeadFirst(a, head, t[..k - 1], t[k - 1].info, m[n201..]);
      assert m == m[..n201] + m[n201..];
    }
  }

  /** Putting one full segment before others. */
  lemma {:induction false} HeadFirst(a: Assembly, head: Segment, t: seq<Segment>, info: Octets, m: Octets)
    requires head.more && FeedAll(Feed(a, head), t) == Assembly(a.done, a.partial + head.info + Payload(t))
    requires Payload(t) + info <= m
    ensures FeedAll(a, [head] + t) == Assembly(a.done, a.partial + Payload([head] + t))
    ensures Payload([head] + t) + info <= head.info + m
  {
    hide FeedAll;
    assert FeedAll(a, [head] + t) == FeedAll(Feed(a, head), t) by {
      FeedAllConcat(a, [head], t);
      FeedAllSnoc(a, [], head);
      FeedNothing(a);
      assert [] + [head] == [head];
    }
    assert ([head] + t)[1..] == t;
    PayloadFirst(a.partial, head.info, Payload(t), info, m);
  }

  lemma PayloadFirst(partial: Octets, head: Octets, t: Octets, info: Octets, m: Octets)
    requires t + info <= m
    ensures partial + head + t == partial + (head + t) && head + t + info <= head + m
  {
    assert head + t + info == head + (t + info);
  }

  /** The same inside a sequence of messages. */
  lemma {:induction false} WithinMessages(n201: nat, msgs: seq<Octets>, k: nat, done: seq<Octets>)
    requires n201 >= 1 && k < |AllSegments(n201, msgs)|
    ensures var s := AllSegments(n201, msgs); var a := FeedAll(Assembly(done, []), s[..k]);
      && |s[k].info| <= n201
      && 0 <= |a.done| - |done| < |msgs| && a.partial + s[k].info <= msgs[|a.done| - |done|]
    decreases |msgs|
  {
    hide FeedAll, Feed, Segments, Payload;
    var first, rest := Segments(n201, msgs[0]), AllSegments(n201, msgs[1..]);
    var s := AllSegments(n201, msgs);
    var a := Assembly(done, []);
    if k < |first| {
      assert s[..k] == first[..k];
      SegmentSize(n201, msgs[0], k);
      WithinMessage(n201, msgs[0], k, a);
      assert [] + Payload(first[..k]) == Payload(first[..k]);
    } else {
      var j := k - |first|;
      assert s[..k] == first + rest[..j] && s[k] == rest[j];
      FeedAllConcat(a, first, rest[..j]);
      FeedSegments(n201, msgs[0], a);
      assert [] + msgs[0] == msgs[0];
      WithinMessages(n201, msgs[1..], j, done + [msgs[0]]);
    }
  }

  predicate AllWithin(msgs: seq<Octets>, limit: nat) { forall i :: 0 <= i < |msgs| ==> |msgs[i]| <= limit }

  /** An awaited segment of messages within the limit passes the receiver's guards. */
  lemma AwaitedFits(p: Profile, q: Profile, x: Node, y: Node, xy: seq<Frame>, yx: seq<Frame>, f: Frame)
    requires 1 <= p.n201 <= q.n201 && NodeInv(p, x) && NodeInv(q, y) && Established(y.s)
    requires Synced(ViewOf(x), ViewOf(y), xy, yx) && f in xy && f.IFrame? && f.ns == y.s.vr
    requires AllWithin(x.h.queued, MAX_REASSEMBLY)
    ensures !TooLong(q, y.s, f.info)
  {
    var n := |y.h.rcvd|;
    Mod8Step(n);
    assert IsNew(ViewOf(x), ViewOf(y), f);
    var all := AllSegments(p.n201, x.h.queued);
    assert y.h.rcvd == all[..n] && SegmentOf(f) == all[n];
    WithinMessages(p.n201, x.h.queued, n, []);
  }

  /** Every in-sequence I-frame on its way to an established receiver passes that receiver's guards. */
  predicate Acceptable(q: Profile, y: Entity, xy: seq<Frame>) {
    Established(y) ==> forall f :: f in xy && f.IFrame? && f.ns == y.vr ==> !TooLong(q, y, f.info)
  }

  lemma AcceptableFrom(p: Profile, q: Profile, x: Node, y: Node, xy: seq<Frame>, yx: seq<Frame>)
    requires 1 <= p.n201 <= q.n201 && NodeInv(p, x) && NodeInv(q, y) && Synced(ViewOf(x), ViewOf(y), xy, yx)
    requires AllWithin(x.h.queued, MAX_REASSEMBLY)
    ensures Acceptable(q, y.s, xy)
  {
    if Established(y.s) {
      forall f | f in xy && f.IFrame? && f.ns == y.s.vr
        ensures !TooLong(q, y.s, f.info)
      {
        AwaitedFits(p, q, x, y, xy, yx, f);
      }
    }
  }

  /**
   No spurious release: while no accepted message exceeds the reassembly limit and the receiver's N201 is not the
   smaller one, no in-sequence I-frame trips the receiver's guards, in either direction of any permitted run.
   */
  lemma NoSpuriousRelease(pa: Profile, pb: Profile, l: Link, es: seq<Event>)
    requires pa.n201 >= 1 && pb.n201 >= 1 && Initial(pa, pb, l) && PermittedRun(pa, pb, l, es)
    ensures var l' := Run(pa, pb, l, es);
      && (pa.n201 <= pb.n201 && AllWithin(l'.a.h.queued, MAX_REASSEMBLY) ==> Acceptable(pb, l'.b.s, l'.ab))
      && (pb.n201 <= pa.n201 && AllWithin(l'.b.h.queued, MAX_REASSEMBLY) ==> Acceptable(pa, l'.a.s, l'.ba))
  {
    hide NodeInv, Direction, Acceptable, Handshake, Run, Initial;
    ReachableInv(pa, pb, l, es);
    var l' := Run(pa, pb, l, es);
    if pa.n201 <= pb.n201 && AllWithin(l'.a.h.queued, MAX_REASSEMBLY) {
      AcceptableFrom(pa, pb, l'.a, l'.b, l'.ab, l'.ba);
    }
    if pb.n201 <= pa.n201 && AllWithin(l'.b.h.queued, MAX_REASSEMBLY) {
      AcceptableFrom(pb, pa, l'.b, l'.a, l'.ba, l'.ab);
    }
  }
}
