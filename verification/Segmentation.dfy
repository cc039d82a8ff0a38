/** Cutting L3 messages into I-frame segments by N201, and putting segments back together by the M bit. */
module Segmentation {
  import opened Frames
  import opened Arithmetic

  datatype Segment = Segment(more: bool, info: Octets)

  predicate NonEmpty(msgs: seq<Octets>) { forall i :: 0 <= i < |msgs| ==> msgs[i] != [] }

  // ----- The sender's side -----

  /** The next segment cut from what is left of a message: the last one has M = 0. */
  function Cut(n201: nat, m: Octets): Segment {
    if |m| <= n201 then Segment(false, m) else Segment(true, m[..n201])
  }

  /** The queue of unsent messages after that cut. */
  function AfterCut(n201: nat, queue: seq<Octets>): (r: seq<Octets>)
    requires queue != []
    ensures NonEmpty(queue) ==> NonEmpty(r)
  {
    if |queue[0]| <= n201 then queue[1..] else [queue[0][n201..]] + queue[1..]
  }

  /** All segments of one message. */
  function Segments(n201: nat, m: Octets): seq<Segment>
    requires n201 >= 1
    decreases |m|
  {
    if |m| <= n201 then [Segment(false, m)] else [Segment(true, m[..n201])] + Segments(n201, m[n201..])
  }

  /** All segments of a sequence of messages, in order. */
  function AllSegments(n201: nat, msgs: seq<Octets>): seq<Segment>
    requires n201 >= 1
  {
    if msgs == [] then [] else Segments(n201, msgs[0]) + AllSegments(n201, msgs[1..])
  }

  lemma {:induction false} AllSegmentsSnoc(n201: nat, msgs: seq<Octets>, m: Octets)
    requires n201 >= 1
    ensures AllSegments(n201, msgs + [m]) == AllSegments(n201, msgs) + Segments(n201, m)
  {
    if msgs == [] {
      assert [] + [m] == [m];
      assert AllSegments(n201, [m]) == Segments(n201, m) + AllSegments(n201, []);
    } else {
      assert (msgs + [m])[1..] == msgs[1..] + [m];
      AllSegmentsSnoc(n201, msgs[1..], m);
    }
  }

  /** Cutting the head of the queue takes exactly the first of its remaining segments. */
  lemma {:induction false} CutTakesFirst(n201: nat, queue: seq<Octets>)
    requires n201 >= 1 && queue != [] && NonEmpty(queue)
    ensures AllSegments(n201, queue) == [Cut(n201, queue[0])] + AllSegments(n201, AfterCut(n201, queue))
  {
    var m, behind := queue[0], AllSegments(n201, queue[1..]);
    if |m| > n201 {
      var rest := AfterCut(n201, queue);
      assert rest[0] == m[n201..] && rest[1..] == queue[1..];
      var tail := Segments(n201, m[n201..]);
      assert AllSegments(n201, rest) == tail + behind;
      assert [Cut(n201, m)] + tail + behind == [Cut(n201, m)] + (tail + behind);
    }
  }

  /** The shape of a segmented message: ceil(|m| / N201) segments, all but the last full and marked M = 1. */
  lemma {:induction false} SegmentsShape(n201: nat, m: Octets)
    requires n201 >= 1 && m != []
    ensures var s := Segments(n201, m);
      && |s| == (|m| + n201 - 1) / n201
      && (forall i :: 0 <= i < |s| - 1 ==> s[i].more && |s[i].info| == n201)
      && !s[|s| - 1].more && 1 <= |s[|s| - 1].info| <= n201
    decreases |m|
  {
    if |m| <= n201 {
      assert (|m| + n201 - 1) / n201 == 1 by { DivOne(|m| - 1, n201); }
    } else {
      SegmentsShape(n201, m[n201..]);
      assert (|m| + n201 - 1) / n201 == 1 + (|m| - n201 + n201 - 1) / n201 by { DivStep(|m| - 1, n201); }
    }
  }

  lemma DivOne(a: nat, d: nat)
    requires d >= 1 && a < d
    ensures (a + d) / d == 1
  {
  }

  lemma DivStep(a: nat, d: nat)
    requires d >= 1
    ensures (a + d) / d == 1 + a / d
  {
    var q, r := a / d, a % d;
    assert a + d == (q + 1) * d + r;
    DivModUnique(a + d, d, q + 1, r);
  }

  function Concat(msgs: seq<Octets>): Octets {
    if msgs == [] then [] else msgs[0] + Concat(msgs[1..])
  }

  function Payload(segs: seq<Segment>): Octets {
    if segs == [] then [] else segs[0].info + Payload(segs[1..])
  }

  lemma {:induction false} PayloadConcat(a: seq<Segment>, b: seq<Segment>)
    ensures Payload(a + b) == Payload(a) + Payload(b)
  {
    if a == [] {
      assert [] + b == b;
    } else {
      assert (a + b)[1..] == a[1..] + b;
      PayloadConcat(a[1..], b);
    }
  }

  /** Segmentation neither drops, repeats nor reorders an octet. */
  lemma {:induction false} SegmentsPayload(n201: nat, m: Octets)
    requires n201 >= 1
    ensures Payload(Segments(n201, m)) == m
    decreases |m|
  {
    if |m| <= n201 {
      assert Payload([Segment(false, m)]) == m + Payload([]);
    } else {
      SegmentsPayload(n201, m[n201..]);
      var s := Segments(n201, m);
      assert s[1..] == Segments(n201, m[n201..]);
      assert m[..n201] + m[n201..] == m;
    }
  }

  lemma {:induction false} AllSegmentsPayload(n201: nat, msgs: seq<Octets>)
    requires n201 >= 1
    ensures Payload(AllSegments(n201, msgs)) == Concat(msgs)
  {
    if msgs != [] {
      AllSegmentsPayload(n201, msgs[1..]);
      SegmentsPayload(n201, msgs[0]);
      PayloadConcat(Segments(n201, msgs[0]), AllSegments(n201, msgs[1..]));
    }
  }

  // ----- The receiver's side -----

  /** The messages completed so far and the partly reassembled one. */
  datatype Assembly = Assembly(done: seq<Octets>, partial: Octets)

  function Feed(a: Assembly, s: Segment): Assembly {
    if s.more then Assembly(a.done, a.partial + s.info)
    else Assembly(a.done + [a.partial + s.info], [])
  }

  function FeedAll(a: Assembly, segs: seq<Segment>): Assembly {
    if segs == [] then a else Feed(FeedAll(a, segs[..|segs| - 1]), segs[|segs| - 1])
  }

  function Assemble(segs: seq<Segment>): Assembly { FeedAll(Assembly([], []), segs) }

  lemma FeedNothing(a: Assembly)
    ensures FeedAll(a, []) == a
  {
  }

  lemma FeedAllSnoc(a: Assembly, segs: seq<Segment>, s: Segment)
    ensures FeedAll(a, segs + [s]) == Feed(FeedAll(a, segs), s)
  {
    assert (segs + [s])[..|segs|] == segs;
  }

  lemma {:induction false} FeedAllConcat(a: Assembly, u: seq<Segment>, v: seq<Segment>)
    ensures FeedAll(a, u + v) == FeedAll(FeedAll(a, u), v)
    decreases |v|
  {
    if v == [] {
      assert u + v == u;
    } else {
      var v', s := v[..|v| - 1], v[|v| - 1];
      assert u + v == (u + v') + [s] && v == v' + [s];
      FeedAllConcat(a, u, v');
      FeedAllSnoc(a, u + v', s);
      FeedAllSnoc(FeedAll(a, u), v', s);
    }
  }

  lemma {:induction false} FeedAllGrows(a: Assembly, segs: seq<Segment>)
    ensures a.done <= FeedAll(a, segs).done
  {
    if segs != [] {
      FeedAllGrows(a, segs[..|segs| - 1]);
    }
  }

  /** Feeding the segments of one message completes exactly that message. */
  lemma {:induction false} FeedSegments(n201: nat, m: Octets, a: Assembly)
    requires n201 >= 1
    ensures FeedAll(a, Segments(n201, m)) == Assembly(a.done + [a.partial + m], [])
    decreases |m|
  {
    if |m| <= n201 {
      FeedAllSnoc(a, [], Segment(false, m));
      assert [] + [Segment(false, m)] == [Segment(false, m)];
    } else {
      var s := Segment(true, m[..n201]);
      FeedAllConcat(a, [s], Segments(n201, m[n201..]));
      FeedAllSnoc(a, [], s);
      assert [] + [s] == [s];
      FeedSegments(n201, m[n201..], Feed(a, s));
      assert a.partial + m[..n201] + m[n201..] == a.partial + m;
    }
  }

  /** Reassembly inverts segmentation, for every list of messages and every N201 >= 1. */
  lemma {:induction false} AssembleInvertsSegmentation(n201: nat, msgs: seq<Octets>)
    requires n201 >= 1
    ensures Assemble(AllSegments(n201, msgs)) == Assembly(msgs, [])
  {
    FeedAllSegments(n201, msgs, []);
  }

  lemma {:induction false} FeedAllSegments(n201: nat, msgs: seq<Octets>, done: seq<Octets>)
    requires n201 >= 1
    ensures FeedAll(Assembly(done, []), AllSegments(n201, msgs)) == Assembly(done + msgs, [])
    decreases |msgs|
  {
    hide FeedAll, Feed, Segments;
    var a := Assembly(done, []);
    if msgs == [] {
      FeedNothing(a);
      assert done + msgs == done;
    } else {
      FeedAllConcat(a, Segments(n201, msgs[0]), AllSegments(n201, msgs[1..]));
      FeedSegments(n201, msgs[0], a);
      assert [] + msgs[0] == msgs[0];
      FeedAllSegments(n201, msgs[1..], done + [msgs[0]]);
      assert done + [msgs[0]] + msgs[1..] == done + msgs;
    }
  }

  /** From any initial part of the segments only whole messages come out, in order. */
  lemma AssemblePrefix(n201: nat, msgs: seq<Octets>, segs: seq<Segment>)
    requires n201 >= 1 && segs <= AllSegments(n201, msgs)
    ensures Assemble(segs).done <= msgs
  {
    var all := AllSegments(n201, msgs);
    assert all == segs + all[|segs|..];
    FeedAllConcat(Assembly([], []), segs, all[|segs|..]);
    FeedAllGrows(Assemble(segs), all[|segs|..]);
    AssembleInvertsSegmentation(n201, msgs);
  }
}
