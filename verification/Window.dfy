/**
 The stop-and-wait window between two ends joined by two FIFO channels that may lose frames, with the
 segments each end has sent and accepted as unbounded counters behind the modulo-8 ones.
 */
module Window {
  import opened Frames
  import opened Segmentation

  /** One end of the link; `live` while its counters take part in the exchange. */
  datatype End = End(live: bool, vs: Seq8, va: Seq8, vr: Seq8, sent: seq<Segment>, rcvd: seq<Segment>)

  function SegmentOf(f: Frame): Segment
    requires f.IFrame?
  {
    Segment(f.more, f.info)
  }

  predicate Numbered(f: Frame) { f.IFrame? || f.SFrame? }

  // ----- x sends, y accepts -----

  /** x's counters: V(S) counts the segments sent; V(A) is V(S), or one less while a segment is outstanding. */
  predicate SendSide(x: End, y: End) {
    x.live ==>
      && x.vs == |x.sent| % 8
      && (|| (x.va == x.vs && |y.rcvd| == |x.sent|)
          || (|x.sent| >= 1 && x.va == (|x.sent| - 1) % 8 && |y.rcvd| >= |x.sent| - 1))
  }

  predicate ReceiveSide(y: End) { y.live ==> y.vr == |y.rcvd| % 8 }

  /** The I-frame repeats the last segment y accepted. */
  predicate IsOld(x: End, y: End, f: Frame)
    requires f.IFrame? && y.rcvd <= x.sent
  {
    |y.rcvd| >= 1 && f.ns == (|y.rcvd| - 1) % 8 && SegmentOf(f) == x.sent[|y.rcvd| - 1]
  }

  /** The I-frame carries the segment y waits for. */
  predicate IsNew(x: End, y: End, f: Frame)
    requires f.IFrame? && y.rcvd <= x.sent
  {
    |y.rcvd| < |x.sent| && f.ns == |y.rcvd| % 8 && SegmentOf(f) == x.sent[|y.rcvd|]
  }

  /** I-frames in flight from x: repeats of the last accepted segment, then the awaited one. */
  predicate DataInFlight(x: End, y: End, xy: seq<Frame>) {
    && y.rcvd <= x.sent
    && (forall i :: 0 <= i < |xy| && xy[i].IFrame? ==> IsOld(x, y, xy[i]) || IsNew(x, y, xy[i]))
    && (forall i, j :: 0 <= i < j < |xy| && xy[i].IFrame? && xy[j].IFrame? && IsNew(x, y, xy[i]) ==> IsNew(x, y, xy[j]))
  }

  /** The N(R)s in flight to x: V(A) first, then y's V(R). */
  predicate AcksInFlight(x: End, y: End, yx: seq<Frame>) {
    x.live ==>
      && (forall i :: 0 <= i < |yx| && Numbered(yx[i]) ==> yx[i].nr == x.va || yx[i].nr == |y.rcvd| % 8)
      && (forall i, j :: 0 <= i < j < |yx| && Numbered(yx[i]) && Numbered(yx[j]) && yx[i].nr == |y.rcvd| % 8
            ==> yx[j].nr == |y.rcvd| % 8)
  }

  predicate Direction(x: End, y: End, xy: seq<Frame>, yx: seq<Frame>) {
    SendSide(x, y) && ReceiveSide(y) && DataInFlight(x, y, xy) && AcksInFlight(x, y, yx)
  }

  predicate Synced(x: End, y: End, xy: seq<Frame>, yx: seq<Frame>) {
    Direction(x, y, xy, yx) && Direction(y, x, yx, xy)
  }

  /** With unbounded counters: acknowledged <= accepted <= sent <= acknowledged + 1. */
  function Acknowledged(x: End): int { if x.va == x.vs then |x.sent| else |x.sent| - 1 }

  lemma CountersExact(x: End, y: End, xy: seq<Frame>, yx: seq<Frame>)
    requires Synced(x, y, xy, yx) && x.live
    ensures 0 <= Acknowledged(x) <= |y.rcvd| <= |x.sent| <= Acknowledged(x) + 1
    ensures x.va == Acknowledged(x) % 8 && x.vs == |x.sent| % 8
    ensures y.rcvd <= x.sent
    ensures forall i :: 0 <= i < |xy| && xy[i].IFrame? ==> xy[i].ns == |y.rcvd| % 8 || xy[i].ns == (|y.rcvd| - 1) % 8
    ensures forall i :: 0 <= i < |yx| && Numbered(yx[i]) ==>
              yx[i].nr == Acknowledged(x) % 8 || yx[i].nr == |y.rcvd| % 8
  {
  }

  // ----- What a step may do -----

  lemma Mod8Step(n: nat)
    ensures n >= 1 ==> n % 8 != (n - 1) % 8
    ensures Next8(n % 8) == (n + 1) % 8
  {
  }

  /** x sends the next segment, with nothing outstanding. */
  lemma SendNew(x: End, y: End, xy: seq<Frame>, yx: seq<Frame>, f: Frame)
    requires Synced(x, y, xy, yx) && x.live && x.va == x.vs
    requires f.IFrame? && f.ns == x.vs && f.nr == x.vr
    ensures Synced(x.(vs := Next8(x.vs), sent := x.sent + [SegmentOf(f)]), y, xy + [f], yx)
  {
    var x' := x.(vs := Next8(x.vs), sent := x.sent + [SegmentOf(f)]);
    Mod8Step(|x.sent|);
    assert |y.rcvd| == |x.sent|;
    assert DataInFlight(x', y, xy + [f]) by {
      forall i | 0 <= i < |xy| && xy[i].IFrame?
        ensures IsOld(x', y, xy[i]) && !IsNew(x', y, xy[i])
      {
        assert IsOld(x, y, xy[i]);
      }
      assert IsNew(x', y, f);
    }
    AckAppended(y, x, xy, f);
  }

  /** Appending a frame that carries x's current V(R) keeps the acknowledgements in order. */
  lemma AckAppended(y: End, x: End, xy: seq<Frame>, f: Frame)
    requires AcksInFlight(y, x, xy) && ReceiveSide(x) && x.live && Numbered(f) && f.nr == x.vr
    ensures AcksInFlight(y, x, xy + [f])
  {
  }

  /** x repeats its latest segment. */
  lemma SendAgain(x: End, y: End, xy: seq<Frame>, yx: seq<Frame>, f: Frame)
    requires Synced(x, y, xy, yx) && x.live && |x.sent| >= 1
    requires f.IFrame? && f.ns == (|x.sent| - 1) % 8 && SegmentOf(f) == x.sent[|x.sent| - 1] && f.nr == x.vr
    ensures Synced(x, y, xy + [f], yx)
  {
    Mod8Step(|x.sent|);
    assert IsOld(x, y, f) || IsNew(x, y, f);
    AckAppended(y, x, xy, f);
  }

  /** x sends a supervisory frame. */
  lemma SendSupervisory(x: End, y: End, xy: seq<Frame>, yx: seq<Frame>, f: Frame)
    requires Synced(x, y, xy, yx) && x.live && f.SFrame? && f.nr == x.vr
    ensures Synced(x, y, xy + [f], yx)
  {
    AckAppended(y, x, xy, f);
  }

  /** x sends an unnumbered frame. */
  lemma SendUnnumbered(x: End, y: End, xy: seq<Frame>, yx: seq<Frame>, f: Frame)
    requires Synced(x, y, xy, yx) && f.UFrame?
    ensures Synced(x, y, xy + [f], yx)
  {
  }

  /** x takes over the N(R) at the head of its incoming channel, leaving the frame there. */
  lemma TakeAck(x: End, y: End, xy: seq<Frame>, yx: seq<Frame>)
    requires Synced(x, y, xy, yx) && x.live && yx != [] && Numbered(yx[0])
    ensures Synced(x.(va := yx[0].nr), y, xy, yx)
  {
    Mod8Step(|x.sent|);
    var x' := x.(va := yx[0].nr);
    if yx[0].nr != x.va {
      assert yx[0].nr == |y.rcvd| % 8;
      assert |y.rcvd| == |x.sent|;
    }
    assert AcksInFlight(x', y, yx);
  }

  /** A frame leaves the channel from x to y, delivered or lost. */
  lemma Drop(x: End, y: End, xy: seq<Frame>, yx: seq<Frame>, k: nat)
    requires Synced(x, y, xy, yx) && k < |xy|
    ensures Synced(x, y, xy[..k] + xy[k + 1..], yx)
  {
    var c := xy[..k] + xy[k + 1..];
    assert forall i :: 0 <= i < |c| ==> c[i] == xy[if i < k then i else i + 1];
  }

  lemma DropHead(x: End, y: End, xy: seq<Frame>, yx: seq<Frame>)
    requires Synced(x, y, xy, yx) && yx != []
    ensures Synced(x, y, xy, yx[1..])
  {
    Drop(y, x, yx, xy, 0);
    assert yx[..0] + yx[0 + 1..] == yx[1..];
  }

  /** x accepts the in-sequence I-frame at the head of its incoming channel. */
  lemma Accept(x: End, y: End, xy: seq<Frame>, yx: seq<Frame>)
    requires Synced(x, y, xy, yx) && x.live && yx != [] && yx[0].IFrame? && yx[0].ns == x.vr
    ensures Synced(x.(vr := Next8(x.vr), rcvd := x.rcvd + [SegmentOf(yx[0])]), y, xy, yx[1..])
  {
    var f := yx[0];
    var x' := x.(vr := Next8(x.vr), rcvd := x.rcvd + [SegmentOf(f)]);
    Mod8Step(|x.rcvd|);
    Mod8Step(|y.sent|);
    assert IsNew(y, x, f);
    DropHead(x, y, xy, yx);
    assert DataInFlight(y, x', yx[1..]) by {
      forall i | 0 <= i < |yx| - 1 && yx[1..][i].IFrame?
        ensures IsOld(y, x', yx[1..][i]) && !IsNew(y, x', yx[1..][i])
      {
        assert yx[1..][i] == yx[i + 1];
        assert IsNew(y, x, yx[i + 1]);
      }
    }
    if y.live {
      assert |y.sent| == |x.rcvd| + 1;
      assert AcksInFlight(y, x', xy);
    }
  }

  /** x drops out: whatever its counters become, the exchange so far stands. */
  lemma Leave(x: End, y: End, xy: seq<Frame>, yx: seq<Frame>, x': End)
    requires Synced(x, y, xy, yx) && !x'.live && x'.sent == x.sent && x'.rcvd == x.rcvd
    ensures Synced(x', y, xy, yx)
  {
    assert DataInFlight(x', y, xy) by {
      assert forall i :: 0 <= i < |xy| && xy[i].IFrame? ==>
        (IsOld(x, y, xy[i]) <==> IsOld(x', y, xy[i])) && (IsNew(x, y, xy[i]) <==> IsNew(x', y, xy[i]));
    }
    assert DataInFlight(y, x', yx) by {
      assert forall i :: 0 <= i < |yx| && yx[i].IFrame? ==>
        (IsOld(y, x, yx[i]) <==> IsOld(y, x', yx[i])) && (IsNew(y, x, yx[i]) <==> IsNew(y, x', yx[i]));
    }
  }
}
