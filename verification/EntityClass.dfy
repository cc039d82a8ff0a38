/** The link entity as the library has it: an object updating its fields, proved against the pure machine. */
module EntityClass {
  import opened Frames
  import opened Codec
  import opened Segmentation
  import opened TxQueue
  import opened Entities

  datatype Counters = Counters(vs: Seq8, va: Seq8, vr: Seq8)

  datatype PendingKind = NoFrame | IKind | SabmeKind | DiscKind

  /** The outstanding frame; fields that the kind does not use keep stale values. */
  datatype Slot = Slot(kind: PendingKind, ns: Seq8, more: bool, info: Octets)

  datatype T200 = T200(active: bool, remaining: nat)

  datatype Buffer = Buffer(bytes: Octets, ends: seq<nat>, idx: nat, pos: nat)

  predicate BufferOk(b: Buffer) { QueueOk(b.bytes, b.ends, b.idx, b.pos) }

  function PendingOf(p: Slot): Pending {
    match p.kind
    case NoFrame => NoPending
    case IKind => PendingI(p.ns, Segment(p.more, p.info))
    case SabmeKind => PendingSABME(p.info)
    case DiscKind => PendingDISC
  }

  function TimerOf(t: T200): Timer { if t.active then Armed(t.remaining) else Off }

  function QueueOf(b: Buffer): seq<Octets> {
    if BufferOk(b) then Unsent(b.bytes, b.ends, b.idx, b.pos) else []
  }

  /** The segment read at the buffer's position is the one the pure machine cuts off its queue. */
  lemma BufferCut(n201: nat, b: Buffer)
    requires BufferOk(b)
    ensures b.idx >= |b.ends| <==> QueueOf(b) == []
    ensures b.idx < |b.ends| ==>
      var left := b.ends[b.idx] - b.pos;
      var chunk := if left < n201 then left else n201;
      && b.pos + chunk <= |b.bytes|
      && Cut(n201, QueueOf(b)[0]) == Segment(left > n201, b.bytes[b.pos..b.pos + chunk])
  {
    if b.idx < |b.ends| {
      UnsentCut(n201, b.bytes, b.ends, b.idx, b.pos);
    }
  }

  /** Appending a message to the buffer appends it to the pure machine's queue. */
  lemma BufferPush(b: Buffer, data: Octets)
    requires BufferOk(b) && data != []
    ensures var b' := b.(bytes := b.bytes + data, ends := b.ends + [|b.bytes + data|]);
      BufferOk(b') && QueueOf(b') == QueueOf(b) + [data]
  {
    UnsentPush(b.bytes, b.ends, b.idx, b.pos, data);
  }

  const EMPTY := Buffer([], [], 0, 0)

  /** What the layer 1 and layer 3 callbacks have been given, and the statistics. */
  datatype Log = Log(wire: seq<Octets>, up: seq<Indication>, framesSent: nat, framesReceived: nat, retransmissions: nat)

  /** The log after the frames and primitives of an outcome. */
  function Emit(log: Log, tx: seq<Frame>, up: seq<Indication>): Log {
    log.(wire := log.wire + EncodeAll(tx), up := log.up + up, framesSent := log.framesSent + |tx|)
  }

  /** The count of frames sent and the octet strings handed to layer 1 never drift apart. */
  lemma EveryFrameCounted(log: Log, tx: seq<Frame>, up: seq<Indication>)
    ensures |Emit(log, tx, up).wire| - Emit(log, tx, up).framesSent == |log.wire| - log.framesSent
    ensures forall i :: 0 <= i < |tx| ==> Emit(log, tx, up).wire[|log.wire| + i] == Encode(tx[i])
    ensures log.wire <= Emit(log, tx, up).wire && log.up <= Emit(log, tx, up).up
  {
  }

  lemma EmitNothing(log: Log)
    ensures Emit(log, [], []) == log
  {
    assert log.wire + EncodeAll([]) == log.wire && log.up + [] == log.up;
  }

  lemma EmitTwice(log: Log, tx1: seq<Frame>, up1: seq<Indication>, tx2: seq<Frame>, up2: seq<Indication>)
    ensures Emit(Emit(log, tx1, up1), tx2, up2) == Emit(log, tx1 + tx2, up1 + up2)
  {
    EncodeAllConcat(tx1, tx2);
    assert log.wire + EncodeAll(tx1) + EncodeAll(tx2) == log.wire + (EncodeAll(tx1) + EncodeAll(tx2));
    assert log.up + up1 + up2 == log.up + (up1 + up2);
  }

  /** Frames and primitives of one outcome may be logged in either order. */
  lemma EmitBoth(log: Log, tx: seq<Frame>, up: seq<Indication>)
    ensures Emit(Emit(log, [], up), tx, []) == Emit(log, tx, up)
    ensures Emit(Emit(log, tx, []), [], up) == Emit(log, tx, up)
  {
    EmitTwice(log, [], up, tx, []);
    EmitTwice(log, tx, [], [], up);
    assert [] + tx == tx + [] == tx && [] + up == up + [] == up;
  }

  lemma AckReportsNothing(p: Profile, s: Entity, nr: Seq8, up: seq<Indication>)
    ensures ProcessAck(p, s, nr).up + up == up
  {
    assert [] + up == up;
  }

  class LAPDmEntity {
    const profile: Profile

    var state: LinkState
    var sapi: Sapi
    var commandBit: bool
    var establishing: bool
    var n: Counters
    var pending: Slot
    var rc: nat
    var t200: T200
    var reassembly: Octets
    var tx: Buffer
    var checksum: nat
    var log: Log

    ghost function Value(): Entity
      reads this
    {
      Entity(state, sapi, commandBit, establishing, n.vs, n.va, n.vr, PendingOf(pending), rc, TimerOf(t200),
             reassembly, QueueOf(tx), checksum)
    }

    constructor (p: Profile)
      ensures BufferOk(tx) && Value() == INITIAL && profile == p && log == Log([], [], 0, 0, 0)
    {
      profile := p;
      state, sapi, commandBit, establishing := Unused, Sapi0, true, false;
      n, rc := Counters(0, 0, 0), 0;
      pending, t200 := Slot(NoFrame, 0, false, []), T200(false, 0);
      reassembly, tx, checksum := [], EMPTY, 0;
      log := Log([], [], 0, 0, 0);
    }

    // ----- Internal helpers -----

    method SendFrame(f: Frame)
      modifies this`log
      ensures log == Emit(old(log), [f], [])
    {
      var b := EncodeFrame(f);
      log := log.(wire := log.wire + [b], framesSent := log.framesSent + 1);
      assert EncodeAll([f]) == [b];
      assert log.up + [] == log.up;
    }

    method DeliverL3(primitive: Primitive, data: Octets)
      modifies this`log
      ensures log == Emit(old(log), [], [Indication(primitive, data)])
    {
      EmitNothing(log);
      log := log.(up := log.up + [Indication(primitive, data)]);
    }

    method SaveForRetransmission(kind: PendingKind, f: Frame)
      modifies this`pending, this`rc, this`log, this`t200
      ensures pending == old(pending).(kind := kind) && rc == 0 && t200 == T200(true, profile.t200Ms)
      ensures log == Emit(old(log), [f], [])
    {
      pending := pending.(kind := kind);
      rc := 0;
      SendFrame(f);
      t200 := T200(true, profile.t200Ms);
    }

    method RetransmitPending()
      modifies this`log
      ensures log == Emit(old(log), Retransmission(old(Value())), [])
    {
      match pending.kind {
        case IKind => SendFrame(MakeI(sapi, commandBit, n.vr, pending.ns, true, pending.more, pending.info));
        case SabmeKind => SendFrame(MakeSABME(sapi, commandBit, pending.info));
        case DiscKind => SendFrame(MakeDISC(sapi, commandBit));
        case NoFrame => EmitNothing(log);
      }
    }

    method ClearCounters()
      modifies this`n, this`rc, this`t200, this`reassembly, this`tx, this`pending
      ensures BufferOk(tx) && Value() == Clear(old(Value()))
    {
      n := Counters(0, 0, 0);
      rc := 0;
      t200 := T200(false, 0);
      reassembly := [];
      tx := EMPTY;
      pending := pending.(kind := NoFrame, info := []);
    }

    method ReleaseAbnormally(sendDM: bool)
      modifies this`n, this`rc, this`t200, this`reassembly, this`tx, this`pending
      modifies this`establishing, this`state, this`log
      ensures BufferOk(tx)
      ensures var o := AbnormalRelease(old(Value()), sendDM); Value() == o.s && log == Emit(old(log), o.tx, o.up)
    {
      hide QueueOf, PendingOf, Emit;
      EmitNothing(log);
      if sendDM {
        SendFrame(MakeDM(sapi, true));
      }
      ClearCounters();
      establishing := false;
      state := if sendDM then Unused else LinkReleased;
      DeliverL3(MDL_ERROR_INDICATION, []);
      EmitBoth(old(log), if sendDM then [MakeDM(old(sapi), true)] else [], [Indication(MDL_ERROR_INDICATION, [])]);
    }

    method BuildIFrame(payload: Octets, more: bool)
      modifies this`n, this`pending, this`rc, this`t200, this`log
      ensures n == old(n).(vs := Next8(old(n.vs)))
      ensures pending == Slot(IKind, old(n.vs), more, payload) && rc == 0 && t200 == T200(true, profile.t200Ms)
      ensures log == Emit(old(log), [MakeI(sapi, commandBit, n.vr, old(n.vs), false, more, payload)], [])
    {
      var ns, nr := n.vs, n.vr;
      n := n.(vs := (n.vs + 1) % 8);
      pending := pending.(ns := ns, more := more, info := payload);
      SaveForRetransmission(IKind, MakeI(sapi, commandBit, nr, ns, false, more, payload));
    }

    /** Moves the read position past a segment, dropping the buffer when everything has been sent. */
    method Advance(chunk: nat)
      requires BufferOk(tx) && tx.ends != []
      requires chunk == if tx.ends[tx.idx] - tx.pos < profile.n201 then tx.ends[tx.idx] - tx.pos else profile.n201
      modifies this`tx
      ensures BufferOk(tx) && QueueOf(tx) == AfterCut(profile.n201, QueueOf(old(tx)))
    {
      UnsentCut(profile.n201, tx.bytes, tx.ends, tx.idx, tx.pos);
      var msgEnd := tx.ends[tx.idx];
      tx := tx.(pos := tx.pos + chunk);
      if tx.pos >= msgEnd {
        tx := tx.(idx := tx.idx + 1);
        if tx.idx >= |tx.ends| {
          tx := EMPTY;
        }
      }
    }

    method TrySendNextSegment()
      requires BufferOk(tx)
      modifies this`n, this`pending, this`rc, this`t200, this`log, this`tx
      ensures BufferOk(tx)
      ensures var o := TrySend(profile, old(Value())); Value() == o.s && log == Emit(old(log), o.tx, o.up)
    {
      hide QueueOf, Cut, AfterCut, Emit;
      EmitNothing(log);
      BufferCut(profile.n201, tx);
      if n.vs != n.va { return; }
      if tx.idx >= |tx.ends| { return; }
      var remaining := tx.ends[tx.idx] - tx.pos;
      var chunk := if remaining < profile.n201 then remaining else profile.n201;
      BuildIFrame(tx.bytes[tx.pos..tx.pos + chunk], remaining > profile.n201);
      Advance(chunk);
    }

    method Acknowledge(nr: Seq8)
      requires BufferOk(tx)
      modifies this`n, this`pending, this`rc, this`t200, this`log, this`tx
      ensures BufferOk(tx)
      ensures var o := ProcessAck(profile, old(Value()), nr); Value() == o.s && log == Emit(old(log), o.tx, o.up)
    {
      hide QueueOf, PendingOf, Emit;
      EmitNothing(log);
      n := n.(va := nr);
      if n.va == n.vs {
        rc := 0;
        t200 := t200.(active := false);
        TrySendNextSegment();
      }
    }

    /** Octet sum over 32 bits, for contention resolution. */
    static method ComputeChecksum(data: Octets) returns (sum: nat)
      ensures sum == Checksum(data)
    {
      sum := 0;
      var i := 0;
      while i < |data|
        invariant 0 <= i <= |data| && sum == Checksum(data[..i])
      {
        assert data[..i + 1][..i] == data[..i];
        sum := (sum + data[i]) % 0x1_0000_0000;
        i := i + 1;
      }
      assert data[..|data|] == data;
    }

    // ----- Unnumbered frames -----

    /** The LinkReleased branch of an accepted SABME. */
    method StartLink(f: Frame)
      requires f.UFrame? && f.pf && state == LinkReleased
      modifies this
      ensures BufferOk(tx)
      ensures var o := ReceiveSABME(old(Value()), f); Value() == o.s && log == Emit(old(log), o.tx, o.up)
    {
      hide QueueOf, PendingOf, Emit;
      ClearCounters();
      establishing := true;
      DeliverL3(L3_ESTABLISH_INDICATION, f.info);
      if f.info != [] {
        checksum := ComputeChecksum(f.info);
        SendFrame(MakeUA(sapi, f.pf, f.info));
        state := if sapi == Sapi0 then ContentionResolution else LinkEstablished;
      } else {
        state := LinkEstablished;
        SendFrame(MakeUA(sapi, f.pf, []));
      }
      EmitBoth(old(log), [MakeUA(sapi, f.pf, f.info)], [Indication(L3_ESTABLISH_INDICATION, f.info)]);
    }

    method HandleSABME(f: Frame)
      requires BufferOk(tx) && f.UFrame?
      modifies this
      ensures BufferOk(tx)
      ensures var o := ReceiveSABME(old(Value()), f); Value() == o.s && log == Emit(old(log), o.tx, o.up)
    {
      hide QueueOf, PendingOf, Emit;
      EmitNothing(log);
      if !f.pf { return; }
      match state {
        case LinkReleased => StartLink(f);
        case AwaitingEstablish => SendFrame(MakeUA(sapi, f.pf, []));
        case AwaitingRelease => SendFrame(MakeDM(sapi, f.pf));
        case LinkEstablished =>
          if establishing {
            SendFrame(MakeUA(sapi, f.pf, f.info));
          } else if f.info != [] {
            ReleaseAbnormally(true);
          } else {
            SendFrame(MakeUA(sapi, f.pf, []));
            ClearCounters();
          }
        case ContentionResolution =>
          var sum := ComputeChecksum(f.info);
          if f.info != [] && sum == checksum {
            SendFrame(MakeUA(sapi, f.pf, f.info));
            state := LinkEstablished;
          }
        case Unused =>
      }
    }

    method HandleUA(f: Frame)
      requires BufferOk(tx) && f.UFrame?
      modifies this
      ensures BufferOk(tx)
      ensures var o := ReceiveUA(old(Value()), f); Value() == o.s && log == Emit(old(log), o.tx, o.up)
    {
      hide QueueOf, PendingOf, Emit;
      EmitNothing(log);
      if !f.pf { return; }
      match state {
        case AwaitingEstablish =>
          ClearCounters();
          state := LinkEstablished;
          DeliverL3(L3_ESTABLISH_CONFIRM, []);
        case AwaitingRelease =>
          ClearCounters();
          state := LinkReleased;
          DeliverL3(L3_RELEASE_CONFIRM, []);
        case _ =>
      }
    }

    method HandleDM(f: Frame)
      requires BufferOk(tx) && f.UFrame?
      modifies this
      ensures BufferOk(tx)
      ensures var o := ReceiveDM(profile, old(Value()), f); Value() == o.s && log == Emit(old(log), o.tx, o.up)
    {
      hide QueueOf, PendingOf, Emit;
      EmitNothing(log);
      if !f.pf { return; }
      match state {
        case AwaitingRelease =>
          ClearCounters();
          state := LinkReleased;
          DeliverL3(L3_RELEASE_CONFIRM, []);
        case Unused =>
        case LinkReleased =>
        case _ =>
          t200 := T200(true, profile.t200Ms);
          DeliverL3(L3_RELEASE_INDICATION, []);
      }
    }

    /** Ends the link on the peer's request. */
    method EndLink(primitive: Primitive)
      requires BufferOk(tx)
      modifies this
      ensures BufferOk(tx) && Value() == Clear(old(Value())).(state := LinkReleased)
      ensures log == Emit(old(log), [], [Indication(primitive, [])])
    {
      ClearCounters();
      state := LinkReleased;
      DeliverL3(primitive, []);
    }

    method HandleDISC(f: Frame)
      requires BufferOk(tx) && f.UFrame?
      modifies this
      ensures BufferOk(tx)
      ensures var o := ReceiveDISC(old(Value()), f); Value() == o.s && log == Emit(old(log), o.tx, o.up)
    {
      hide QueueOf, PendingOf, Emit;
      EmitNothing(log);
      establishing := false;
      if state == Unused {
      } else if state == LinkReleased {
        SendFrame(MakeDM(sapi, f.pf));
      } else if state == AwaitingEstablish {
        EndLink(L3_RELEASE_INDICATION);
      } else {
        var primitive := if state == AwaitingRelease then L3_RELEASE_CONFIRM else L3_RELEASE_INDICATION;
        SendFrame(MakeUA(sapi, f.pf, []));
        EndLink(primitive);
        EmitBoth(old(log), [MakeUA(sapi, f.pf, [])], [Indication(primitive, [])]);
      }
    }

    method HandleU(f: Frame)
      requires BufferOk(tx) && f.UFrame?
      modifies this
      ensures BufferOk(tx)
      ensures var o := ReceiveU(profile, old(Value()), f); Value() == o.s && log == Emit(old(log), o.tx, o.up)
    {
      hide QueueOf, PendingOf, Emit, ReceiveSABME, ReceiveUA, ReceiveDM, ReceiveDISC;
      match f.uType {
        case SABME => HandleSABME(f);
        case UA => HandleUA(f);
        case DM => HandleDM(f);
        case DISC => HandleDISC(f);
        case UI => DeliverL3(L3_UNIT_DATA, f.info);
      }
    }

    // ----- Numbered frames -----

    method Accept(f: Frame)
      requires BufferOk(tx) && f.IFrame?
      modifies this
      ensures BufferOk(tx)
      ensures var o := AcceptI(profile, old(Value()), f); Value() == o.s && log == Emit(old(log), o.tx, o.up)
    {
      hide QueueOf, PendingOf, Emit;
      n := n.(vr := (n.vr + 1) % 8);
      if |f.info| > profile.n201 || |reassembly| + |f.info| > MAX_REASSEMBLY {
        ReleaseAbnormally(false);
        return;
      }
      EmitNothing(log);
      reassembly := reassembly + f.info;
      if !f.more {
        DeliverL3(L3_DATA, reassembly);
        reassembly := [];
      }
      SendFrame(MakeS(sapi, n.vr, RR, f.pf));
      EmitBoth(old(log), [MakeS(sapi, n.vr, RR, f.pf)],
               if f.more then [] else [Indication(L3_DATA, old(reassembly) + f.info)]);
    }

    /** The first I or S frame closes the establishment window and ends contention resolution. */
    method CloseWindow()
      modifies this`establishing, this`state
      ensures Value() == Settle(old(Value())) && (state == LinkEstablished <==> Value().state == LinkEstablished)
    {
      establishing := false;
      if state == ContentionResolution {
        state := LinkEstablished;
      }
    }

    /** The sequence check of an I-frame whose N(R) has been processed. */
    method Sequence(f: Frame)
      requires BufferOk(tx) && f.IFrame?
      modifies this
      ensures BufferOk(tx)
      ensures var o := SequenceI(profile, old(Value()), f); Value() == o.s && log == Emit(old(log), o.tx, o.up)
    {
      hide QueueOf, PendingOf, Emit, AcceptI;
      if f.ns != n.vr {
        SendFrame(MakeS(sapi, n.vr, REJ, f.pf));
        return;
      }
      Accept(f);
    }

    method HandleI(f: Frame)
      requires BufferOk(tx) && f.IFrame?
      modifies this
      ensures BufferOk(tx)
      ensures var o := ReceiveI(profile, old(Value()), f); Value() == o.s && log == Emit(old(log), o.tx, o.up)
    {
      hide QueueOf, PendingOf, Emit, ProcessAck, SequenceI;
      EmitNothing(log);
      CloseWindow();
      ghost var s1 := Value();
      if state != LinkEstablished { return; }
      Acknowledge(f.nr);
      ghost var acked := ProcessAck(profile, s1, f.nr);
      Sequence(f);
      ghost var next := SequenceI(profile, acked.s, f);
      EmitTwice(old(log), acked.tx, acked.up, next.tx, next.up);
      AckReportsNothing(profile, s1, f.nr, next.up);
    }

    /** The answer to an RR or REJ whose N(R) has been processed. */
    method Answer(f: Frame)
      requires BufferOk(tx) && f.SFrame?
      modifies this
      ensures BufferOk(tx)
      ensures var o := AnswerS(old(Value()), f); Value() == o.s && log == Emit(old(log), o.tx, o.up)
    {
      hide QueueOf, PendingOf, Emit;
      EmitNothing(log);
      if f.sType == RR {
        if f.pf && f.address.command { SendFrame(MakeS(sapi, n.vr, RR, true)); }
      } else if f.pf {
        if f.address.command { ReleaseAbnormally(true); } else { SendFrame(MakeS(sapi, n.vr, RR, true)); }
      }
    }

    method HandleS(f: Frame)
      requires BufferOk(tx) && f.SFrame?
      modifies this
      ensures BufferOk(tx)
      ensures var o := ReceiveS(profile, old(Value()), f); Value() == o.s && log == Emit(old(log), o.tx, o.up)
    {
      hide QueueOf, PendingOf, Emit;
      EmitNothing(log);
      if f.sType == RNR {
        establishing := false;
        ReleaseAbnormally(true);
      } else if f.sType == Reserved {
        establishing := false;
      } else {
        HandleReady(f);
      }
    }

    /** RR and REJ. */
    method HandleReady(f: Frame)
      requires BufferOk(tx) && f.SFrame? && (f.sType == RR || f.sType == REJ)
      modifies this
      ensures BufferOk(tx)
      ensures var o := ReceiveS(profile, old(Value()), f); Value() == o.s && log == Emit(old(log), o.tx, o.up)
    {
      hide QueueOf, PendingOf, Emit, ProcessAck, AnswerS;
      EmitNothing(log);
      CloseWindow();
      ghost var s1 := Value();
      if state != LinkEstablished { return; }
      Acknowledge(f.nr);
      ghost var acked := ProcessAck(profile, s1, f.nr);
      Answer(f);
      ghost var next := AnswerS(acked.s, f);
      EmitTwice(old(log), acked.tx, acked.up, next.tx, next.up);
      AckReportsNothing(profile, s1, f.nr, next.up);
    }

    // ----- The API -----

    method Open(newSapi: Sapi, newCommandBit: bool)
      modifies this
      ensures BufferOk(tx)
      ensures var o := Entities.Open(old(Value()), newSapi, newCommandBit); Value() == o.s && log == old(log)
    {
      hide QueueOf;
      sapi := newSapi;
      commandBit := newCommandBit;
      ClearCounters();
      state := LinkReleased;
    }

    /** Octets that do not decode leave no trace; a decoded frame is counted, and handled if it is for our SAPI. */
    method ReceiveFrame(b: Octets)
      requires BufferOk(tx)
      modifies this
      ensures BufferOk(tx)
      ensures Decode(b).Err? ==> Value() == old(Value()) && log == old(log)
      ensures Decode(b).Ok? ==>
        var o := Receive(profile, old(Value()), Decode(b).frame);
        Value() == o.s
        && log == Emit(old(log).(framesReceived := old(log).framesReceived + 1), o.tx, o.up)
    {
      hide QueueOf, PendingOf, ReceiveI, ReceiveS, ReceiveU;
      var d := Decode(b);
      if d.Err? { return; }
      log := log.(framesReceived := log.framesReceived + 1);
      EmitNothing(log);
      var f := d.frame;
      if f.address.sapi != sapi { return; }
      match f {
        case IFrame(_, _, _, _, _, _) => HandleI(f);
        case SFrame(_, _, _, _) => HandleS(f);
        case UFrame(_, _, _, _, _) => HandleU(f);
      }
    }

    method SendUI(target: Sapi, data: Octets)
      modifies this`log
      ensures var o := Entities.SendUI(Value(), target, data); Value() == o.s && log == Emit(old(log), o.tx, o.up)
    {
      SendFrame(MakeUI(target, commandBit, data));
    }

    method SendData(data: Octets) returns (r: SendResult)
      requires BufferOk(tx)
      modifies this
      ensures BufferOk(tx) && r == SendDataResult(old(Value()), data)
      ensures var o := Entities.SendData(profile, old(Value()), data);
        Value() == o.s && log == Emit(old(log), o.tx, o.up)
    {
      EmitNothing(log);
      if state != LinkEstablished && state != ContentionResolution { return Rejected(LinkNotEstablished); }
      if data == [] { return Rejected(EmptyData); }
      BufferPush(tx, data);
      tx := tx.(bytes := tx.bytes + data);
      tx := tx.(ends := tx.ends + [|tx.bytes|]);
      TrySendNextSegment();
      return Accepted;
    }

    method SendSABME(info: Octets) returns (r: SendResult)
      requires BufferOk(tx)
      modifies this
      ensures BufferOk(tx) && r == SendSABMEResult(old(Value()))
      ensures var o := Entities.SendSABME(profile, old(Value()), info);
        Value() == o.s && log == Emit(old(log), o.tx, o.up)
    {
      hide QueueOf;
      EmitNothing(log);
      if state == LinkEstablished || state == ContentionResolution {
        DeliverL3(L3_ESTABLISH_CONFIRM, []);
        return Accepted;
      }
      if state != LinkReleased { return Rejected(NotReleased); }
      pending := pending.(info := info);
      SaveForRetransmission(SabmeKind, MakeSABME(sapi, commandBit, info));
      state := AwaitingEstablish;
      return Accepted;
    }

    method SendDISC() returns (r: SendResult)
      requires BufferOk(tx)
      modifies this
      ensures BufferOk(tx) && r == SendDISCResult(old(Value()))
      ensures var o := Entities.SendDISC(profile, old(Value())); Value() == o.s && log == Emit(old(log), o.tx, o.up)
    {
      hide QueueOf;
      EmitNothing(log);
      if state != LinkEstablished && state != ContentionResolution { return Rejected(CannotDisconnect); }
      SaveForRetransmission(DiscKind, MakeDISC(sapi, commandBit));
      state := AwaitingRelease;
      return Accepted;
    }

    method HardRelease()
      modifies this
      ensures BufferOk(tx)
      ensures var o := Entities.HardRelease(old(Value())); Value() == o.s && log == old(log)
    {
      ClearCounters();
      establishing := false;
      state := LinkReleased;
    }

    /** Returns whether T200 expired; an expiry within the budget counts as a retransmission. */
    method TickT200(elapsed: nat) returns (fired: bool)
      requires BufferOk(tx)
      modifies this
      ensures BufferOk(tx) && fired == Expires(old(Value()), elapsed)
      ensures var s := old(Value()); var o := Tick(profile, s, elapsed);
        var repeated := if fired && s.rc <= profile.n200 then 1 else 0;
        && Value() == o.s
        && log == Emit(old(log).(retransmissions := old(log).retransmissions + repeated), o.tx, o.up)
    {
      hide QueueOf;
      EmitNothing(log);
      if !t200.active { return false; }
      if elapsed >= t200.remaining {
        t200 := t200.(remaining := 0);
      } else {
        t200 := t200.(remaining := t200.remaining - elapsed);
        return false;
      }
      t200 := t200.(active := false);
      if rc <= profile.n200 {
        RetransmitPending();
        rc := rc + 1;
        log := log.(retransmissions := log.retransmissions + 1);
        t200 := T200(true, profile.t200Ms);
        return true;
      }
      ReleaseAbnormally(false);
      return true;
    }

    /** Exactly while a frame is outstanding does the next accepted message wait instead of going out at once. */
    method HasOutstandingFrame() returns (b: bool)
      ensures b == (Value().vs != Value().va)
      ensures forall data :: SendDataResult(Value(), data) == Accepted ==>
                (b <==> Entities.SendData(profile, Value(), data).tx == [])
    {
      hide QueueOf, Cut, AfterCut;
      return n.vs != n.va;
    }

    method ResetStats()
      modifies this`log
      ensures log == old(log).(framesSent := 0, framesReceived := 0, retransmissions := 0)
      ensures Value() == old(Value())
    {
      log := log.(framesSent := 0, framesReceived := 0, retransmissions := 0);
    }
  }
}
