/** The segmented bump allocator (src/arena.cpp). */
module ArenaModel {
  import opened Arithmetic
  import opened Frames

  // ----- Bit tricks on unsigned words -----

  function And(x: nat, y: nat): nat {
    if x == 0 || y == 0 then 0 else 2 * And(x / 2, y / 2) + (x % 2) * (y % 2)
  }

  /** x & ~m */
  function AndNot(x: nat, m: nat): nat {
    if x == 0 then 0 else 2 * AndNot(x / 2, m / 2) + (if x % 2 == 1 && m % 2 == 0 then 1 else 0)
  }

  predicate IsPowerOfTwo(v: nat) { v != 0 && And(v, v - 1) == 0 }

  lemma {:induction false} AndSelf(x: nat)
    ensures And(x, x) == x
  {
    if x > 0 {
      AndSelf(x / 2);
      BitTimesItself(x % 2);
    }
  }

  lemma BitTimesItself(b: nat)
    requires b < 2
    ensures b * b == b
  {
  }

  ghost predicate Power(v: nat) { exists k: nat :: v == Pow2(k) }

  /** The test accepts exactly the powers of two. */
  lemma {:induction false} PowerOfTwoTest(v: nat)
    ensures IsPowerOfTwo(v) <==> Power(v)
  {
    if v == 0 {
    } else if v == 1 {
      assert v == Pow2(0);
    } else if v % 2 == 1 {
      AndSelf(v / 2);
      assert (v - 1) / 2 == v / 2 && (v - 1) % 2 == 0;
      assert And(v, v - 1) == 2 * (v / 2);
      forall k: nat ensures v != Pow2(k) { if k > 0 { assert Pow2(k) == 2 * Pow2(k - 1); } }
    } else {
      var h := v / 2;
      PowerOfTwoTest(h);
      assert (v - 1) / 2 == h - 1 && v % 2 == 0;
      assert And(v, v - 1) == 2 * And(h, h - 1);
      PowerOfHalf(h);
    }
  }

  lemma PowerOfHalf(h: nat)
    requires h >= 1
    ensures Power(2 * h) <==> Power(h)
  {
    if Power(h) {
      var k: nat :| h == Pow2(k);
      assert 2 * h == Pow2(k + 1);
    }
    if Power(2 * h) {
      var k: nat :| 2 * h == Pow2(k);
      assert k > 0 && h == Pow2(k - 1);
    }
  }

  lemma {:induction false} AndNotZero(x: nat)
    ensures AndNot(x, 0) == x
  {
    if x > 0 { AndNotZero(x / 2); }
  }

  lemma MaskStep(x: nat, p: nat, low: nat)
    requires p >= 1 && low == x / 2 - x / 2 % p && x > 0 && AndNot(x / 2, p - 1) == low
    ensures AndNot(x, 2 * p - 1) == x - x % (2 * p)
  {
    hide AndNot;
    DoubleMod(x, p);
    AndNotOdd(x, p - 1);
  }

  lemma AndNotOdd(x: nat, h: nat)
    requires x > 0
    ensures AndNot(x, 2 * h + 1) == 2 * AndNot(x / 2, h)
  {
  }

  lemma {:induction false} MaskClearsRemainder(x: nat, k: nat)
    ensures AndNot(x, Pow2(k) - 1) == x - x % Pow2(k)
    decreases k
  {
    var p := Pow2(k);
    if k == 0 {
      AndNotZero(x);
    } else if x == 0 {
      DivModUnique(0, p, 0, 0);
    } else {
      MaskClearsRemainder(x / 2, k - 1);
      MaskStep(x, Pow2(k - 1), AndNot(x / 2, Pow2(k - 1) - 1));
    }
  }

  /** (x + a - 1) & ~(a - 1) */
  function RoundUp(x: nat, a: nat): nat
    requires a >= 1
  {
    AndNot(x + a - 1, a - 1)
  }

  /** Dropping the remainder gives the greatest multiple that is not larger. */
  lemma RoundDown(y: nat, a: nat)
    requires a >= 1
    ensures (y - y % a) % a == 0 && y - a < y - y % a <= y
    ensures forall m: nat :: m % a == 0 && m + a > y ==> y - y % a <= m
  {
    var q := y / a;
    DivModUnique(q * a, a, q, 0);
    forall m: nat | m % a == 0 && m + a > y
      ensures y - y % a <= m
    {
      var j := m / a;
      if q >= j + 1 { MulMonotone(j + 1, q, a); }
      else { MulMonotone(q, j, a); }
    }
  }

  /** For a power of two the mask trick gives the least multiple that is not smaller. */
  lemma MaskTrickRoundsUp(x: nat, a: nat)
    requires IsPowerOfTwo(a)
    ensures RoundUp(x, a) % a == 0 && x <= RoundUp(x, a) < x + a
    ensures forall m: nat :: x <= m && m % a == 0 ==> RoundUp(x, a) <= m
  {
    PowerOfTwoTest(a);
    var k: nat :| a == Pow2(k);
    MaskClearsRemainder(x + a - 1, k);
    RoundDown(x + a - 1, a);
  }

  // ----- The arena -----

  const MIN_BLOCK: nat := 65536

  /** A heap block: its address, its size and how much of it is taken. */
  datatype Block = Block(base: nat, size: nat, offset: nat)

  datatype Store = Store(blocks: seq<Block>, used: nat)

  /** A request, with the address at which the heap would place a new block. */
  datatype Request = Request(bytes: nat, alignment: nat, heap: nat)

  function NewSize(r: Request): nat {
    var c := (r.bytes + r.alignment) * 2;
    (if c < MIN_BLOCK then MIN_BLOCK else c) + r.alignment
  }

  function Last(s: Store): Block
    requires s.blocks != []
  {
    s.blocks[|s.blocks| - 1]
  }

  predicate Accepted(r: Request) { r.bytes != 0 && IsPowerOfTwo(r.alignment) }

  /** The request fits behind what the current block has already given out. */
  predicate Fits(s: Store, r: Request)
    requires Accepted(r)
  {
    s.blocks != [] && RoundUp(Last(s).offset, r.alignment) + r.bytes <= Last(s).size
  }

  /** The block from which the request is served, before and after. */
  function Serve(s: Store, r: Request): (Block, nat)
    requires Accepted(r)
  {
    if Fits(s, r) then
      var b := Last(s);
      var at := RoundUp(b.offset, r.alignment);
      (b.(offset := at + r.bytes), b.base + at)
    else
      var aligned := RoundUp(r.heap, r.alignment);
      MaskTrickRoundsUp(r.heap, r.alignment);
      (Block(r.heap, NewSize(r), aligned - r.heap + r.bytes), aligned)
  }

  function Allocate(s: Store, r: Request): (Store, Option<nat>) {
    if !Accepted(r) then (s, None)
    else
      var (b, addr) := Serve(s, r);
      var kept := if Fits(s, r) then s.blocks[..|s.blocks| - 1] else s.blocks;
      (Store(kept + [b], s.used + r.bytes), Some(addr))
  }

  function TotalSize(bs: seq<Block>): nat {
    if bs == [] then 0 else TotalSize(bs[..|bs| - 1]) + bs[|bs| - 1].size
  }

  function TotalTaken(bs: seq<Block>): nat {
    if bs == [] then 0 else TotalTaken(bs[..|bs| - 1]) + bs[|bs| - 1].offset
  }

  lemma {:induction false} TakenWithinSize(bs: seq<Block>)
    requires forall i :: 0 <= i < |bs| ==> bs[i].offset <= bs[i].size
    ensures TotalTaken(bs) <= TotalSize(bs)
  {
    if bs != [] { TakenWithinSize(bs[..|bs| - 1]); }
  }

  // ----- What was handed out -----

  /** A region handed out since the last reset, and the block it came from. */
  datatype Region = Region(block: nat, addr: nat, len: nat)

  predicate Apart(a: nat, alen: nat, b: nat, blen: nat) { a + alen <= b || b + blen <= a }

  function TotalLength(rs: seq<Region>): nat {
    if rs == [] then 0 else TotalLength(rs[..|rs| - 1]) + rs[|rs| - 1].len
  }

  predicate Sound(s: Store, rs: seq<Region>) {
    && (forall i :: 0 <= i < |s.blocks| ==> s.blocks[i].offset <= s.blocks[i].size)
    && (forall i, j :: 0 <= i < j < |s.blocks| ==>
          Apart(s.blocks[i].base, s.blocks[i].size, s.blocks[j].base, s.blocks[j].size))
    && (forall i :: 0 <= i < |rs| ==> rs[i].block < |s.blocks| && InBlock(s.blocks[rs[i].block], rs[i]))
    && (forall i, j :: 0 <= i < j < |rs| ==> Apart(rs[i].addr, rs[i].len, rs[j].addr, rs[j].len))
    && s.used == TotalLength(rs)
    && s.used <= TotalTaken(s.blocks)
  }

  predicate InBlock(b: Block, r: Region) { b.base <= r.addr && r.addr + r.len <= b.base + b.offset }

  /** The heap places new blocks away from live ones. */
  predicate HeapOk(s: Store, r: Request) {
    forall i :: 0 <= i < |s.blocks| ==> Apart(s.blocks[i].base, s.blocks[i].size, r.heap, NewSize(r))
  }

  function Grown(s: Store, rs: seq<Region>, r: Request): seq<Region> {
    match Allocate(s, r).1
    case None => rs
    case Some(addr) => rs + [Region(|Allocate(s, r).0.blocks| - 1, addr, r.bytes)]
  }

  lemma ServeInBlock(s: Store, r: Request)
    requires Accepted(r)
    ensures var (b, addr) := Serve(s, r);
      && b.offset <= b.size && InBlock(b, Region(0, addr, r.bytes))
      && (Fits(s, r) ==>
            && b.base == Last(s).base && b.size == Last(s).size
            && addr >= Last(s).base + Last(s).offset && b.offset >= Last(s).offset + r.bytes)
      && (!Fits(s, r) ==> b.base == r.heap && b.size == NewSize(r) && b.offset >= r.bytes)
  {
    MaskTrickRoundsUp(r.heap, r.alignment);
    if s.blocks != [] { MaskTrickRoundsUp(Last(s).offset, r.alignment); }
  }

  /** What is left in the current block. */
  function Left(s: Store): int { if s.blocks == [] then 0 else Last(s).size - Last(s).offset }

  /** A request served from the current block costs its bytes and the padding in front of them, and nothing else. */
  lemma ServeCosts(s: Store, r: Request)
    requires Accepted(r) && Fits(s, r)
    ensures var (s', addr) := Allocate(s, r);
      && addr.Some? && |s'.blocks| == |s.blocks|
      && var padding := addr.value - (Last(s).base + Last(s).offset);
         && 0 <= padding < r.alignment && (Last(s).offset + padding) % r.alignment == 0
         && Left(s') == Left(s) - padding - r.bytes
  {
    hide RoundUp, And;
    MaskTrickRoundsUp(Last(s).offset, r.alignment);
  }

  /** A request that opens a block leaves room for the same request again, so a block is never opened for one only. */
  lemma NewBlockHasHeadroom(s: Store, r: Request)
    requires Accepted(r) && !Fits(s, r)
    ensures var s' := Allocate(s, r).0;
      && |s'.blocks| == |s.blocks| + 1 && Fits(s', r) && Last(s').base == r.heap
      && Last(s').size - r.alignment == (if r.bytes + r.alignment < 32768 then 65536 else 2 * (r.bytes + r.alignment))
  {
    hide RoundUp, And;
    MaskTrickRoundsUp(r.heap, r.alignment);
    MaskTrickRoundsUp(Last(Allocate(s, r).0).offset, r.alignment);
  }

  /** A request is refused exactly when it asks for nothing or for no power of two, and then nothing changes. */
  lemma RefusedExactly(s: Store, r: Request)
    ensures Allocate(s, r).1 == None <==> r.bytes == 0 || !Power(r.alignment)
    ensures Allocate(s, r).1 == None ==> Allocate(s, r).0 == s
  {
    hide RoundUp, And;
    PowerOfTwoTest(r.alignment);
  }

  /** The address is aligned exactly when a new block was opened or the current block's base is aligned. */
  lemma AlignedExactly(s: Store, r: Request)
    requires Accepted(r)
    ensures Serve(s, r).1 % r.alignment == 0 <==> (!Fits(s, r) || Last(s).base % r.alignment == 0)
  {
    MaskTrickRoundsUp(r.heap, r.alignment);
    if Fits(s, r) {
      var at := RoundUp(Last(s).offset, r.alignment);
      MaskTrickRoundsUp(Last(s).offset, r.alignment);
      AddMultiple(Last(s).base, at, r.alignment);
    }
  }

  /** Alignment 1 asks for nothing. */
  lemma UnalignedRequest()
    ensures IsPowerOfTwo(1) && forall x: nat :: RoundUp(x, 1) == x
  {
    forall x: nat ensures RoundUp(x, 1) == x { AndNotZero(x); }
  }

  lemma AddMultiple(x: nat, y: nat, a: nat)
    requires a >= 1 && y % a == 0
    ensures (x + y) % a == x % a
  {
    var q, r := x / a, x % a;
    assert x + y == (q + y / a) * a + r;
    DivModUnique(x + y, a, q + y / a, r);
  }

  lemma AppendTotals(bs: seq<Block>, b: Block)
    ensures TotalTaken(bs + [b]) == TotalTaken(bs) + b.offset
  {
    assert (bs + [b])[..|bs|] == bs;
  }

  lemma ServeTotals(s: Store, rs: seq<Region>, r: Request)
    requires Accepted(r) && Sound(s, rs)
    ensures var s' := Allocate(s, r).0; s'.used == TotalLength(Grown(s, rs, r)) && s'.used <= TotalTaken(s'.blocks)
  {
    hide RoundUp, IsPowerOfTwo, Apart, InBlock;
    ServeInBlock(s, r);
    var (b, addr) := Serve(s, r);
    var kept := if Fits(s, r) then s.blocks[..|s.blocks| - 1] else s.blocks;
    AppendTotals(kept, b);
    assert Grown(s, rs, r)[..|rs|] == rs;
  }

  /** Taking more of the last block, behind everything it has given out. */
  lemma ExtendLast(s: Store, rs: seq<Region>, b: Block, g: Region, used: nat)
    requires Sound(s, rs) && s.blocks != [] && g.block == |s.blocks| - 1
    requires b.base == Last(s).base && b.size == Last(s).size && Last(s).offset <= b.offset <= b.size
    requires InBlock(b, g) && g.addr >= Last(s).base + Last(s).offset
    requires var bs := s.blocks[..|s.blocks| - 1] + [b]; used == TotalLength(rs + [g]) && used <= TotalTaken(bs)
    ensures Sound(Store(s.blocks[..|s.blocks| - 1] + [b], used), rs + [g])
  {
    var n := |s.blocks| - 1;
    var bs := s.blocks[..n] + [b];
    assert forall i :: 0 <= i < n ==> bs[i] == s.blocks[i];
    forall i | 0 <= i < |rs|
      ensures InBlock(bs[rs[i].block], rs[i]) && Apart(rs[i].addr, rs[i].len, g.addr, g.len)
    {
      var home := bs[rs[i].block];
      if rs[i].block < n { assert Apart(home.base, home.size, s.blocks[n].base, s.blocks[n].size); }
    }
  }

  /** Opening a new block, away from the others. */
  lemma ExtendNew(s: Store, rs: seq<Region>, b: Block, g: Region, used: nat)
    requires Sound(s, rs) && g.block == |s.blocks| && b.offset <= b.size && InBlock(b, g)
    requires forall i :: 0 <= i < |s.blocks| ==> Apart(s.blocks[i].base, s.blocks[i].size, b.base, b.size)
    requires used == TotalLength(rs + [g]) && used <= TotalTaken(s.blocks + [b])
    ensures Sound(Store(s.blocks + [b], used), rs + [g])
  {
    var bs := s.blocks + [b];
    forall i | 0 <= i < |rs|
      ensures InBlock(bs[rs[i].block], rs[i]) && Apart(rs[i].addr, rs[i].len, g.addr, g.len)
    {
      assert bs[rs[i].block] == s.blocks[rs[i].block];
    }
  }

  /** An allocation keeps blocks and regions apart and the account balanced. */
  lemma AllocateSound(s: Store, rs: seq<Region>, r: Request)
    requires Sound(s, rs) && HeapOk(s, r)
    ensures Sound(Allocate(s, r).0, Grown(s, rs, r))
  {
    hide RoundUp, IsPowerOfTwo, Sound;
    if Accepted(r) {
      ServeTotals(s, rs, r);
      ServeInBlock(s, r);
      var s' := Allocate(s, r).0;
      var (b, addr) := Serve(s, r);
      var g := Region(|s'.blocks| - 1, addr, r.bytes);
      if Fits(s, r) { ExtendLast(s, rs, b, g, s'.used); } else { ExtendNew(s, rs, b, g, s'.used); }
    }
  }

  /** Every block is still where it was, with the size it had. */
  predicate Kept(s: Store, s': Store) {
    |s.blocks| <= |s'.blocks| &&
    forall i :: 0 <= i < |s.blocks| ==> s'.blocks[i].base == s.blocks[i].base && s'.blocks[i].size == s.blocks[i].size
  }

  /** Blocks are append-only: an allocation moves and resizes none of them. */
  lemma BlocksStay(s: Store, r: Request)
    ensures Kept(s, Allocate(s, r).0)
  {
    hide RoundUp, IsPowerOfTwo;
  }

  // ----- Whole runs -----

  function AllocateAll(s: Store, rs: seq<Region>, reqs: seq<Request>): (Store, seq<Region>)
    decreases |reqs|
  {
    if reqs == [] then (s, rs)
    else AllocateAll(Allocate(s, reqs[0]).0, Grown(s, rs, reqs[0]), reqs[1..])
  }

  predicate HeapOkAll(s: Store, reqs: seq<Request>)
    decreases |reqs|
  {
    reqs == [] || (HeapOk(s, reqs[0]) && HeapOkAll(Allocate(s, reqs[0]).0, reqs[1..]))
  }

  lemma {:induction false} RunSound(s: Store, rs: seq<Region>, reqs: seq<Request>)
    requires Sound(s, rs) && HeapOkAll(s, reqs)
    ensures var (s', rs') := AllocateAll(s, rs, reqs); Sound(s', rs') && rs <= rs' && Kept(s, s')
    decreases |reqs|
  {
    hide Sound;
    if reqs != [] {
      AllocateSound(s, rs, reqs[0]);
      BlocksStay(s, reqs[0]);
      RunSound(Allocate(s, reqs[0]).0, Grown(s, rs, reqs[0]), reqs[1..]);
    }
  }

  /**
   From a new or reset arena, over every run of requests: the regions handed out are pairwise apart, each inside a
   live block; the used count is the sum of the granted sizes and never exceeds the capacity.
   */
  lemma ArenaRun(s0: Store, base: nat, initial: nat, reqs: seq<Request>)
    requires s0 == Store([Block(base, initial, 0)], 0) || s0 == Store([], 0)
    requires HeapOkAll(s0, reqs)
    ensures var (s, rs) := AllocateAll(s0, [], reqs);
      && (forall i, j :: 0 <= i < j < |rs| ==> Apart(rs[i].addr, rs[i].len, rs[j].addr, rs[j].len))
      && (forall i :: 0 <= i < |rs| ==> rs[i].block < |s.blocks| && InBlock(s.blocks[rs[i].block], rs[i]))
      && s.used == TotalLength(rs) && s.used <= TotalSize(s.blocks)
  {
    RunSound(s0, [], reqs);
    TakenWithinSize(AllocateAll(s0, [], reqs).0.blocks);
  }

  predicate BasesAligned(s: Store, a: nat)
    requires a >= 1
  {
    forall i :: 0 <= i < |s.blocks| ==> s.blocks[i].base % a == 0
  }

  lemma AllocateKeepsBases(s: Store, r: Request, a: nat)
    requires a >= 1 && BasesAligned(s, a) && r.heap % a == 0
    ensures BasesAligned(Allocate(s, r).0, a)
  {
    hide RoundUp, IsPowerOfTwo;
  }

  lemma DividesThrough(x: nat, a: nat, d: nat)
    requires a >= 1 && d >= 1 && x % a == 0 && a % d == 0
    ensures x % d == 0
  {
    var i, j := x / a, a / d;
    assert x == i * j * d by { assert x == i * a && a == j * d; }
    DivModUnique(x, d, i * j, 0);
  }

  /** A heap whose blocks start at multiples of `a` serves every request for an alignment that divides `a`. */
  lemma {:induction false} AlignedOverRuns(s: Store, rs: seq<Region>, reqs: seq<Request>, a: nat, k: nat)
    requires a >= 1 && BasesAligned(s, a) && k < |reqs|
    requires forall i :: 0 <= i < |reqs| ==> reqs[i].heap % a == 0
    requires Accepted(reqs[k]) && a % reqs[k].alignment == 0
    ensures var before := AllocateAll(s, rs, reqs[..k]).0; var addr := Allocate(before, reqs[k]).1;
      addr.Some? && addr.value % reqs[k].alignment == 0
    decreases |reqs|
  {
    hide RoundUp, And;
    if k == 0 {
      AlignedExactly(s, reqs[0]);
      if s.blocks != [] { DividesThrough(Last(s).base, a, reqs[0].alignment); }
    } else {
      AllocateKeepsBases(s, reqs[0], a);
      AlignedOverRuns(Allocate(s, reqs[0]).0, Grown(s, rs, reqs[0]), reqs[1..], a, k - 1);
      assert reqs[..k][1..] == reqs[1..][..k - 1];
    }
  }

  /** The promised alignment fails when the request asks for more than the block's base has. */
  lemma OveralignedRequest()
    ensures var s := Store([Block(16, 4096, 0)], 0); var r := Request(8, 64, 100000);
      Accepted(r) && Allocate(s, r).1 == Some(16) && 16 % 64 != 0
  {
    hide RoundUp, IsPowerOfTwo;
    Pow2Values();
    assert Power(64);
    PowerOfTwoTest(64);
    MaskTrickRoundsUp(0, 64);
  }

  class Arena {
    var blocks: seq<Block>
    var used: nat

    function Value(): Store
      reads this
    {
      Store(blocks, used)
    }

    constructor (initialCapacity: nat, heap: nat)
      ensures Value() == Store([Block(heap, initialCapacity, 0)], 0)
    {
      blocks, used := [Block(heap, initialCapacity, 0)], 0;
    }

    method AllocateBytes(bytes: nat, alignment: nat, heap: nat) returns (addr: Option<nat>)
      modifies this
      ensures (Value(), addr) == Allocate(old(Value()), Request(bytes, alignment, heap))
    {
      hide RoundUp, And;
      if bytes == 0 { return None; }
      if alignment == 0 || And(alignment, alignment - 1) != 0 { return None; }
      if blocks != [] {
        var b := blocks[|blocks| - 1];
        var alignedOffset := RoundUp(b.offset, alignment);
        if alignedOffset + bytes <= b.size {
          blocks := blocks[..|blocks| - 1] + [b.(offset := alignedOffset + bytes)];
          used := used + bytes;
          return Some(b.base + alignedOffset);
        }
      }
      MaskTrickRoundsUp(heap, alignment);
      var blockCapacity := (bytes + alignment) * 2;
      if blockCapacity < MIN_BLOCK { blockCapacity := MIN_BLOCK; }
      var slack := RoundUp(heap, alignment) - heap;
      blocks := blocks + [Block(heap, blockCapacity + alignment, slack + bytes)];
      used := used + bytes;
      return Some(heap + slack);
    }

    method Reset()
      modifies this
      ensures Value() == Store([], 0)
    {
      blocks, used := [], 0;
    }

    /** A request for `bytes` octets at any address is served without a new block exactly when they are at most `n`. */
    method Remaining() returns (n: int)
      ensures n == if blocks == [] then 0 else Last(Value()).size - Last(Value()).offset
      ensures forall r: Request :: r.bytes != 0 && r.alignment == 1 ==>
                Accepted(r) && (Fits(Value(), r) <==> r.bytes <= n)
    {
      UnalignedRequest();
      if blocks == [] { return 0; }
      return blocks[|blocks| - 1].size - blocks[|blocks| - 1].offset;
    }

    method Capacity() returns (total: nat)
      ensures total == TotalSize(blocks)
    {
      total := 0;
      var i := 0;
      while i < |blocks|
        invariant 0 <= i <= |blocks| && total == TotalSize(blocks[..i])
      {
        assert blocks[..i + 1][..i] == blocks[..i];
        total := total + blocks[i].size;
        i := i + 1;
      }
      assert blocks[..|blocks|] == blocks;
    }
  }
}
