/** TDMA frame-number arithmetic (section 4.3 of GSM 05.02). */
module FrameNumber {
  import opened Arithmetic

  const HYPERFRAME: int := 2048 * 26 * 51
  const HALF: int := HYPERFRAME / 2

  function Superframe(fn: nat): nat { fn / (26 * 51) }
  function T1(fn: nat): nat { Superframe(fn) % 2048 }
  function T1Reduced(fn: nat): nat { Superframe(fn) % 32 }
  function T2(fn: nat): nat { fn % 26 }
  function T3(fn: nat): nat { fn % 51 }

  lemma SameT2(a: nat, b: nat)
    ensures T2(a) == T2(b) <==> exists x :: a - b == 26 * x
  {
    if T2(a) == T2(b) { assert a - b == 26 * (a / 26 - b / 26); }
  }

  lemma SameT3(a: nat, b: nat)
    ensures T3(a) == T3(b) <==> exists y :: a - b == 51 * y
  {
    if T3(a) == T3(b) { assert a - b == 51 * (a / 51 - b / 51); }
  }

  /** 26 and 51 are coprime: agreeing on T2 and T3 is agreeing modulo 1326. */
  lemma MultiframesDetermine(a: nat, b: nat)
    ensures T2(a) == T2(b) && T3(a) == T3(b) <==> (a - b) % 1326 == 0
  {
    SameT2(a, b);
    SameT3(a, b);
    if T2(a) == T2(b) && T3(a) == T3(b) {
      var x :| a - b == 26 * x;
      var y :| a - b == 51 * y;
      assert a - b == 1326 * (2 * y - x);
    }
    if (a - b) % 1326 == 0 {
      var k := (a - b) / 1326;
      assert a - b == 26 * (51 * k) && a - b == 51 * (26 * k);
    }
  }

  /** Superframe counter modulo m, with T2 and T3, determine the frame number modulo 1326 m. */
  lemma CountersDetermine(a: nat, b: nat, m: nat)
    requires m >= 1
    ensures Superframe(a) % m == Superframe(b) % m && T2(a) == T2(b) && T3(a) == T3(b)
       <==> (a - b) % (1326 * m) == 0
  {
    hide T2, T3;
    MultiframesDetermine(a, b);
    var qa, qb := a / 1326, b / 1326;
    if T2(a) == T2(b) && T3(a) == T3(b) {
      SameSuperframePart(a, b);
      SameRemainder(qa, qb, m);
      ScaledMod(qa - qb, 1326, m);
    } else if (a - b) % (1326 * m) == 0 {
      MultipleOfProduct(a - b, 1326, m);
    }
  }

  lemma SameSuperframePart(a: nat, b: nat)
    requires (a - b) % 1326 == 0
    ensures a - b == 1326 * (a / 1326 - b / 1326)
  {
    var k := (a - b) / 1326;
    assert a == 1326 * (b / 1326 + k) + b % 1326;
  }

  lemma SameRemainder(x: int, y: int, m: int)
    requires m >= 1
    ensures x % m == y % m <==> (x - y) % m == 0
  {
    var q := x / m - y / m;
    assert x - y == q * m + (x % m - y % m) by { assert q * m == (x / m) * m - (y / m) * m; }
    if (x - y) % m == 0 {
      var k := (x - y) / m - q;
      assert k * m == ((x - y) / m) * m - q * m;
      assert k * m == x % m - y % m;
      SmallMultiple(k, m);
    }
    if x % m == y % m { MultipleMod(q, m); }
  }

  lemma SmallMultiple(k: int, m: int)
    requires m >= 1 && -m < k * m < m
    ensures k == 0
  {
    if k >= 1 { MulAtLeast(k, m); }
    if k <= -1 { MulAtLeast(-k, m); }
  }

  lemma MultipleMod(q: int, m: int)
    requires m >= 1
    ensures (q * m) % m == 0
  {
    var r, k := (q * m) % m, (q * m) / m - q;
    assert k * m == ((q * m) / m) * m - q * m;
    assert k * m == -r;
    SmallMultiple(k, m);
  }

  lemma ScaledMod(k: int, c: int, m: int)
    requires c >= 1 && m >= 1
    ensures (c * k) % (c * m) == 0 <==> k % m == 0
  {
    if k % m == 0 {
      var j := k / m;
      assert c * k == j * (c * m) by { assert k == j * m; }
      MultipleMod(j, c * m);
    }
    if (c * k) % (c * m) == 0 {
      var j := (c * k) / (c * m);
      assert c * k == j * (c * m);
      assert c * (k - j * m) == 0;
      assert k == j * m;
      MultipleMod(j, m);
    }
  }

  lemma MultipleOfProduct(d: int, c: int, m: int)
    requires c >= 1 && m >= 1 && d % (c * m) == 0
    ensures d % c == 0
  {
    var j := d / (c * m);
    assert d == (j * m) * c;
    MultipleMod(j * m, c);
  }

  /** (T1', T2, T3) identifies the frame number modulo 32 superframes. */
  lemma ReducedTriple(a: nat, b: nat)
    ensures T1Reduced(a) == T1Reduced(b) && T2(a) == T2(b) && T3(a) == T3(b) <==> (a - b) % (32 * 26 * 51) == 0
  {
    CountersDetermine(a, b, 32);
  }

  /** (T1, T2, T3) identifies the frame number within the hyperframe. */
  lemma FullTriple(a: nat, b: nat)
    ensures T1(a) == T1(b) && T2(a) == T2(b) && T3(a) == T3(b) <==> (a - b) % HYPERFRAME == 0
  {
    CountersDetermine(a, b, 2048);
  }

  /** The frame number is recovered from its counters. */
  lemma CountersRecover(fn: nat)
    ensures fn % HYPERFRAME == 1326 * T1(fn) + 51 * ((T3(fn) - T2(fn)) % 26) + T3(fn)
  {
    var q, r := fn / 1326, fn % 1326;
    var k := r / 51;
    assert fn == 26 * (51 * q) + r && fn == 51 * (26 * q) + r;
    SameRemainder(fn, r, 26);
    SameRemainder(fn, r, 51);
    MultipleMod(51 * q, 26);
    MultipleMod(26 * q, 51);
    assert r == 51 * k + T3(fn) && 0 <= k < 26;
    assert T3(fn) - T2(fn) == k + 26 * (r / 26 - 2 * k);
    DivModUnique(T3(fn) - T2(fn), 26, r / 26 - 2 * k, k);
    var h := q / 2048;
    assert fn == h * HYPERFRAME + (1326 * T1(fn) + r);
    DivModUnique(fn, HYPERFRAME, h, 1326 * T1(fn) + r);
  }

  // ----- Differences on the circle -----

  predicate InRange(fn: int) { 0 <= fn < HYPERFRAME }

  function FNDelta(v1: int, v2: int): int {
    var delta := v1 - v2;
    var once := if delta > HALF then delta - HYPERFRAME else delta;
    if once < -HALF then once + HYPERFRAME else once
  }

  function FNCompare(v1: int, v2: int): int {
    var delta := FNDelta(v1, v2);
    if delta > 0 then 1 else if delta < 0 then -1 else 0
  }

  /** The difference is congruent, within half a hyperframe, zero only for equal numbers, and antisymmetric. */
  lemma DeltaOnCircle(v1: int, v2: int)
    requires InRange(v1) && InRange(v2)
    ensures (FNDelta(v1, v2) - (v1 - v2)) % HYPERFRAME == 0
    ensures -HALF <= FNDelta(v1, v2) <= HALF
    ensures FNDelta(v1, v2) == 0 <==> v1 == v2
    ensures FNDelta(v2, v1) == -FNDelta(v1, v2)
    ensures FNCompare(v2, v1) == -FNCompare(v1, v2)
  {
  }

  /** Stepping forward by less than half a hyperframe, across the wrap or not, is seen as that step. */
  lemma DeltaOfStep(v: int, step: int)
    requires InRange(v) && -HALF < step < HALF
    ensures InRange((v + step) % HYPERFRAME) && FNDelta((v + step) % HYPERFRAME, v) == step
    ensures FNCompare((v + step) % HYPERFRAME, v) == if step > 0 then 1 else if step < 0 then -1 else 0
  {
    var u := v + step;
    assert u % HYPERFRAME == if u < 0 then u + HYPERFRAME else if u >= HYPERFRAME then u - HYPERFRAME else u;
  }

  /**
   The comparison agrees with the plain order of the numbers exactly while they are at most half a hyperframe apart;
   beyond that the order is turned round.
   */
  lemma CompareIsPlainOrder(v1: int, v2: int)
    requires InRange(v1) && InRange(v2)
    ensures FNCompare(v1, v2) == (if v1 > v2 then 1 else if v1 < v2 then -1 else 0) <==> -HALF <= v1 - v2 <= HALF
    ensures !(-HALF <= v1 - v2 <= HALF) ==> FNCompare(v1, v2) == if v1 > v2 then -1 else 1
  {
  }

  /**
   When later-than chains: two forward steps in a row are a forward step exactly when together they stay below half
   a hyperframe, or reach just half of it without passing the wrap.
   */
  lemma LaterChains(a: int, b: int, c: int)
    requires InRange(a) && InRange(b) && InRange(c) && FNCompare(b, a) == 1 && FNCompare(c, b) == 1
    ensures var steps := FNDelta(b, a) + FNDelta(c, b);
      FNCompare(c, a) == 1 <==> steps < HALF || (steps == HALF && a < c)
  {
    var steps := FNDelta(b, a) + FNDelta(c, b);
    assert 2 <= steps <= HYPERFRAME && (steps == c - a || steps == c - a + HYPERFRAME);
  }

  /** Later-than is not an order on the circle: three equally spaced frames each come after the previous one. */
  lemma CompareIsNotTransitive()
    ensures exists a, b, c ::
      InRange(a) && InRange(b) && InRange(c) && FNCompare(b, a) == 1 && FNCompare(c, b) == 1 && FNCompare(a, c) == 1
  {
    var a, b, c := 0, 905216, 1810432;
    assert FNCompare(b, a) == 1 && FNCompare(c, b) == 1 && FNCompare(a, c) == 1;
    assert InRange(a) && InRange(b) && InRange(c);
  }
}
