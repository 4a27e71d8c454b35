/**
 The 64-bit index arithmetic of concurrentqueue.h: comparing indices that wrap around, finding the
 slot of a block in the circular block index, and counting the blocks a bulk enqueue needs.
 The true index of an element is an unbounded integer; the code sees it modulo 2^64.
 */
module SlotArithmetic {
  import opened Modular
  import opened PowersOfTwo

  function Wrap(x: int): (r: nat)
    ensures r < WORD64
    ensures 0 <= x < WORD64 ==> r == x
  {
    x % WORD64
  }

  lemma WrapDifference(a: int, b: int)
    ensures Wrap(Wrap(a) - Wrap(b)) == Wrap(a - b)
  {
    var q := a / WORD64 - b / WORD64;
    assert a - b == q * WORD64 + (Wrap(a) - Wrap(b));
    WrapShift(Wrap(a) - Wrap(b), q);
  }

  lemma WrapShift(x: int, q: int)
    ensures Wrap(x + q * WORD64) == Wrap(x)
  {
    ModuloUnique(x + q * WORD64, WORD64, x / WORD64 + q, x % WORD64);
  }

  /** `circular_less_than` on 64-bit words. */
  predicate CircularLessThan(a: nat, b: nat) { Wrap(a - b) > HALF64 }

  /** It decides a < b exactly when a - b lies in (-2^63, 2^63]. */
  lemma CircularLessThanExact(a: int, b: int)
    requires b - a < WORD64 && a - b < WORD64
    ensures (CircularLessThan(Wrap(a), Wrap(b)) <==> a < b) <==> b - a < HALF64 && a - b <= HALF64
  {
    WrapDifference(a, b);
    if a < b { WrapShift(a - b, 1); }
  }

  // ---------------------------------------------------------------------------
  // The slot of a block
  // ---------------------------------------------------------------------------

  /**
   `get_block_index_index_for_index` on words: the distance to the tail block divided by
   BLOCK_SIZE as an unsigned number, added to the tail slot and masked.
   */
  function Slot(base: nat, tailBase: nat, tail: nat, blockSize: nat, capacity: nat): nat
    requires blockSize > 0 && capacity > 0
  {
    BitAnd(Wrap(tail + Wrap(base - tailBase) / blockSize), capacity - 1)
  }

  lemma DivExact(r: int, bs: nat)
    requires bs > 0
    ensures (r * bs) / bs == r
  {
    ModuloUnique(r * bs, bs, r, 0);
  }

  lemma WrapDistance(i: int, t: int, bs: nat, m: nat)
    requires bs > 0 && m > 0 && bs * m == WORD64
    ensures Wrap(Wrap(i * bs) - Wrap(t * bs)) / bs == (i - t) % m
  {
    WrapDifference(i * bs, t * bs);
    assert i * bs - t * bs == (i - t) * bs;
    WrapMultiple(i - t, bs, m);
    DivExact((i - t) % m, bs);
  }

  /** Block numbers i and t, tail slot `tail`: the true distance reduced to the circle. */
  lemma SlotValue(b: nat, c: nat, i: int, t: int, tail: nat)
    requires b <= 64 && c <= 64
    ensures var m := Pow2(64 - b);
            Slot(Wrap(i * Pow2(b)), Wrap(t * Pow2(b)), tail, Pow2(b), Pow2(c)) == (tail + (i - t) % m) % Pow2(c)
  {
    WordSplits(b, 64);
    WordSplits(c, 64);
    var m := Pow2(64 - b);
    WrapDistance(i, t, Pow2(b), m);
    var x := tail + (i - t) % m;
    MaskIsModulo(Wrap(x), c);
    ModOfMod(x, Pow2(c), Pow2(64 - c));
  }

  lemma WordSplits(b: nat, bits: nat)
    requires b <= bits == 64
    ensures Pow2(b) * Pow2(bits - b) == WORD64
  {
    Pow2Add(b, bits - b);
    Word64IsPow2(bits);
  }

  lemma WrapMultiple(d: int, bs: nat, m: nat)
    requires bs > 0 && m > 0 && bs * m == WORD64
    ensures Wrap(d * bs) == (d % m) * bs
  {
    var q, r := d / m, d % m;
    assert d == q * m + r;
    assert d * bs == q * WORD64 + r * bs by {
      assert (q * m + r) * bs == q * (bs * m) + r * bs;
    }
    assert 0 <= r * bs < WORD64 by {
      assert (m - r) * bs > 0;
      assert m * bs == WORD64;
    }
    ModuloUnique(d * bs, WORD64, q, r * bs);
  }

  lemma ModOfMod(x: int, cap: nat, k: nat)
    requires cap > 0 && k > 0 && cap * k == WORD64
    ensures Wrap(x) % cap == x % cap
  {
    var q := x / WORD64;
    var y := Wrap(x);
    assert x == q * WORD64 + y;
    var q', r := y / cap, y % cap;
    assert q * WORD64 == (q * k) * cap;
    assert x == (q * k + q') * cap + r;
    ModuloUnique(x, cap, q * k + q', r);
  }

  /** With capacity * BLOCK_SIZE <= 2^64 every block, behind or ahead of the tail, gets its slot. */
  lemma SlotIsRight(b: nat, c: nat, i: int, t: int, tail: nat)
    requires b + c <= 64
    ensures Slot(Wrap(i * Pow2(b)), Wrap(t * Pow2(b)), tail, Pow2(b), Pow2(c)) == (tail + i - t) % Pow2(c)
  {
    SlotValue(b, c, i, t, tail);
    ReduceTwice(b, c, i - t, tail);
  }

  lemma ReduceTwice(b: nat, c: nat, d: int, tail: nat)
    requires b + c <= 64
    ensures (tail + d % Pow2(64 - b)) % Pow2(c) == (tail + d) % Pow2(c)
  {
    var k := 64 - b - c;
    Pow2Add(c, k);
    ModDivisor(d, Pow2(c), Pow2(k), Pow2(64 - b), tail);
  }

  lemma ModDivisor(d: int, cap: nat, k: nat, m: nat, tail: nat)
    requires cap > 0 && m > 0 && m == cap * k
    ensures (tail + d % m) % cap == (tail + d) % cap
  {
    var q := d / m;
    var y := tail + d % m;
    assert tail + d == y + q * m;
    assert q * m == (q * k) * cap;
    ModuloUnique(tail + d, cap, y / cap + q * k, y % cap);
  }

  /** With a larger product the block just behind the tail gets a wrong slot. */
  lemma SlotIsWrong(b: nat, c: nat, i: int, t: int, tail: nat)
    requires b <= 64 && c <= 64 && b + c > 64 && i - t == -1
    ensures Slot(Wrap(i * Pow2(b)), Wrap(t * Pow2(b)), tail, Pow2(b), Pow2(c)) != (tail + i - t) % Pow2(c)
  {
    var m, cap := Pow2(64 - b), Pow2(c);
    assert (tail + (i - t) % m) % cap != (tail + i - t) % cap by { BehindDiffers(b, c, i - t, tail); }
    calc {
      Slot(Wrap(i * Pow2(b)), Wrap(t * Pow2(b)), tail, Pow2(b), Pow2(c));
      { SlotValue(b, c, i, t, tail); }
      (tail + (i - t) % m) % cap;
    }
  }

  lemma BehindDiffers(b: nat, c: nat, d: int, tail: nat)
    requires b <= 64 && b + c > 64 && d == -1
    ensures (tail + d % Pow2(64 - b)) % Pow2(c) != (tail + d) % Pow2(c)
  {
    var m, cap := Pow2(64 - b), Pow2(c);
    Pow2Less(64 - b, c);
    ModuloUnique(d, m, -1, m - 1);
    ModDistinct(tail + d, tail + d + m, cap);
  }

  lemma Pow2Less(a: nat, b: nat)
    requires a < b
    ensures Pow2(a) < Pow2(b)
  {
    Pow2Mono(a + 1, b);
  }

  /** Every capacity and block size: the slots are right for all blocks iff the product fits. */
  lemma SlotsRightIff(b: nat, c: nat)
    requires b <= 64 && c <= 64
    ensures (forall i: int, t: int, tail: nat
               {:trigger Slot(Wrap(i * Pow2(b)), Wrap(t * Pow2(b)), tail, Pow2(b), Pow2(c))} ::
               Slot(Wrap(i * Pow2(b)), Wrap(t * Pow2(b)), tail, Pow2(b), Pow2(c)) == (tail + i - t) % Pow2(c))
            <==> b + c <= 64
  {
    if b + c <= 64 {
      forall i: int, t: int, tail: nat
        ensures Slot(Wrap(i * Pow2(b)), Wrap(t * Pow2(b)), tail, Pow2(b), Pow2(c)) == (tail + i - t) % Pow2(c)
      {
        SlotIsRight(b, c, i, t, tail);
      }
    } else {
      SlotIsWrong(b, c, -1, 0, 0);
    }
  }

  // ---------------------------------------------------------------------------
  // Blocks needed by a bulk enqueue
  // ---------------------------------------------------------------------------

  /** x & ~(BLOCK_SIZE - 1) */
  function Base(x: nat, blockSize: nat): nat
    requires blockSize > 0
  {
    x - x % blockSize
  }

  /** The first index of a block at or after s, as a block number. */
  function FirstNewBlock(s: int, blockSize: nat): int
    requires blockSize > 0
  {
    (s - 1) / blockSize + 1
  }

  lemma Floor(x: int, bs: nat)
    requires bs > 0
    ensures (x / bs) * bs <= x < (x / bs) * bs + bs
    ensures x == (x / bs) * bs + x % bs
  {
  }

  lemma BaseOfWrap(x: int, bs: nat, m: nat)
    requires bs > 0 && m > 0 && bs * m == WORD64
    ensures Base(Wrap(x), bs) == Wrap((x / bs) * bs)
  {
    var q, r := x / bs, x % bs;
    Floor(x, bs);
    var base := (q % m) * bs;
    WrapMultiple(q, bs, m);
    assert base + r < WORD64 by { RoomBelow(q % m, m, bs, r); }
    var a := q / m;
    assert x == a * WORD64 + (base + r) by { Regroup(q, m, bs); }
    ModuloUnique(x, WORD64, a, base + r);
    ModuloUnique(base + r, bs, q % m, r);
  }

  lemma RoomBelow(q: nat, m: nat, bs: nat, r: nat)
    requires q < m && r < bs
    ensures q * bs + r < m * bs
  {
    assert (m - 1 - q) * bs >= 0;
    assert (m - 1 - q) * bs == m * bs - bs - q * bs;
  }

  lemma Regroup(q: int, m: nat, bs: nat)
    requires m > 0
    ensures q * bs == (q / m) * (bs * m) + (q % m) * bs
  {
    Floor(q, m);
    var a, c := q / m, q % m;
    assert q * bs == (a * m + c) * bs;
    assert (a * m + c) * bs == a * (bs * m) + c * bs;
  }

  lemma WrapBases(lo: int, hi: int, bs: nat)
    requires 0 <= (hi - lo) * bs < WORD64
    ensures Wrap(Wrap(hi * bs) - Wrap(lo * bs)) == (hi - lo) * bs
  {
    WrapDifference(hi * bs, lo * bs);
    assert hi * bs - lo * bs == (hi - lo) * bs;
  }

  /**
   The `blockBaseDiff` of enqueue_bulk (2552) is BLOCK_SIZE times the number of blocks that start
   within the new indices [s, s + count), also when s is 0 and s - 1 wraps around.
   */
  lemma BlockBaseDiff(s: int, count: nat, bs: nat, m: nat)
    requires 0 < bs <= HALF64 && m > 0 && bs * m == WORD64 && count < HALF64
    ensures var blocks := FirstNewBlock(s + count, bs) - FirstNewBlock(s, bs);
            && 0 <= blocks
            && Wrap(Base(Wrap(s + count - 1), bs) - Base(Wrap(s - 1), bs)) == blocks * bs
  {
    var x := s - 1;
    DivGrows(x, count, bs);
    BaseOfWrap(x + count, bs, m);
    BaseOfWrap(x, bs, m);
    WrapBases(x / bs, (x + count) / bs, bs);
    assert x + count == s + count - 1;
  }

  lemma Distribute(a: int, b: int, bs: int)
    ensures (a - b) * bs == a * bs - b * bs
  {
  }

  lemma Product(a: int, bs: int)
    requires bs >= 0
    ensures a >= 0 ==> a * bs >= 0
    ensures a < 0 ==> a * bs <= -bs
  {
    if a < 0 {
      var n := -1 - a;
      assert n * bs >= 0;
      Distribute(-1, n, bs);
    }
  }

  lemma DivGrows(x: int, count: nat, bs: nat)
    requires 0 < bs <= HALF64 && count < HALF64
    ensures 0 <= ((x + count) / bs - x / bs) * bs < WORD64
    ensures x / bs <= (x + count) / bs
  {
    var q, q' := x / bs, (x + count) / bs;
    Floor(x, bs);
    Floor(x + count, bs);
    Distribute(q', q, bs);
    Product(q' - q, bs);
  }
}
