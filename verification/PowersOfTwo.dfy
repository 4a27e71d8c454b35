/**
 Rounding up to a power of two and masking, as both queues do it (readerwriterqueue.h `ceilToPow2`,
 `sizeMask`; concurrentqueue.h `ceil_to_pow_2`). Words are naturals below 2^64; the bit operators
 are defined bit by bit.
 */
module PowersOfTwo {
  import opened Basics
  import opened Modular

  const WORD64: nat := 0x1_0000_0000_0000_0000
  const HALF64: nat := 0x8000_0000_0000_0000

  function Pow2(k: nat): (r: nat)
    ensures r > 0
  {
    if k == 0 then 1 else 2 * Pow2(k - 1)
  }

  ghost predicate IsPow2(n: nat) { exists k: nat :: n == Pow2(k) }

  /** x >> k */
  function Shr(x: nat, k: nat): nat {
    if k == 0 then x else Shr(x / 2, k - 1)
  }

  /** x | y */
  function BitOr(x: nat, y: nat): nat {
    if x == 0 then y
    else if y == 0 then x
    else 2 * BitOr(x / 2, y / 2) + (if x % 2 == 1 || y % 2 == 1 then 1 else 0)
  }

  /** x & y */
  function BitAnd(x: nat, y: nat): nat {
    if x == 0 || y == 0 then 0
    else 2 * BitAnd(x / 2, y / 2) + (if x % 2 == 1 && y % 2 == 1 then 1 else 0)
  }

  lemma {:induction false} Pow2Mono(a: nat, b: nat)
    requires a <= b
    ensures Pow2(a) <= Pow2(b)
    decreases b
  {
    if a < b { Pow2Mono(a, b - 1); }
  }

  lemma {:induction false} Pow2Add(a: nat, b: nat)
    ensures Pow2(a + b) == Pow2(a) * Pow2(b)
    decreases b
  {
    if b > 0 {
      Pow2Add(a, b - 1);
      assert Pow2(a + b) == 2 * Pow2(a + (b - 1));
    }
  }

  lemma Word64IsPow2(bits: nat)
    requires bits == 64
    ensures WORD64 == Pow2(bits) && HALF64 == Pow2(bits - 1)
  {
    var n := bits / 8;
    assert Pow2(n) == 256;
    Pow2Add(n, n);
    Pow2Add(2 * n, 2 * n);
    Pow2Add(4 * n, 4 * n);
    assert Pow2(bits) == 2 * Pow2(bits - 1);
  }

  lemma {:induction false} ShrShr(x: nat, a: nat, b: nat)
    ensures Shr(Shr(x, a), b) == Shr(x, a + b)
    decreases a
  {
    if a > 0 { ShrShr(x / 2, a - 1, b); }
  }

  lemma {:induction false} ShrOr(x: nat, y: nat, k: nat)
    ensures Shr(BitOr(x, y), k) == BitOr(Shr(x, k), Shr(y, k))
    decreases k
  {
    if k > 0 {
      assert BitOr(x, y) / 2 == BitOr(x / 2, y / 2);
      ShrOr(x / 2, y / 2, k - 1);
    }
  }

  /** All ones, shifted: fewer ones. */
  lemma {:induction false} ShrOnes(w: nat, k: nat)
    requires k <= w
    ensures Shr(Pow2(w) - 1, k) == Pow2(w - k) - 1
    decreases k
  {
    if k > 0 {
      assert (Pow2(w) - 1) / 2 == Pow2(w - 1) - 1;
      ShrOnes(w - 1, k - 1);
    }
  }

  /** Or-ing m ones into a word whose remaining high part is w ones. */
  lemma {:induction false} OrOnes(z: nat, w: nat, m: nat)
    requires Shr(z, m) == Pow2(w) - 1
    ensures BitOr(z, Pow2(m) - 1) == Pow2(w + m) - 1
    decreases m
  {
    if m > 0 {
      OrOnes(z / 2, w, m - 1);
      assert (Pow2(m) - 1) / 2 == Pow2(m - 1) - 1;
      assert (Pow2(m) - 1) % 2 == 1;
      if z == 0 {
        ShrZero(m);
        if w > 0 { Pow2AtLeastTwo(w); }
      }
    }
  }

  lemma {:induction false} ShrZero(k: nat)
    ensures Shr(0, k) == 0
  {
    if k > 0 { ShrZero(k - 1); }
  }

  lemma Pow2AtLeastTwo(w: nat)
    requires w > 0
    ensures Pow2(w) >= 2
  {
    assert Pow2(w) == 2 * Pow2(w - 1);
  }

  // ---------------------------------------------------------------------------
  // Bit smearing
  // ---------------------------------------------------------------------------

  /** x has n bits and its top w bits are ones. */
  predicate TopOnes(x: nat, n: nat, w: nat) {
    w <= n && Shr(x, n - w) == Pow2(w) - 1
  }

  predicate Smeared(x: nat, n: nat, w: nat) {
    if n == 0 then x == 0 else TopOnes(x, n, Min(w, n))
  }

  lemma SmearBy(x: nat, n: nat, w: nat, m: nat)
    requires m <= w && w + m <= n && TopOnes(x, n, w)
    ensures TopOnes(BitOr(x, Shr(x, w)), n, w + m)
  {
    var k := n - w - m;
    assert Shr(x, n - m) == Pow2(m) - 1 by {
      ShrShr(x, n - w, w - m);
      ShrOnes(w, w - m);
    }
    ShrShr(x, w, k);
    ShrShr(x, k, m);
    OrOnes(Shr(x, k), w, m);
    ShrOr(x, Shr(x, w), k);
  }

  /** One line of the smearing: x |= x >> w doubles the run of leading ones. */
  lemma Smear(x: nat, n: nat, w: nat)
    requires n > 0 && w > 0 && TopOnes(x, n, Min(w, n))
    ensures TopOnes(BitOr(x, Shr(x, w)), n, Min(2 * w, n))
  {
    if w < n { SmearBy(x, n, w, Min(w, n - w)); } else { SmearFull(x, n, w); }
  }

  lemma SmearFull(x: nat, n: nat, w: nat)
    requires n <= w && TopOnes(x, n, n)
    ensures TopOnes(BitOr(x, Shr(x, w)), n, n)
  {
    ShrPastTop(n, w);
    OrZero(x, Shr(x, w));
  }

  lemma OrZero(x: nat, y: nat)
    requires y == 0
    ensures BitOr(x, y) == x
  {
  }

  lemma {:induction false} ShrPastTop(n: nat, w: nat)
    requires n <= w
    ensures Shr(Pow2(n) - 1, w) == 0
  {
    ShrOnes(n, n);
    ShrShr(Pow2(n) - 1, n, w - n);
    ShrZero(w - n);
  }

  /** The number of bits of x. */
  function BitLength(x: nat): (n: nat)
    ensures x < Pow2(n) && (n > 0 ==> Pow2(n - 1) <= x)
  {
    if x == 0 then 0 else 1 + BitLength(x / 2)
  }

  lemma {:induction false} LeadingOne(x: nat)
    requires x > 0
    ensures TopOnes(x, BitLength(x), 1)
  {
    if x > 1 {
      LeadingOne(x / 2);
      var n := BitLength(x);
      assert Shr(x, n - 1) == Shr(x / 2, n - 2);
    }
  }

  /** The three lines before the loop. */
  method SmearLow(x: nat, ghost n: nat) returns (y: nat)
    requires Smeared(x, n, 1)
    ensures Smeared(y, n, 8)
  {
    SmearOrZero(x, n, 1);
    y := BitOr(x, Shr(x, 1));
    SmearOrZero(y, n, 2);
    y := BitOr(y, Shr(y, 2));
    SmearOrZero(y, n, 4);
    y := BitOr(y, Shr(y, 4));
  }

  lemma StartSmeared(x: nat)
    ensures Smeared(x, BitLength(x), 1)
  {
    if x > 0 { LeadingOne(x); }
  }

  lemma AllSmeared(x: nat, y: nat, w: nat)
    requires x < WORD64 && w == 64 && Smeared(y, BitLength(x), w)
    ensures y + 1 == Pow2(BitLength(x))
  {
    Word64IsPow2(w);
    LengthBound(x, w);
  }

  /** The loop over the remaining shifts 8, 16 and 32. */
  method SmearHigh(x: nat, ghost n: nat) returns (y: nat)
    requires Smeared(x, n, 8)
    ensures Smeared(y, n, 64)
  {
    y := x;
    var i: nat := 1;
    ghost var w: nat := 8;
    while i < 8
      invariant w == 8 * i && (i == 1 || i == 2 || i == 4 || i == 8)
      invariant Smeared(y, n, w)
    {
      SmearOrZero(y, n, w);
      y := BitOr(y, Shr(y, i * 8));
      i, w := 2 * i, 2 * w;
    }
  }

  /** The smearing lines and loop: every bit below the highest one is set. */
  method SmearAll(x: nat) returns (y: nat)
    requires x < WORD64
    ensures y + 1 == Pow2(BitLength(x))
  {
    StartSmeared(x);
    y := SmearLow(x, BitLength(x));
    y := SmearHigh(y, BitLength(x));
    AllSmeared(x, y, 64);
  }

  lemma LengthOfWord(y: nat, bits: nat)
    requires y < WORD64 && bits == 64
    ensures if y < HALF64 then BitLength(y) < bits else BitLength(y) == bits
  {
    Word64IsPow2(bits);
    LengthBound(y, bits);
    LengthBound(y, bits - 1);
  }

  /** What rounding up leaves in 64 bits: 2^n for n <= 63, and nothing of 2^64. */
  lemma RoundedFits(y: nat, bits: nat)
    requires y < WORD64 && bits == 64
    ensures var p := Pow2(BitLength(y)); if y < HALF64 then p <= HALF64 else p == WORD64
  {
    LengthOfWord(y, bits);
    Word64IsPow2(bits);
    if y < HALF64 { Pow2Mono(BitLength(y), bits - 1); }
  }

  /** `ceilToPow2` and `ceil_to_pow_2` on a 64-bit word. */
  method CeilToPow2(x: nat) returns (r: nat)
    requires x < WORD64
    ensures 1 <= x <= HALF64 ==> x <= r && IsPow2(r) && forall k: nat :: x <= Pow2(k) ==> r <= Pow2(k)
    ensures x == 0 || x > HALF64 ==> r == 0
  {
    var y: nat := if x == 0 then WORD64 - 1 else x - 1;
    LeastPow2(y, BitLength(y));
    RoundedFits(y, 64);
    y := SmearAll(y);
    r := (y + 1) % WORD64;
  }

  lemma SmearOrZero(y: nat, n: nat, w: nat)
    requires w > 0 && Smeared(y, n, w)
    ensures Smeared(BitOr(y, Shr(y, w)), n, 2 * w)
  {
    if n == 0 { ShrZero(w); } else { Smear(y, n, w); }
  }

  /** y fits in k bits exactly when it is below 2^k. */
  lemma {:induction false} LengthBound(y: nat, k: nat)
    ensures BitLength(y) <= k <==> y < Pow2(k)
  {
    if k > 0 && y > 0 { LengthBound(y / 2, k - 1); }
  }

  /** 2^n is the least power of two above y when y has n bits. */
  lemma LeastPow2(y: nat, n: nat)
    requires n == BitLength(y)
    ensures y + 1 <= Pow2(n) && forall k: nat :: y + 1 <= Pow2(k) ==> Pow2(n) <= Pow2(k)
  {
    forall k: nat | y + 1 <= Pow2(k) ensures Pow2(n) <= Pow2(k) {
      if k < n { Pow2Mono(k, n - 1); } else { Pow2Mono(n, k); }
    }
  }

  // ---------------------------------------------------------------------------
  // Masking
  // ---------------------------------------------------------------------------

  lemma MaskStep(x: nat, p: nat)
    requires p > 0
    ensures BitAnd(x, 2 * p - 1) == 2 * BitAnd(x / 2, p - 1) + x % 2
  {
    assert (2 * p - 1) / 2 == p - 1 && (2 * p - 1) % 2 == 1;
  }

  /** x & (2^k - 1) is reduction modulo 2^k: what `& sizeMask` and `& (capacity - 1)` mean. */
  lemma {:induction false} MaskIsModulo(x: nat, k: nat)
    ensures BitAnd(x, Pow2(k) - 1) == x % Pow2(k)
    decreases k
  {
    if k > 0 {
      var p := Pow2(k - 1);
      MaskIsModulo(x / 2, k - 1);
      calc {
        BitAnd(x, Pow2(k) - 1);
        { MaskStep(x, p); }
        2 * BitAnd(x / 2, p - 1) + x % 2;
        2 * ((x / 2) % p) + x % 2;
        { HalfModulo(x, p); }
        x % (2 * p);
      }
    } else {
      assert x % 1 == 0;
    }
  }

  lemma HalfModulo(x: nat, p: nat)
    requires p > 0
    ensures x % (2 * p) == 2 * ((x / 2) % p) + x % 2
  {
    var h := x / 2;
    var q, m := h / p, h % p;
    assert h == q * p + m;
    assert x == q * (2 * p) + (2 * m + x % 2) by {
      assert q * (2 * p) == 2 * (q * p);
    }
    ModuloUnique(x, 2 * p, q, 2 * m + x % 2);
  }
}
