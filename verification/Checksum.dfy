/**
 The Internet checksum four ways: the folded 64-bit IPv4 pseudo-header sum, the generic 16-bit loop,
 the IPv6 pseudo-header sum (src/util.c) and Lua's `checksum` (lua/utils.lua). Loads are
 little-endian, as on the machines the code is for; unsigned wrap-around and the sign extension of
 the promoted protocol byte are written out.

 Reference: the one's complement sum of section 1 of RFC 1071, over big-endian words.
 */
module Checksum {
  import opened LittleEndian
  import opened Modular

  type Word = x: int | 0 <= x < 0x1_0000

  const IPV4_HDR: nat := 20

  // ---------------------------------------------------------------------------
  // Reference
  // ---------------------------------------------------------------------------

  /** The sum of the 16-bit words, low byte first; an odd last byte counts as if a zero followed. */
  function LittleSum(b: seq<Byte>): nat {
    if |b| == 0 then 0
    else if |b| == 1 then b[0]
    else b[0] + 0x100 * b[1] + LittleSum(b[2..])
  }

  /** The same with the high byte first, which is network order. */
  function NetworkSum(b: seq<Byte>): nat {
    if |b| == 0 then 0
    else if |b| == 1 then 0x100 * b[0]
    else 0x100 * b[0] + b[1] + NetworkSum(b[2..])
  }

  /** One's complement reduction to 16 bits, end-around carries included: 0 only for 0. */
  function Fold(total: nat): Word {
    if total == 0 then 0 else (total - 1) % 0xFFFF + 1
  }

  /** The same to 32 bits. */
  function Fold32(total: nat): nat {
    if total == 0 then 0 else (total - 1) % 0xFFFF_FFFF + 1
  }

  function Swap16(w: Word): Word { w % 0x100 * 0x100 + w / 0x100 }

  predicate Congruent(x: int, y: int) { (x - y) % 0xFFFF == 0 }

  /** Fold is the one value that is congruent to the total, within 16 bits, and zero just when it is. */
  lemma FoldIsUnique(total: nat, r: nat)
    ensures r == Fold(total) <==> r <= 0xFFFF && Congruent(total, r) && (r == 0 <==> total == 0)
  {
    if total > 0 {
      var q := (total - 1) / 0xFFFF;
      assert total - Fold(total) == q * 0xFFFF;
    }
  }

  /** A sum of two, brought down by one end-around carry. */
  lemma FoldAdd(total: nat, r: nat, w: nat)
    requires r == Fold(total) && w <= 0xFFFF
    ensures Fold(total + w) == if r + w > 0xFFFF then r + w - 0xFFFF else r + w
  {
    FoldIsUnique(total, r);
    FoldIsUnique(total + w, if r + w > 0xFFFF then r + w - 0xFFFF else r + w);
  }

  lemma {:induction false} LittleSumSplit(a: seq<Byte>, b: seq<Byte>)
    requires |a| % 2 == 0
    ensures LittleSum(a + b) == LittleSum(a) + LittleSum(b)
    decreases |a|
  {
    if a == [] { assert a + b == b; }
    else {
      LittleSumSplit(a[2..], b);
      assert (a + b)[2..] == a[2..] + b;
    }
  }

  // ---------------------------------------------------------------------------
  // The loops
  // ---------------------------------------------------------------------------

  function LoadWord(b: seq<Byte>, i: nat): Word
    requires 2 * i + 1 < |b|
  {
    b[2 * i] as int + 0x100 * (b[2 * i + 1] as int)
  }

  lemma NextWord(b: seq<Byte>, i: nat)
    requires 2 * i + 1 < |b|
    ensures LittleSum(b[..2 * i + 2]) == LittleSum(b[..2 * i]) + LoadWord(b, i)
  {
    var w := b[2 * i..2 * i + 2];
    LittleSumSplit(b[..2 * i], w);
    assert b[..2 * i + 2] == b[..2 * i] + w;
    assert w[2..] == [];
  }

  lemma LastByte(b: seq<Byte>, i: nat)
    requires 2 * i < |b|
    ensures LittleSum(b[..2 * i + 1]) == LittleSum(b[..2 * i]) + b[2 * i]
  {
    LittleSumSplit(b[..2 * i], [b[2 * i]]);
    assert b[..2 * i + 1] == b[..2 * i] + [b[2 * i]];
  }

  lemma FoldOnce(sum: nat)
    requires sum < 0x1_FFFF
    ensures (sum / 0x1_0000 + sum % 0x1_0000) % 0x1_0000 == if sum > 0xFFFF then sum - 0xFFFF else sum
  {
  }

  /** get_16b_sum; nr is a count of bytes. */
  method Get16bSum(buf: seq<Byte>, length: nat) returns (r: Word)
    requires length <= |buf|
    ensures r == Fold(LittleSum(buf[..length]))
  {
    var sum: int, nr: nat, ptr16: nat := 0, length, 0;
    while nr > 1
      invariant nr == length - 2 * ptr16 && 0 <= sum <= 0xFFFF
      invariant sum == Fold(LittleSum(buf[..2 * ptr16]))
    {
      NextWord(buf, ptr16);
      FoldAdd(LittleSum(buf[..2 * ptr16]), sum, LoadWord(buf, ptr16));
      sum := sum + LoadWord(buf, ptr16);
      nr := nr - 2;
      ptr16 := ptr16 + 1;
      if sum > 0xFFFF { sum := sum - 0xFFFF; }
    }
    if nr != 0 {
      LastByte(buf, ptr16);
      FoldAdd(LittleSum(buf[..2 * ptr16]), sum, buf[2 * ptr16]);
      sum := sum + buf[2 * ptr16];
    }
    FoldOnce(sum);
    sum := sum / 0x1_0000 + sum % 0x1_0000;
    r := sum % 0x1_0000;
  }

  lemma LowByte(b: seq<Byte>, i: nat)
    requires 2 * i + 1 < |b|
    ensures LoadWord(b, i) % 0x100 == b[2 * i]
  {
  }

  lemma EndAround(cs: int)
    requires 0x1_0000 <= cs < 0x2_0000
    ensures cs % 0x1_0000 + 1 == cs - 0xFFFF
  {
  }

  /** Lua's checksum; the buffer is of even size, so that the word with the last odd byte can be read. */
  method LuaChecksum(data: seq<Byte>, len: nat) returns (r: Word)
    requires len <= |data| && (len % 2 == 1 ==> len < |data|)
    ensures r == 0xFFFF - Fold(LittleSum(data[..len]))
  {
    var cs: int := 0;
    var i: nat := 0;
    while i < len / 2
      invariant i <= len / 2 && 0 <= cs <= 0xFFFF
      invariant cs == Fold(LittleSum(data[..2 * i]))
    {
      NextWord(data, i);
      FoldAdd(LittleSum(data[..2 * i]), cs, LoadWord(data, i));
      cs := cs + LoadWord(data, i);
      if cs >= 0x1_0000 {
        EndAround(cs);
        cs := cs % 0x1_0000 + 1;
      }
      i := i + 1;
    }
    if len % 2 == 1 {
      LastByte(data, i);
      FoldAdd(LittleSum(data[..2 * i]), cs, data[2 * i]);
      LowByte(data, i);
      cs := cs + LoadWord(data, i) % 0x100;
      if cs >= 0x1_0000 {
        EndAround(cs);
        cs := cs % 0x1_0000 + 1;
      }
    }
    r := 0xFFFF - cs;
  }

  // ---------------------------------------------------------------------------
  // The IPv4 pseudo header
  // ---------------------------------------------------------------------------

  /** The header's total length, which is in network order. */
  function TotalLength(hdr: seq<Byte>): nat
    requires |hdr| >= IPV4_HDR
  {
    0x100 * (hdr[2] as int) + hdr[3] as int
  }

  /** Source, destination, zero, protocol and the length of the segment (section 3.1 of RFC 9293). */
  function PseudoHeader4(hdr: seq<Byte>): seq<Byte>
    requires |hdr| >= IPV4_HDR && TotalLength(hdr) >= IPV4_HDR
  {
    var length := TotalLength(hdr) - IPV4_HDR;
    hdr[12..20] + [0, hdr[9], length / 0x100, length % 0x100]
  }

  /** The three addends as 32-bit words. */
  function Addends(hdr: seq<Byte>): nat
    requires |hdr| >= IPV4_HDR && TotalLength(hdr) >= IPV4_HDR
  {
    Load32(hdr, 12) + Load32(hdr, 16) + (0x100_0000 * hdr[9] + Swap16(TotalLength(hdr) - IPV4_HDR))
  }

  /** (uint64_t) of the int that the shifted protocol byte and the length make: negative ones are extended. */
  function Extended(proto: Byte, len: Word): nat {
    0x100_0000 * proto + len + if proto < 0x80 then 0 else 0x1_0000_0000_0000_0000 - 0x1_0000_0000
  }

  /** A 64-bit sum to 32 bits and then to 16, with an end-around carry each (43-51). */
  method FoldDown(sum: nat) returns (r: Word)
    requires sum < 0x1_0000_0000_0000_0000
    ensures r == Fold(sum)
  {
    var lower, upper := sum % 0x1_0000_0000, sum / 0x1_0000_0000;
    ghost var l := lower;
    lower := (lower + upper) % 0x1_0000_0000;
    if lower < upper { lower := (lower + 1) % 0x1_0000_0000; }
    Carry32(sum);
    AddCarry(l, upper, 0x1_0000_0000);
    FoldTwice(sum);
    var lower16, upper16 := lower % 0x1_0000, lower / 0x1_0000;
    l := lower16;
    lower16 := (lower16 + upper16) % 0x1_0000;
    if lower16 < upper16 { lower16 := (lower16 + 1) % 0x1_0000; }
    Carry16(lower);
    AddCarry(l, upper16, 0x1_0000);
    r := lower16;
  }

  /** Adding with wrap-around, and one more if the result is smaller than an addend. */
  lemma AddCarry(l: nat, u: nat, word: nat)
    requires l < word && u < word
    ensures (l + u) % word == if l + u >= word then l + u - word else l + u
    ensures (l + u) % word < u ==> ((l + u) % word + 1) % word == (l + u) % word + 1
    ensures (l + u) % word < u <==> l + u >= word
  {
    if l + u >= word { ModuloUnique(l + u, word, 1, l + u - word); } else { ModuloUnique(l + u, word, 0, l + u); }
    if (l + u) % word < u { ModuloUnique((l + u) % word + 1, word, 0, (l + u) % word + 1); }
  }

  /** The larger of the halves' sum and its carry, in 32 bits. */
  lemma Carry32(sum: nat)
    requires sum < 0x1_0000_0000_0000_0000
    ensures var l, u := sum % 0x1_0000_0000, sum / 0x1_0000_0000;
            Fold32(sum) == if l + u >= 0x1_0000_0000 then l + u - 0xFFFF_FFFF else l + u
  {
    var l, u := sum % 0x1_0000_0000, sum / 0x1_0000_0000;
    var r := if l + u >= 0x1_0000_0000 then l + u - 0xFFFF_FFFF else l + u;
    var q := if l + u >= 0x1_0000_0000 then u + 1 else u;
    assert sum == q * 0xFFFF_FFFF + r;
    if sum > 0 { ModuloUnique(sum - 1, 0xFFFF_FFFF, q, r - 1); }
  }

  lemma Carry16(lower: nat)
    requires lower < 0x1_0000_0000
    ensures var l, u := lower % 0x1_0000, lower / 0x1_0000;
            Fold(lower) == if l + u >= 0x1_0000 then l + u - 0xFFFF else l + u
  {
    var l, u := lower % 0x1_0000, lower / 0x1_0000;
    var r := if l + u >= 0x1_0000 then l + u - 0xFFFF else l + u;
    assert lower == (if l + u >= 0x1_0000 then u + 1 else u) * 0xFFFF + r;
    FoldIsUnique(lower, r);
  }

  /** 2^32 - 1 is a multiple of 2^16 - 1. */
  lemma FoldTwice(sum: nat)
    ensures Fold(Fold32(sum)) == Fold(sum)
  {
    if sum > 0 {
      var q, r := (sum - 1) / 0xFFFF_FFFF, Fold32(sum);
      assert sum == q * 0xFFFF_FFFF + r;
      var k := q * 0x1_0001;
      assert sum - r == k * 0xFFFF;
      FoldIsUnique(r, Fold(r));
      assert (sum - Fold(r)) == (k + (r - Fold(r)) / 0xFFFF) * 0xFFFF;
      FoldIsUnique(sum, Fold(r));
    }
  }

  /** The 64-bit sum of addresses, protocol and length (42). */
  function Sum64(hdr: seq<Byte>, len: Word): nat
    requires |hdr| >= IPV4_HDR
  {
    (Load32(hdr, 12) + Load32(hdr, 16) + Extended(hdr[9], len)) % 0x1_0000_0000_0000_0000
  }

  /** Both ways of taking the header's length off a length in network order. */
  lemma ShortenedLength(len: Word)
    requires Swap16(len) >= IPV4_HDR
    ensures (Swap16(len) - IPV4_HDR) % 0x1_0000 == Swap16(len) - IPV4_HDR
    ensures len % 0x100 == 0 ==> (len / 0x100 - IPV4_HDR) * 0x100 % 0x1_0000 == Swap16(Swap16(len) - IPV4_HDR)
  {
    if len % 0x100 == 0 {
      var n := Swap16(len) - IPV4_HDR;
      assert n == len / 0x100 - IPV4_HDR && n < 0x100;
      assert Swap16(n) == n * 0x100;
    }
  }

  /**
   get_ipv4_psd_sum. Its result is the generic sum over the 12-byte pseudo header just when the
   protocol is below 128 (as those of TCP and UDP are), or the addends do not exceed 32 bits.
   */
  method GetIpv4PsdSum(hdr: seq<Byte>) returns (r: Word)
    requires |hdr| >= IPV4_HDR
    ensures TotalLength(hdr) >= IPV4_HDR ==> r == Fold(Sum64(hdr, Swap16(TotalLength(hdr) - IPV4_HDR)))
    ensures TotalLength(hdr) >= IPV4_HDR ==> (r == Fold(LittleSum(PseudoHeader4(hdr))) <==> NoSignHarm(hdr))
  {
    var len: Word := LoadWord(hdr, 1);
    assert Swap16(len) == TotalLength(hdr);
    if TotalLength(hdr) >= IPV4_HDR { ShortenedLength(len); }
    if len % 0x100 != 0 {
      len := Swap16((Swap16(len) - IPV4_HDR) % 0x1_0000);
    } else {
      len := (len / 0x100 - IPV4_HDR) * 0x100 % 0x1_0000;
    }
    r := FoldDown(Sum64(hdr, len));
    if TotalLength(hdr) >= IPV4_HDR { Ipv4SumExact(hdr); }
  }

  lemma FirstWord(p: seq<Byte>)
    requires |p| >= 2
    ensures LittleSum(p) == LoadWord(p, 0) + LittleSum(p[2..])
  {
  }

  /** A 32-bit load is the sum of its words, up to a multiple of 0xFFFF. */
  lemma Load32Is(b: seq<Byte>, at: nat)
    requires at + 3 < |b|
    ensures Load32(b, at) == LittleSum(b[at..at + 4]) + 0xFFFF * (b[at + 2] as int + 0x100 * (b[at + 3] as int))
  {
    LoadIs(b, at);
    FourBytes(b[at..at + 4]);
  }

  lemma LengthWords(proto: Byte, n: Word)
    ensures LittleSum([0, proto, n / 0x100, n % 0x100]) == 0x100 * (proto as int) + Swap16(n)
  {
    FourBytes([0, proto, n / 0x100, n % 0x100]);
  }

  /** The pseudo header's words, and the addends, are the same up to multiples of 0xFFFF. */
  lemma PseudoHeader4Sum(hdr: seq<Byte>)
    requires |hdr| >= IPV4_HDR && TotalLength(hdr) >= IPV4_HDR
    ensures Fold(LittleSum(PseudoHeader4(hdr))) == Fold(Addends(hdr))
  {
    var n := TotalLength(hdr) - IPV4_HDR;
    var a, b, c := hdr[12..16], hdr[16..20], [0, hdr[9], n / 0x100, n % 0x100];
    assert PseudoHeader4(hdr) == a + (b + c);
    LittleSumSplit(a, b + c);
    LittleSumSplit(b, c);
    Load32Is(hdr, 12);
    Load32Is(hdr, 16);
    LengthWords(hdr[9], n);
    var i, j := hdr[14] as int + 0x100 * (hdr[15] as int), hdr[18] as int + 0x100 * (hdr[19] as int);
    var k := 0x100 * (hdr[9] as int);
    AddUp(Addends(hdr), LittleSum(a), LittleSum(b), LittleSum(c), i, j, k);
  }

  lemma AddUp(total: nat, a: nat, b: nat, c: nat, i: nat, j: nat, k: nat)
    requires total == (a + 0xFFFF * i) + (b + 0xFFFF * j) + (c + 0xFFFF * k)
    requires a + b + c == 0 ==> i + j + k == 0
    ensures Fold(a + (b + c)) == Fold(total)
  {
    FoldShift(a + b + c, i + j + k);
  }

  lemma FourBytes(p: seq<Byte>)
    requires |p| == 4
    ensures LittleSum(p) == p[0] as int + 0x100 * (p[1] as int) + (p[2] as int) + 0x100 * (p[3] as int)
  {
    FirstWord(p);
    FirstWord(p[2..]);
    assert p[2..][2..] == [];
  }

  lemma FoldShift(total: nat, k: nat)
    requires total == 0 ==> k == 0
    ensures Fold(total + k * 0xFFFF) == Fold(total)
  {
    FoldIsUnique(total, Fold(total));
    assert total + k * 0xFFFF - Fold(total) == ((total - Fold(total)) / 0xFFFF + k) * 0xFFFF;
    FoldIsUnique(total + k * 0xFFFF, Fold(total));
  }

  /** Whether the sign extension of the protocol byte does no harm. */
  predicate NoSignHarm(hdr: seq<Byte>)
    requires |hdr| >= IPV4_HDR && TotalLength(hdr) >= IPV4_HDR
  {
    hdr[9] < 0x80 || Addends(hdr) < 0x1_0000_0000
  }

  lemma Ipv4SumExact(hdr: seq<Byte>)
    requires |hdr| >= IPV4_HDR && TotalLength(hdr) >= IPV4_HDR
    ensures Fold(Sum64(hdr, Swap16(TotalLength(hdr) - IPV4_HDR))) == Fold(LittleSum(PseudoHeader4(hdr)))
            <==> NoSignHarm(hdr)
  {
    PseudoHeader4Sum(hdr);
    Sum64Is(hdr);
    if hdr[9] >= 0x80 { SignHarms(Addends(hdr)); }
  }

  /** An SCTP header (protocol 132) for which the folded sum is not the pseudo header's. */
  lemma SctpSumDiffers()
    ensures var hdr: seq<Byte> := [0x45, 0, 0, 40, 0, 0, 0, 0, 64, 132, 0, 0, 192, 168, 0, 129, 192, 168, 0, 130];
            TotalLength(hdr) == 40 &&
            Fold(Sum64(hdr, Swap16(TotalLength(hdr) - IPV4_HDR))) != Fold(LittleSum(PseudoHeader4(hdr)))
  {
    SctpHarms([0x45, 0, 0, 40, 0, 0, 0, 0, 64, 132, 0, 0, 192, 168, 0, 129, 192, 168, 0, 130]);
  }

  lemma SctpHarms(hdr: seq<Byte>)
    requires |hdr| == IPV4_HDR && TotalLength(hdr) == 40 && hdr[9] == 132 && hdr[15] >= 0x80 && hdr[19] >= 0x80
    ensures Fold(Sum64(hdr, Swap16(TotalLength(hdr) - IPV4_HDR))) != Fold(LittleSum(PseudoHeader4(hdr)))
  {
    Ipv4SumExact(hdr);
    LoadIs(hdr, 12);
    LoadIs(hdr, 16);
    assert Load32(hdr, 12) >= 0x8000_0000 && Load32(hdr, 16) >= 0x8000_0000;
  }

  lemma Sum64Is(hdr: seq<Byte>)
    requires |hdr| >= IPV4_HDR && TotalLength(hdr) >= IPV4_HDR
    ensures var a, sum := Addends(hdr), Sum64(hdr, Swap16(TotalLength(hdr) - IPV4_HDR));
            && a < 3 * 0x1_0000_0000
            && (hdr[9] < 0x80 ==> sum == a)
            && (hdr[9] >= 0x80 ==>
                  a > 0 && sum == (a + (0x1_0000_0000_0000_0000 - 0x1_0000_0000)) % 0x1_0000_0000_0000_0000)
  {
    assert Load32(hdr, 12) < 0x1_0000_0000 && Load32(hdr, 16) < 0x1_0000_0000;
  }

  /** Adding 2^64 - 2^32 modulo 2^64 is adding nothing below 2^32, and taking one away above. */
  lemma SignHarms(a: nat)
    requires 0 < a < 3 * 0x1_0000_0000
    ensures Fold((a + (0x1_0000_0000_0000_0000 - 0x1_0000_0000)) % 0x1_0000_0000_0000_0000) == Fold(a)
            <==> a < 0x1_0000_0000
  {
    if a < 0x1_0000_0000 {
      assert a + (0x1_0000_0000_0000_0000 - 0x1_0000_0000) == a + 0x1_0000_0000 * 0x1_0001 * 0xFFFF;
      FoldShift(a, 0x1_0000_0000 * 0x1_0001);
    } else {
      FoldIsUnique(a, Fold(a));
      FoldIsUnique(a - 0x1_0000_0000, Fold(a - 0x1_0000_0000));
    }
  }

  // ---------------------------------------------------------------------------
  // The IPv6 pseudo header
  // ---------------------------------------------------------------------------

  const IPV6_HDR: nat := 40

  /** Addresses, 32-bit length, three zeros and the protocol, all in network order (section 8.1 of RFC 8200). */
  function PseudoHeader6(hdr: seq<Byte>): seq<Byte>
    requires |hdr| >= IPV6_HDR
  {
    hdr[8..40] + [0, 0, hdr[4], hdr[5]] + [0, 0, 0, hdr[6]]
  }

  /** get_ipv6_psd_sum: the length, a 16-bit load stored as a 32-bit word, ends up in the other half of it. */
  method GetIpv6PsdSum(hdr: seq<Byte>) returns (r: Word)
    requires |hdr| >= IPV6_HDR
    ensures r == Fold(LittleSum(PseudoHeader6(hdr)))
  {
    var psd := new Byte[40](_ => 0);
    CopyBytes(psd, 0, hdr[8..40], 32);
    var length, proto := [hdr[4], hdr[5], 0, 0], [0, 0, 0, hdr[6]];
    HalfWord(hdr[4], hdr[5]);
    HighByte(hdr[6]);
    Store32(psd, 32, LoadWord(hdr, 2));
    assert psd[..36] == hdr[8..40] + length;
    Store32(psd, 36, (hdr[6] as int) * 0x100_0000);
    assert psd[..] == hdr[8..40] + length + proto;
    r := Get16bSum(psd[..], 40);
    assert psd[..][..40] == psd[..];
    WordsMayMove(hdr[8..40], length, [0, 0, hdr[4], hdr[5]], proto);
  }

  lemma HalfWord(lo: Byte, hi: Byte)
    ensures Bytes32(lo as int + 0x100 * (hi as int)) == [lo, hi, 0, 0]
  {
    BytesCons(lo, hi as int, 4);
    BytesCons(hi, 0, 3);
    BytesCons(0, 0, 2);
    BytesCons(0, 0, 1);
  }

  lemma HighByte(b: Byte)
    ensures Bytes32((b as int) * 0x100_0000) == [0, 0, 0, b]
  {
    BytesCons(0, (b as int) * 0x1_0000, 4);
    BytesCons(0, (b as int) * 0x100, 3);
    BytesCons(0, b as int, 2);
    BytesCons(b, 0, 1);
  }

  /** Exchanging the words of a 32-bit field does not change the sum. */
  lemma WordsMayMove(a: seq<Byte>, x: seq<Byte>, y: seq<Byte>, b: seq<Byte>)
    requires |a| % 2 == 0 && |x| == 4 && |y| == 4 && y == x[2..] + x[..2]
    ensures LittleSum(a + x + b) == LittleSum(a + y + b)
  {
    LittleSumSplit(a + x, b);
    LittleSumSplit(a + y, b);
    LittleSumSplit(a, x);
    LittleSumSplit(a, y);
    FourBytes(x);
    FourBytes(y);
  }

  // ---------------------------------------------------------------------------
  // RFC 1071
  // ---------------------------------------------------------------------------

  /** The sum of the bytes at odd offsets. */
  function OddBytes(b: seq<Byte>): nat {
    if |b| < 2 then 0 else b[1] as int + OddBytes(b[2..])
  }

  /** The sum in network order is 256 times the other, up to a multiple of 0xFFFF. */
  lemma {:induction false} NetworkSumIs(b: seq<Byte>)
    ensures 0x100 * LittleSum(b) == NetworkSum(b) + 0xFFFF * OddBytes(b)
    ensures NetworkSum(b) == 0 <==> LittleSum(b) == 0
    decreases |b|
  {
    if |b| >= 2 { NetworkSumIs(b[2..]); }
  }

  lemma SwapIs(r: Word)
    ensures 0x100 * r == Swap16(r) + 0xFFFF * (r / 0x100) && (Swap16(r) == 0 <==> r == 0)
  {
  }

  lemma FoldFrom(total: nat, r: nat, q: int)
    requires total == q * 0xFFFF + r && r <= 0xFFFF && (r == 0 <==> total == 0)
    ensures r == Fold(total)
  {
    FoldIsUnique(total, r);
  }

  /** Byte order independence (section 2 (B) of RFC 1071): swapping the bytes of one sum gives the other. */
  lemma ByteOrderIndependent(b: seq<Byte>)
    ensures Swap16(Fold(LittleSum(b))) == Fold(NetworkSum(b))
  {
    var l, n := LittleSum(b), NetworkSum(b);
    NetworkSumIs(b);
    if l > 0 {
      var q, r := (l - 1) / 0xFFFF, Fold(l);
      SwapIs(r);
      SwapCarries(l, n, q, r, OddBytes(b));
    }
  }

  lemma SwapCarries(l: nat, n: nat, q: nat, r: Word, odd: nat)
    requires l == q * 0xFFFF + r && 0x100 * l == n + 0xFFFF * odd && n > 0
    requires 0x100 * r == Swap16(r) + 0xFFFF * (r / 0x100) && Swap16(r) > 0
    ensures Swap16(r) == Fold(n)
  {
    FoldFrom(n, Swap16(r), 0x100 * q - odd + r / 0x100);
  }

  /** The two bytes at an even offset, low byte first. */
  function WithWord(b: seq<Byte>, at: nat, w: Word): seq<Byte>
    requires 2 * at + 1 < |b|
  {
    b[..2 * at] + ([w % 0x100, w / 0x100] + b[2 * at + 2..])
  }

  lemma WordIn(x: seq<Byte>, lo: Byte, hi: Byte, c: seq<Byte>)
    requires |x| % 2 == 0
    ensures LittleSum(x + ([lo, hi] + c)) == LittleSum(x) + (lo as int + 0x100 * (hi as int)) + LittleSum(c)
  {
    var y := [lo, hi] + c;
    LittleSumSplit(x, y);
    assert y[2..] == c;
  }

  lemma SplitAtWord(b: seq<Byte>, at: nat)
    requires 2 * at + 1 < |b|
    ensures b == b[..2 * at] + ([b[2 * at], b[2 * at + 1]] + b[2 * at + 2..])
  {
  }

  lemma WordAdds(b: seq<Byte>, at: nat, w: Word)
    requires 2 * at + 1 < |b| && b[2 * at] == 0 && b[2 * at + 1] == 0
    ensures LittleSum(WithWord(b, at, w)) == LittleSum(b) + w
  {
    SplitAtWord(b, at);
    WordIn(b[..2 * at], 0, 0, b[2 * at + 2..]);
    WordIn(b[..2 * at], w % 0x100, w / 0x100, b[2 * at + 2..]);
  }

  /** Storing the checksum of a packet in its zeroed checksum field makes the receiver's sum 0xFFFF. */
  lemma ReceiverAccepts(b: seq<Byte>, at: nat)
    requires 2 * at + 1 < |b| && b[2 * at] == 0 && b[2 * at + 1] == 0
    ensures Fold(LittleSum(WithWord(b, at, 0xFFFF - Fold(LittleSum(b))))) == 0xFFFF
  {
    var l := LittleSum(b);
    var c := 0xFFFF - Fold(l);
    WordAdds(b, at, c);
    FoldIsUnique(l, Fold(l));
    assert l + c - 0xFFFF == (l - Fold(l)) / 0xFFFF * 0xFFFF;
    FoldIsUnique(l + c, 0xFFFF);
  }
}
