/** Bytes and the 32-bit little-endian loads and stores that the checksum and pcap code does. */
module LittleEndian {

  type Byte = x: int | 0 <= x < 0x100

  const WORD32: nat := 0x1_0000_0000

  /** The word at an offset, low byte first. */
  function Load32(b: seq<Byte>, at: nat): (x: nat)
    requires at + 4 <= |b|
    ensures x < WORD32
    decreases |b|
  {
    if at > 0 then Load32(b[1..], at - 1)
    else b[0] as int + 0x100 * (b[1] as int) + 0x1_0000 * (b[2] as int) + 0x100_0000 * (b[3] as int)
  }

  /** The four bytes loaded. */
  lemma {:induction false} LoadIs(b: seq<Byte>, at: nat)
    requires at + 4 <= |b|
    ensures Load32(b, at)
         == b[at] as int + 0x100 * (b[at + 1] as int) + 0x1_0000 * (b[at + 2] as int) + 0x100_0000 * (b[at + 3] as int)
    decreases |b|
  {
    if at > 0 { LoadIs(b[1..], at - 1); }
  }

  /** Only the bytes loaded matter. */
  lemma SameLoad(b: seq<Byte>, at: nat, b': seq<Byte>, at': nat)
    requires at + 4 <= |b| && at' + 4 <= |b'| && b[at..at + 4] == b'[at'..at' + 4]
    ensures Load32(b, at) == Load32(b', at')
  {
    var x := b[at..at + 4];
    assert x[0] == b[at] == b'[at'] && x[1] == b[at + 1] == b'[at' + 1];
    assert x[2] == b[at + 2] == b'[at' + 2] && x[3] == b[at + 3] == b'[at' + 3];
    LoadIs(b, at);
    LoadIs(b', at');
  }

  /** n bytes of a value, low byte first. */
  function Bytes(x: nat, n: nat): (b: seq<Byte>)
    ensures |b| == n
    decreases n, x
  {
    if n == 0 then [] else [x % 0x100] + Bytes(x / 0x100, n - 1)
  }

  function Bytes32(x: nat): (b: seq<Byte>)
    requires x < WORD32
    ensures |b| == 4
  {
    Bytes(x, 4)
  }

  /** The four bytes. */
  lemma BytesAre(x: nat, n: nat)
    requires x < WORD32 && n == 4
    ensures Bytes(x, n) == [x % 0x100, x / 0x100 % 0x100, x / 0x1_0000 % 0x100, x / 0x100_0000]
  {
    var a, b, c := x / 0x100, x / 0x1_0000, x / 0x100_0000;
    assert b == a / 0x100 && c == b / 0x100;
    assert Bytes(x, n) == [x % 0x100] + Bytes(a, n - 1);
    assert Bytes(a, n - 1) == [a % 0x100] + Bytes(b, n - 2);
    assert Bytes(b, n - 2) == [b % 0x100] + Bytes(c, n - 3);
    assert Bytes(c, n - 3) == [c % 0x100] + Bytes(c / 0x100, n - 4);
  }

  lemma BytesCons(a: Byte, y: nat, n: nat)
    requires n > 0
    ensures Bytes(a as int + 0x100 * y, n) == [a] + Bytes(y, n - 1)
  {
    var x := a as int + 0x100 * y;
    assert x % 0x100 == a as int && x / 0x100 == y;
  }

  lemma BytesValue(x: nat)
    requires x < WORD32
    ensures Load32(Bytes32(x), 0) == x
  {
    BytesAre(x, 4);
    LoadIs(Bytes32(x), 0);
    var a, b := x / 0x100, x / 0x1_0000;
    assert b == a / 0x100 && x / 0x100_0000 == b / 0x100;
  }

  /** What is stored at an offset is what is loaded there. */
  lemma LoadStored(pre: seq<Byte>, x: nat, post: seq<Byte>)
    requires x < WORD32
    ensures Load32(pre + Bytes32(x) + post, |pre|) == x
  {
    var s := pre + Bytes32(x) + post;
    assert s[|pre|..|pre| + 4] == Bytes32(x) == Bytes32(x)[0..4];
    SameLoad(s, |pre|, Bytes32(x), 0);
    BytesValue(x);
  }

  /** b with the bytes from `at` on replaced by x. */
  function Patched(b: seq<Byte>, at: nat, x: seq<Byte>): (r: seq<Byte>)
    requires at + |x| <= |b|
    ensures |r| == |b|
  {
    b[..at] + x + b[at + |x|..]
  }

  /** A 32-bit store, low byte first. */
  method Store32(a: array<Byte>, at: nat, x: nat)
    requires at + 4 <= a.Length && x < WORD32
    modifies a
    ensures a[..] == Patched(old(a[..]), at, Bytes32(x))
  {
    BytesAre(x, 4);
    a[at] := x % 0x100;
    a[at + 1] := x / 0x100 % 0x100;
    a[at + 2] := x / 0x1_0000 % 0x100;
    a[at + 3] := x / 0x100_0000;
  }

  /** Patching twice in a row is patching once with both. */
  lemma PatchedTwice(b: seq<Byte>, at: nat, x: seq<Byte>, y: seq<Byte>)
    requires at + |x| + |y| <= |b|
    ensures Patched(Patched(b, at, x), at + |x|, y) == Patched(b, at, x + y)
  {
  }

  /** memcpy of n bytes to offset `at`. */
  method CopyBytes(a: array<Byte>, at: nat, src: seq<Byte>, n: nat)
    requires at + n <= a.Length && n <= |src|
    modifies a
    ensures a[..] == Patched(old(a[..]), at, src[..n])
  {
    var i := 0;
    while i < n
      invariant 0 <= i <= n
      invariant a[..] == Patched(old(a[..]), at, src[..i])
    {
      a[at + i] := src[i];
      i := i + 1;
    }
  }
}
