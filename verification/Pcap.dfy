/**
 The pcap writer and reader (lua/pcap.lua over src/pcap.cpp), byte by byte: what the writer maps is
 the file header and the records of the packets written, and reading such a file back yields the
 packets in order, cut to the buffer size and zero-filled up to their original length.

 Timestamps are given integers, mmap and fallocate succeed, and buffer allocation succeeds or fails
 at will. A file may be cut off anywhere; the reader says by `inside` whether every record it took was
 in the file as far as it was read. Loads of a record's header at the end of the file are assumed to
 be harmless: the mapping goes on for two record headers, with any contents.
 */
module Pcap {
  import opened Basics
  import opened LittleEndian

  // ---------------------------------------------------------------------------
  // The format
  // ---------------------------------------------------------------------------

  const RECORD_HEADER: nat := 16
  const FILE_HEADER: nat := 24
  const TCPDUMP_MAGIC: nat := 0xA1B2_C3D4
  const TCPDUMP_MAGIC_SWAPPED: nat := 0xD4C3_B2A1
  const TCPDUMP_MAGIC_NANO: nat := 0xA1B2_3C4D
  const TCPDUMP_MAGIC_NANO_SWAPPED: nat := 0x4D3C_B2A1

  /** A packet as stored: `data` is the part that was kept of the `origLen` bytes. */
  datatype Packet = Packet(sec: nat, usec: nat, origLen: nat, data: seq<Byte>)

  predicate Fits(p: Packet) {
    p.sec < WORD32 && p.usec < WORD32 && p.origLen < WORD32 && |p.data| < WORD32
  }

  predicate AllFit(ps: seq<Packet>) { forall i {:trigger ps[i]} :: 0 <= i < |ps| ==> Fits(ps[i]) }

  function RecordHeader(p: Packet): (b: seq<Byte>)
    requires Fits(p)
    ensures |b| == RECORD_HEADER
  {
    Bytes32(p.sec) + Bytes32(p.usec) + Bytes32(|p.data|) + Bytes32(p.origLen)
  }

  function Record(p: Packet): (b: seq<Byte>)
    requires Fits(p)
    ensures |b| == RECORD_HEADER + |p.data|
  {
    RecordHeader(p) + p.data
  }

  function Records(ps: seq<Packet>): seq<Byte>
    requires AllFit(ps)
  {
    if ps == [] then [] else Record(ps[0]) + Records(ps[1..])
  }

  lemma {:induction false} RecordsAppend(ps: seq<Packet>, p: Packet)
    requires AllFit(ps) && Fits(p)
    ensures AllFit(ps + [p]) && Records(ps + [p]) == Records(ps) + Record(p)
    decreases |ps|
  {
    var all := ps + [p];
    if ps == [] {
      assert all[1..] == [];
    } else {
      RecordsAppend(ps[1..], p);
      assert all[1..] == ps[1..] + [p];
      assert Records(all) == Record(ps[0]) + (Records(ps[1..]) + Record(p));
    }
  }

  /** A record's header (pcapRecHeader). */
  datatype Header = Header(sec: nat, usec: nat, inclLen: nat, origLen: nat)

  function HeaderAt(b: seq<Byte>, at: nat): Header
    requires at + RECORD_HEADER <= |b|
  {
    Header(Load32(b, at), Load32(b, at + 4), Load32(b, at + 8), Load32(b, at + 12))
  }

  /** The header's four words read back. */
  lemma HeaderReads(p: Packet, rest: seq<Byte>)
    requires Fits(p)
    ensures HeaderAt(RecordHeader(p) + rest, 0) == Header(p.sec, p.usec, |p.data|, p.origLen)
  {
    var s, u, n, o := Bytes32(p.sec), Bytes32(p.usec), Bytes32(|p.data|), Bytes32(p.origLen);
    var b := RecordHeader(p) + rest;
    LoadStored([], p.sec, u + n + o + rest);
    assert b == [] + s + (u + n + o + rest);
    LoadStored(s, p.usec, n + o + rest);
    assert b == s + u + (n + o + rest);
    LoadStored(s + u, |p.data|, o + rest);
    assert b == s + u + n + (o + rest);
    LoadStored(s + u + n, p.origLen, rest);
  }

  lemma Parts(h: seq<Byte>, d: seq<Byte>, r: seq<Byte>)
    ensures (h + d + r)[|h|..|h| + |d|] == d && (h + d + r)[|h| + |d|..] == r && h + d + r == h + (d + r)
  {
  }

  // ---------------------------------------------------------------------------
  // Writing
  // ---------------------------------------------------------------------------

  function FileHeader(): (b: seq<Byte>)
    ensures |b| == FILE_HEADER
  {
    Bytes32(TCPDUMP_MAGIC) + [2, 0, 4, 0] + Bytes32(0) + Bytes32(0) + Bytes32(0x40000) + Bytes32(1)
  }

  /** libmoon_write_pcap. */
  method WriteRecord(dst: array<Byte>, at: nat, packet: seq<Byte>, len: nat, origLen: nat, sec: nat, usec: nat)
    requires len <= |packet| && Fits(Packet(sec, usec, origLen, packet[..len]))
    requires at + RECORD_HEADER + len <= dst.Length
    modifies dst
    ensures dst[..] == Patched(old(dst[..]), at, Record(Packet(sec, usec, origLen, packet[..len])))
  {
    ghost var was := dst[..];
    Store32(dst, at, sec);
    Store32(dst, at + 4, usec);
    PatchedTwice(was, at, Bytes32(sec), Bytes32(usec));
    Store32(dst, at + 8, len);
    PatchedTwice(was, at, Bytes32(sec) + Bytes32(usec), Bytes32(len));
    Store32(dst, at + 12, origLen);
    PatchedTwice(was, at, Bytes32(sec) + Bytes32(usec) + Bytes32(len), Bytes32(origLen));
    CopyBytes(dst, at + 16, packet, len);
    PatchedTwice(was, at, Bytes32(sec) + Bytes32(usec) + Bytes32(len) + Bytes32(origLen), packet[..len]);
  }

  lemma PatchedPrefix(was: seq<Byte>, now: seq<Byte>, at: nat, x: seq<Byte>)
    requires at + |x| <= |was| && now == Patched(was, at, x)
    ensures now[..at + |x|] == was[..at] + x
  {
  }

  /** A record patched in at the end of the written part makes it one packet longer. */
  lemma {:induction false} FileGrows(
    was: seq<Byte>, now: seq<Byte>, offset: nat, written: seq<Packet>, p: Packet, head: seq<Byte>)
    requires AllFit(written) && Fits(p) && offset + |Record(p)| <= |was| && now == Patched(was, offset, Record(p))
    requires was[..offset] == head + Records(written)
    ensures AllFit(written + [p]) && now[..offset + |Record(p)|] == head + Records(written + [p])
  {
    RecordsAppend(written, p);
    PatchedPrefix(was, now, offset, Record(p));
    assert head + Records(written) + Record(p) == head + (Records(written) + Record(p));
  }

  lemma CopiedPrefix(was: seq<Byte>, now: seq<Byte>, src: seq<Byte>, n: nat)
    requires n <= |src| <= |was| && now == Patched(was, 0, src[..|src|])
    ensures now[..n] == src[..n]
  {
  }

  class Writer {
    var ptr: array<Byte>
    var size: nat
    var offset: nat
    ghost var written: seq<Packet>

    /** The mapped part up to the offset, which is the file after close, is the header and the records. */
    ghost predicate Valid()
      reads this, ptr
    {
      && ptr.Length == size && offset <= size && size > 0 && AllFit(written)
      && ptr[..offset] == FileHeader() + Records(written)
    }

    constructor (initialSize: nat)
      requires initialSize >= FILE_HEADER
      ensures Valid() && written == [] && size == initialSize && fresh(ptr)
    {
      var a := new Byte[initialSize](_ => 0);
      var header := FileHeader();
      ptr, size, offset, written := a, initialSize, FILE_HEADER, [];
      new;
      CopyBytes(a, 0, header, FILE_HEADER);
    }

    /** The mapping moves and grows; what it held stays. */
    method Resize(newSize: nat)
      requires Valid() && newSize >= size
      modifies this
      ensures Valid() && size == newSize && offset == old(offset) && written == old(written) && fresh(ptr)
    {
      var a := new Byte[newSize](_ => 0);
      ghost var was := a[..];
      CopyBytes(a, 0, ptr[..], size);
      CopiedPrefix(was, a[..], ptr[..], offset);
      ptr, size := a, newSize;
    }

    /**
     Appends the first len bytes of data as a packet. The size at most doubles, so the record fits
     the mapping just when its end is within twice the size; `ok` is false if it is not, where the
     copy would leave the mapping.
     */
    method Write(sec: nat, usec: nat, data: seq<Byte>, len: nat, origLen: nat) returns (ok: bool)
      requires Valid() && len <= |data| && Fits(Packet(sec, usec, origLen, data[..len]))
      modifies this, ptr
      ensures Valid()
      ensures ok <==> old(offset) + len + 16 <= 2 * old(size)
      ensures len + 16 <= old(size) ==> ok
      ensures size == if old(offset) + len + 16 >= old(size) then 2 * old(size) else old(size)
      ensures ok ==>
              written == old(written) + [Packet(sec, usec, origLen, data[..len])] && offset == old(offset) + len + 16
      ensures !ok ==> written == old(written) && offset == old(offset)
      ensures ptr == old(ptr) || fresh(ptr)
    {
      if offset + len + 16 >= size { Resize(size * 2); }
      ok := offset + len + 16 <= size;
      if ok {
        ghost var p := Packet(sec, usec, origLen, data[..len]);
        ghost var was := ptr[..];
        WriteRecord(ptr, offset, data, len, origLen, sec, usec);
        FileGrows(was, ptr[..], offset, written, p, FileHeader());
        offset := offset + len + 16;
        written := written + [p];
      }
    }

    /** Writes a buffer, cut to snapLen. */
    method WriteBuf(sec: nat, usec: nat, buf: seq<Byte>, snapLen: nat) returns (ok: bool)
      requires Valid() && sec < WORD32 && usec < WORD32 && |buf| < WORD32
      modifies this, ptr
      ensures Valid()
      ensures ok <==> old(offset) + Min(|buf|, snapLen) + 16 <= 2 * old(size)
      ensures Min(|buf|, snapLen) + 16 <= old(size) ==> ok
      ensures written == if ok then old(written) + [Packet(sec, usec, |buf|, buf[..Min(|buf|, snapLen)])]
              else old(written)
      ensures ptr == old(ptr) || fresh(ptr)
    {
      ok := Write(sec, usec, buf, Min(|buf|, snapLen), |buf|);
    }
  }

  /** A packet longer than the mapping: doubling the size once is not enough. */
  method LongPacketLeavesMapping() returns (ok: bool)
    ensures !ok
  {
    var w := new Writer(40);
    ok := w.Write(0, 0, Repeat<Byte>(0, 100), 100, 100);
  }

  // ---------------------------------------------------------------------------
  // Reading
  // ---------------------------------------------------------------------------

  /** A packet buffer. */
  datatype Mbuf = Mbuf(pktLen: nat, dataLen: nat, timestamp: nat, data: seq<Byte>)

  function Timestamp(p: Packet, nano: bool): nat {
    p.sec * 1_000_000_000 + if nano then p.usec else p.usec * 1000
  }

  const HEADROOM: nat := 128

  const WORD16: nat := 0x1_0000

  /**
   What a buffer of this size holds of a packet: the stored prefix, and zeros up to the original
   length, or up to the buffer's end if the original length is given as less than the stored one.
   */
  function Content(p: Packet, bufSize: nat): seq<Byte>
    requires bufSize >= HEADROOM
  {
    var room := bufSize - HEADROOM;
    seq(if p.origLen < |p.data| then room else Min(p.origLen, room),
        i requires 0 <= i => if i < |p.data| then p.data[i] else 0)
  }

  /** The buffer as read, and as handed to the caller; data_len has 16 bits. */
  function RawMbuf(p: Packet, bufSize: nat, nano: bool): Mbuf
    requires bufSize >= HEADROOM
  {
    Mbuf(|p.data|, |Content(p, bufSize)| % WORD16, Timestamp(p, nano), Content(p, bufSize))
  }

  function Fixed(buf: Mbuf): Mbuf { buf.(pktLen := buf.dataLen) }

  function Delivered(p: Packet, bufSize: nat, nano: bool): Mbuf
    requires bufSize >= HEADROOM
  {
    Fixed(RawMbuf(p, bufSize, nano))
  }

  function Raws(ps: seq<Packet>, bufSize: nat, nano: bool): (r: seq<Mbuf>)
    requires bufSize >= HEADROOM
    ensures |r| == |ps|
  {
    if ps == [] then [] else [RawMbuf(ps[0], bufSize, nano)] + Raws(ps[1..], bufSize, nano)
  }

  lemma {:induction false} RawsAt(ps: seq<Packet>, bufSize: nat, nano: bool, i: nat)
    requires bufSize >= HEADROOM && i < |ps|
    ensures Raws(ps, bufSize, nano)[i] == RawMbuf(ps[i], bufSize, nano)
  {
    if i > 0 { RawsAt(ps[1..], bufSize, nano, i - 1); }
  }

  function DeliveredAll(ps: seq<Packet>, bufSize: nat, nano: bool): (r: seq<Mbuf>)
    requires bufSize >= HEADROOM
    ensures |r| == |ps|
  {
    if ps == [] then [] else [Delivered(ps[0], bufSize, nano)] + DeliveredAll(ps[1..], bufSize, nano)
  }

  lemma {:induction false} DeliveredAt(ps: seq<Packet>, bufSize: nat, nano: bool, i: nat)
    requires bufSize >= HEADROOM && i < |ps|
    ensures DeliveredAll(ps, bufSize, nano)[i] == Delivered(ps[i], bufSize, nano)
    ensures DeliveredAll(ps, bufSize, nano)[i] == Fixed(Raws(ps, bufSize, nano)[i])
  {
    if i > 0 { DeliveredAt(ps[1..], bufSize, nano, i - 1); }
  }

  lemma {:induction false} DeliveredAppend(ps: seq<Packet>, qs: seq<Packet>, bufSize: nat, nano: bool)
    requires bufSize >= HEADROOM
    ensures DeliveredAll(ps + qs, bufSize, nano) == DeliveredAll(ps, bufSize, nano) + DeliveredAll(qs, bufSize, nano)
  {
    if ps == [] { assert ps + qs == qs; }
    else {
      DeliveredAppend(ps[1..], qs, bufSize, nano);
      assert (ps + qs)[1..] == ps[1..] + qs;
    }
  }

  /** A buffer of a packet pool has no more than 2^16 - 1 bytes of room: the lengths are those of the content. */
  lemma LengthsFit(p: Packet, bufSize: nat, nano: bool)
    requires HEADROOM <= bufSize < HEADROOM + WORD16
    ensures var buf := Delivered(p, bufSize, nano); buf.pktLen == buf.dataLen == |buf.data|
  {
  }

  /** The record length at an offset (incl_len). */
  function Included(pcap: seq<Byte>, offset: nat): nat
    requires offset + RECORD_HEADER <= |pcap|
  {
    Load32(pcap, offset + 8)
  }

  /** The length of the whole record. */
  function SizeAt(pcap: seq<Byte>, offset: nat): nat
    requires offset + RECORD_HEADER <= |pcap|
  {
    Included(pcap, offset) + RECORD_HEADER
  }

  function PacketAt(pcap: seq<Byte>, offset: nat): Packet
    requires offset + RECORD_HEADER <= |pcap| && offset + RECORD_HEADER + Included(pcap, offset) <= |pcap|
  {
    Packet(Load32(pcap, offset), Load32(pcap, offset + 4), Load32(pcap, offset + 12),
           pcap[offset + RECORD_HEADER..offset + RECORD_HEADER + Included(pcap, offset)])
  }

  /** The file ends at `size`; the mapping goes on for two record headers. */
  predicate Mapped(pcap: seq<Byte>, size: nat) { size + 2 * RECORD_HEADER <= |pcap| }

  // ---------------------------------------------------------------------------
  // One record
  // ---------------------------------------------------------------------------

  /** What a header and the bytes copied from behind it make. */
  function MbufOf(src: Header, copied: seq<Byte>, bufSize: nat, nano: bool): Mbuf
    requires HEADROOM + |copied| <= bufSize < WORD32
  {
    var zeroFill := Min(bufSize - |copied| - HEADROOM, (src.origLen - src.inclLen) % WORD32);
    Mbuf(src.inclLen, (|copied| + zeroFill) % WORD16,
         src.sec * 1_000_000_000 + if nano then src.usec else src.usec * 1000,
         copied + Repeat<Byte>(0, zeroFill))
  }

  /**
   libmoon_read_pcap, 32-bit wrap-around included; `available` says whether the pool has a buffer.
   What it returns is made of the 16 bytes of header at the offset and of the `copied` bytes after
   them, the whole of what it reads: the read record is in the file as far as it was read if it ends
   within the `remaining` bytes.
   */
  method ReadRecord(pcap: seq<Byte>, offset: nat, remaining: nat, bufSize: nat, nano: bool, available: bool)
      returns (buf: Option<Mbuf>, copied: nat)
    requires offset + remaining + RECORD_HEADER <= |pcap| && HEADROOM <= bufSize < WORD32
    ensures buf.None? <==> Included(pcap, offset) >= remaining || !available
    ensures (buf.None? || RECORD_HEADER + copied <= remaining)
            <==> (Included(pcap, offset) >= remaining || !available
                  || RECORD_HEADER + Min(Included(pcap, offset), bufSize - HEADROOM) <= remaining)
    ensures copied == if buf.None? then 0 else Min(Included(pcap, offset), bufSize - HEADROOM)
    ensures buf.Some? ==>
              && offset + RECORD_HEADER + copied <= |pcap|
              && buf.value == MbufOf(HeaderAt(pcap, offset),
                                     pcap[offset + RECORD_HEADER..offset + RECORD_HEADER + copied], bufSize, nano)
  {
    copied := 0;
    var src := HeaderAt(pcap, offset);
    if src.inclLen >= remaining { return None, 0; }
    var copyLen := src.inclLen;
    if copyLen > bufSize - HEADROOM { copyLen := bufSize - HEADROOM; }
    var zeroFill := Min((bufSize - copyLen - HEADROOM) % WORD32, (src.origLen - src.inclLen) % WORD32);
    if !available { return None, 0; }
    var timestamp := src.sec * 1_000_000_000 + if nano then src.usec else src.usec * 1000;
    var data := pcap[offset + RECORD_HEADER..offset + RECORD_HEADER + copyLen] + Repeat<Byte>(0, zeroFill);
    buf := Some(Mbuf(src.inclLen, (copyLen + zeroFill) % WORD16, timestamp, data));
    copied := copyLen;
  }

  /** The header and the copied part of a packet make the buffer that the packet stands for. */
  lemma MbufIs(pcap: seq<Byte>, offset: nat, bufSize: nat, nano: bool)
    requires offset + RECORD_HEADER <= |pcap| && offset + SizeAt(pcap, offset) <= |pcap| && HEADROOM <= bufSize < WORD32
    ensures var n := Min(Included(pcap, offset), bufSize - HEADROOM);
            && offset + RECORD_HEADER + n <= |pcap|
            && MbufOf(HeaderAt(pcap, offset), pcap[offset + RECORD_HEADER..offset + RECORD_HEADER + n], bufSize, nano)
               == RawMbuf(PacketAt(pcap, offset), bufSize, nano)
  {
    var n, p := Min(Included(pcap, offset), bufSize - HEADROOM), PacketAt(pcap, offset);
    assert p.data[..n] == pcap[offset + RECORD_HEADER..offset + RECORD_HEADER + n];
    ZeroFillIs(p, bufSize, n, Min(bufSize - n - HEADROOM, (p.origLen - |p.data|) % WORD32));
  }

  lemma ZeroFillIs(p: Packet, bufSize: nat, copyLen: nat, zeroFill: nat)
    requires p.origLen < WORD32 && |p.data| < WORD32 && HEADROOM <= bufSize < WORD32
    requires copyLen == Min(|p.data|, bufSize - HEADROOM)
    requires zeroFill == Min(bufSize - copyLen - HEADROOM, (p.origLen - |p.data|) % WORD32)
    ensures Content(p, bufSize) == p.data[..copyLen] + Repeat<Byte>(0, zeroFill)
  {
  }

  // ---------------------------------------------------------------------------
  // What is in a file
  // ---------------------------------------------------------------------------

  /**
   What follows the whole records, `cut` bytes: something whose length is not below what is left, at
   which the reader stops; a record that is cut off; or nothing, the reader having taken that record.
   */
  datatype End = Stops(cut: nat) | CutOff(cut: nat, packet: Packet) | Past

  /** The packets of the whole records there. */
  function Parsed(pcap: seq<Byte>, offset: nat, remaining: nat): seq<Packet>
    requires offset + remaining + RECORD_HEADER <= |pcap|
    decreases remaining
  {
    if SizeAt(pcap, offset) > remaining then []
    else [PacketAt(pcap, offset)] + Parsed(pcap, offset + SizeAt(pcap, offset), remaining - SizeAt(pcap, offset))
  }

  function EndOf(pcap: seq<Byte>, offset: nat, remaining: nat): End
    requires offset + remaining + RECORD_HEADER <= |pcap|
    decreases remaining
  {
    if SizeAt(pcap, offset) <= remaining then
      EndOf(pcap, offset + SizeAt(pcap, offset), remaining - SizeAt(pcap, offset))
    else if Included(pcap, offset) >= remaining then Stops(remaining)
    else CutOff(remaining, PacketAt(pcap, offset))
  }

  function Length(ps: seq<Packet>): nat {
    if ps == [] then 0 else RECORD_HEADER + |ps[0].data| + Length(ps[1..])
  }

  lemma Slice(b: seq<Byte>, offset: nat, n: nat, i: nat, j: nat)
    requires offset + n <= |b| && i <= j <= n
    ensures b[offset + i..offset + j] == b[offset..offset + n][i..j]
  {
    var r := b[offset..offset + n];
    assert forall k :: 0 <= k < j - i ==> b[offset + i..offset + j][k] == b[offset + i + k] == r[i + k] == r[i..j][k];
  }

  lemma Load32Slice(b: seq<Byte>, offset: nat, n: nat, at: nat)
    requires offset + n <= |b| && at + 4 <= n
    ensures Load32(b, offset + at) == Load32(b[offset..offset + n], at)
  {
    Slice(b, offset, n, at, at + 4);
    SameLoad(b, offset + at, b[offset..offset + n], at);
  }

  lemma {:induction false} FirstRecord(pcap: seq<Byte>, offset: nat, remaining: nat, ps: seq<Packet>)
    requires offset + remaining + RECORD_HEADER <= |pcap| && AllFit(ps) && ps != []
    requires pcap[offset..offset + remaining] == Records(ps)
    ensures Included(pcap, offset) == |ps[0].data| && |ps[0].data| + RECORD_HEADER <= remaining
    ensures PacketAt(pcap, offset) == ps[0]
    ensures var n := |ps[0].data| + RECORD_HEADER; pcap[offset + n..offset + remaining] == Records(ps[1..])
  {
    var p, rest := ps[0], Records(ps[1..]);
    var n := RECORD_HEADER + |p.data|;
    Parts(RecordHeader(p), p.data, rest);
    HeaderReads(p, p.data + rest);
    assert Records(ps) == RecordHeader(p) + p.data + rest;
    Load32Slice(pcap, offset, remaining, 0);
    Load32Slice(pcap, offset, remaining, 4);
    Load32Slice(pcap, offset, remaining, 8);
    Load32Slice(pcap, offset, remaining, 12);
    Slice(pcap, offset, remaining, 16, n);
    Slice(pcap, offset, remaining, n, remaining);
  }

  /** Parsing finds these packets, and then that end. */
  ghost predicate FileHas(pcap: seq<Byte>, offset: nat, remaining: nat, left: seq<Packet>, end: End) {
    && offset + remaining + RECORD_HEADER <= |pcap|
    && Parsed(pcap, offset, remaining) == left && EndOf(pcap, offset, remaining) == end
  }

  lemma {:induction false} ParsedOne(pcap: seq<Byte>, offset: nat, remaining: nat, n: nat)
    requires offset + remaining + RECORD_HEADER <= |pcap| && n == SizeAt(pcap, offset) <= remaining
    ensures Parsed(pcap, offset, remaining) == [PacketAt(pcap, offset)] + Parsed(pcap, offset + n, remaining - n)
  {
  }

  lemma {:induction false} EndOne(pcap: seq<Byte>, offset: nat, remaining: nat, n: nat)
    requires offset + remaining + RECORD_HEADER <= |pcap| && n == SizeAt(pcap, offset) <= remaining
    ensures EndOf(pcap, offset, remaining) == EndOf(pcap, offset + n, remaining - n)
  {
  }

  lemma {:induction false} FileHasOne(
    pcap: seq<Byte>, offset: nat, remaining: nat, p: Packet, n: nat, rest: seq<Packet>, end: End)
    requires offset + RECORD_HEADER <= |pcap| && n == SizeAt(pcap, offset) <= remaining
    requires FileHas(pcap, offset + n, remaining - n, rest, end) && p == PacketAt(pcap, offset)
    ensures FileHas(pcap, offset, remaining, [p] + rest, end)
  {
    ParsedOne(pcap, offset, remaining, n);
    EndOne(pcap, offset, remaining, n);
  }

  /** Where the i-th record begins. */
  function StartOf(offset: nat, left: seq<Packet>, i: nat): nat
    requires i <= |left|
  {
    offset + Length(left[..i])
  }

  predicate RecordIs(pcap: seq<Byte>, at: nat, p: Packet) {
    at + RECORD_HEADER + |p.data| <= |pcap| && Included(pcap, at) == |p.data| && PacketAt(pcap, at) == p
  }

  /** From `last` on there is what `end` says, up to the end of the file. */
  predicate EndIs(pcap: seq<Byte>, last: nat, size: nat, end: End) {
    match end
    case Stops(cut) => last + cut == size && last + RECORD_HEADER <= |pcap| && Included(pcap, last) >= cut
    case CutOff(cut, p) => last + cut == size && RecordIs(pcap, last, p) && |p.data| < cut < |p.data| + RECORD_HEADER
    case Past => size < last < size + RECORD_HEADER
  }

  /** From the offset on there are the packets `left`, and then what `end` says. */
  ghost predicate Holds(pcap: seq<Byte>, offset: nat, size: nat, left: seq<Packet>, end: End) {
    && Mapped(pcap, size)
    && (forall i {:trigger StartOf(offset, left, i)} :: 0 <= i < |left| ==>
          RecordIs(pcap, StartOf(offset, left, i), left[i]))
    && EndIs(pcap, offset + Length(left), size, end) && (end.Past? ==> left == [])
  }

  lemma {:induction false} StartOfNext(offset: nat, p: Packet, rest: seq<Packet>, i: nat)
    requires i <= |rest|
    ensures StartOf(offset, [p] + rest, i + 1) == StartOf(offset + RECORD_HEADER + |p.data|, rest, i)
    ensures Length([p] + rest) == RECORD_HEADER + |p.data| + Length(rest)
  {
    var all := [p] + rest;
    assert all[..i + 1] == [p] + rest[..i];
    assert ([p] + rest[..i])[1..] == rest[..i] && all[1..] == rest;
  }

  lemma PacketIs(pcap: seq<Byte>, offset: nat)
    requires offset + RECORD_HEADER <= |pcap| && offset + SizeAt(pcap, offset) <= |pcap|
    ensures RecordIs(pcap, offset, PacketAt(pcap, offset))
    ensures SizeAt(pcap, offset) == RECORD_HEADER + |PacketAt(pcap, offset).data|
  {
  }

  lemma {:induction false} NotPast(pcap: seq<Byte>, offset: nat, remaining: nat)
    requires offset + remaining + RECORD_HEADER <= |pcap|
    ensures !EndOf(pcap, offset, remaining).Past?
    decreases remaining
  {
    if SizeAt(pcap, offset) <= remaining {
      NotPast(pcap, offset + SizeAt(pcap, offset), remaining - SizeAt(pcap, offset));
    }
  }

  lemma {:induction false} NoRecordHolds(pcap: seq<Byte>, offset: nat, remaining: nat)
    requires Mapped(pcap, offset + remaining) && SizeAt(pcap, offset) > remaining
    ensures Parsed(pcap, offset, remaining) == []
    ensures EndIs(pcap, offset, offset + remaining, EndOf(pcap, offset, remaining))
  {
    if Included(pcap, offset) < remaining { PacketIs(pcap, offset); }
  }

  lemma {:induction false} OneHolds(pcap: seq<Byte>, offset: nat, remaining: nat, n: nat, rest: seq<Packet>, end: End)
    requires Mapped(pcap, offset + remaining) && n == SizeAt(pcap, offset) <= remaining && !end.Past?
    requires Holds(pcap, offset + n, offset + remaining, rest, end)
    ensures Holds(pcap, offset, offset + remaining, [PacketAt(pcap, offset)] + rest, end)
  {
    PacketIs(pcap, offset);
    HoldsBefore(pcap, offset, offset + remaining, PacketAt(pcap, offset), rest, end);
  }

  /** Every file has packets and an end, whatever its bytes. */
  lemma {:induction false} AnyFileHolds(pcap: seq<Byte>, offset: nat, remaining: nat)
    requires Mapped(pcap, offset + remaining)
    ensures Holds(pcap, offset, offset + remaining, Parsed(pcap, offset, remaining), EndOf(pcap, offset, remaining))
    decreases remaining
  {
    var n := SizeAt(pcap, offset);
    if n <= remaining {
      ParsedOne(pcap, offset, remaining, n);
      EndOne(pcap, offset, remaining, n);
      AnyFileHolds(pcap, offset + n, remaining - n);
      NotPast(pcap, offset + n, remaining - n);
      OneHolds(pcap, offset, remaining, n, Parsed(pcap, offset + n, remaining - n),
        EndOf(pcap, offset + n, remaining - n));
    } else {
      NotPast(pcap, offset, remaining);
      NoRecordHolds(pcap, offset, remaining);
    }
  }

  lemma {:induction false} HoldsAt(pcap: seq<Byte>, offset: nat, size: nat, left: seq<Packet>, end: End, i: nat)
    requires Holds(pcap, offset, size, left, end) && i < |left|
    ensures RecordIs(pcap, StartOf(offset, left, i), left[i])
  {
  }

  lemma {:induction false} RecordsBefore(
    pcap: seq<Byte>, offset: nat, size: nat, p: Packet, rest: seq<Packet>, end: End, i: nat)
    requires RecordIs(pcap, offset, p) && Holds(pcap, offset + RECORD_HEADER + |p.data|, size, rest, end) && i <= |rest|
    ensures RecordIs(pcap, StartOf(offset, [p] + rest, i), ([p] + rest)[i])
  {
    if i == 0 { assert ([p] + rest)[..0] == []; }
    else {
      HoldsAt(pcap, offset + RECORD_HEADER + |p.data|, size, rest, end, i - 1);
      StartOfNext(offset, p, rest, i - 1);
      assert ([p] + rest)[i] == rest[i - 1];
    }
  }

  lemma {:induction false} HoldsBefore(pcap: seq<Byte>, offset: nat, size: nat, p: Packet, rest: seq<Packet>, end: End)
    requires RecordIs(pcap, offset, p) && Holds(pcap, offset + RECORD_HEADER + |p.data|, size, rest, end)
    ensures !end.Past? ==> Holds(pcap, offset, size, [p] + rest, end)
  {
    var all, next := [p] + rest, offset + RECORD_HEADER + |p.data|;
    StartOfNext(offset, p, rest, 0);
    forall i | 0 <= i < |all| ensures RecordIs(pcap, StartOf(offset, all, i), all[i]) {
      RecordsBefore(pcap, offset, size, p, rest, end, i);
    }
  }

  /** What the next look at a header finds. */
  lemma {:induction false} ThisRecord(pcap: seq<Byte>, offset: nat, size: nat, left: seq<Packet>, end: End)
    requires Holds(pcap, offset, size, left, end)
    ensures left != [] ==> RecordIs(pcap, offset, left[0]) && offset + RECORD_HEADER + |left[0].data| <= size
    ensures left == [] ==> EndIs(pcap, offset, size, end)
  {
    if left != [] {
      assert StartOf(offset, left, 0) == offset by { assert left[..0] == []; }
      assert Length(left) == RECORD_HEADER + |left[0].data| + Length(left[1..]);
    }
  }

  lemma {:induction false} RecordsAfter(pcap: seq<Byte>, offset: nat, size: nat, left: seq<Packet>, end: End, i: nat)
    requires Holds(pcap, offset, size, left, end) && i + 1 < |left|
    ensures RecordIs(pcap, StartOf(offset + RECORD_HEADER + |left[0].data|, left[1..], i), left[1..][i])
  {
    assert left == [left[0]] + left[1..];
    StartOfNext(offset, left[0], left[1..], i);
    HoldsAt(pcap, offset, size, left, end, i + 1);
  }

  /** Past that record are the others. */
  lemma {:induction false} NextRecord(pcap: seq<Byte>, offset: nat, size: nat, left: seq<Packet>, end: End)
    requires Holds(pcap, offset, size, left, end) && left != []
    ensures Holds(pcap, offset + RECORD_HEADER + |left[0].data|, size, left[1..], end)
  {
    var next, rest := offset + RECORD_HEADER + |left[0].data|, left[1..];
    assert offset + Length(left) == next + Length(rest);
    forall i | 0 <= i < |rest| ensures RecordIs(pcap, StartOf(next, rest, i), rest[i]) {
      RecordsAfter(pcap, offset, size, left, end, i);
    }
  }

  lemma {:induction false} FileHasFirst(
    pcap: seq<Byte>, offset: nat, remaining: nat, ps: seq<Packet>, n: nat, end: End)
    requires ps != [] && offset + RECORD_HEADER <= |pcap| && n == SizeAt(pcap, offset) <= remaining
    requires FileHas(pcap, offset + n, remaining - n, ps[1..], end) && ps[0] == PacketAt(pcap, offset)
    ensures FileHas(pcap, offset, remaining, ps, end)
  {
    FileHasOne(pcap, offset, remaining, ps[0], n, ps[1..], end);
    assert [ps[0]] + ps[1..] == ps;
  }

  /** Reading records gives the packets they were made of, and nothing else. */
  lemma {:induction false} ParsedRecords(pcap: seq<Byte>, offset: nat, remaining: nat, ps: seq<Packet>)
    requires offset + remaining + RECORD_HEADER <= |pcap| && AllFit(ps)
    requires pcap[offset..offset + remaining] == Records(ps)
    ensures Parsed(pcap, offset, remaining) == ps && EndOf(pcap, offset, remaining) == Stops(0)
    decreases |ps|
  {
    if ps == [] {
      assert |pcap[offset..offset + remaining]| == 0;
    } else {
      var n := |ps[0].data| + RECORD_HEADER;
      FirstRecord(pcap, offset, remaining, ps);
      ParsedRecords(pcap, offset + n, remaining - n, ps[1..]);
      FileHasFirst(pcap, offset, remaining, ps, n, Stops(0));
    }
  }

  /** A file's bytes determine its packets. */
  lemma {:induction false} RecordsDetermine(ps: seq<Packet>, qs: seq<Packet>)
    requires AllFit(ps) && AllFit(qs) && Records(ps) == Records(qs)
    ensures ps == qs
  {
    var file := Records(ps);
    var pcap := file + Repeat<Byte>(0, 16);
    assert pcap[0..0 + |file|] == file;
    ParsedRecords(pcap, 0, |file|, ps);
    ParsedRecords(pcap, 0, |file|, qs);
  }

  // ---------------------------------------------------------------------------
  // What a read takes
  // ---------------------------------------------------------------------------

  /** The copy of the cut-off record's data into a buffer of this size ends within the file. */
  predicate CopyFits(end: End, bufSize: nat)
    requires end.CutOff? && bufSize >= HEADROOM
  {
    RECORD_HEADER + Min(|end.packet.data|, bufSize - HEADROOM) <= end.cut
  }

  /**
   What is left of a file for buffers of one size: `all` the packets that can be had from it, `last`
   how many bytes are left where the last of them begins, `after` how many behind it, and whether a
   read that goes on there leaves the file.
   */
  datatype Rest = Rest(all: seq<Packet>, last: int, after: int, trap: bool)

  function RestOf(left: seq<Packet>, end: End, bufSize: nat): Rest
    requires bufSize >= HEADROOM
  {
    var behind := if end.Past? then -1 else end.cut;
    var whole := if left == [] then 0 else RECORD_HEADER + |left[|left| - 1].data| + behind;
    if end.CutOff? && CopyFits(end, bufSize) then Rest(left + [end.packet], end.cut, -1, true)
    else Rest(left, whole, behind, !end.Stops?)
  }

  /** Fewer than 32 bytes are left, and the readers do not look at the file (197, 216). */
  predicate Small(rest: Rest) { (rest.all == [] && rest.after < 32) || (|rest.all| == 1 && rest.last < 32) }

  /** How many packets a request takes, and whether they all are in the file as far as they are read. */
  datatype Step = Step(n: nat, inside: bool)

  /** A request that could take `most` packets, having buffers and room for so many. */
  function Takes(rest: Rest, most: nat): (step: Step)
    ensures step.n <= |rest.all|
  {
    if Small(rest) then Step(0, true) else Step(Min(|rest.all|, most), rest.trap ==> most <= |rest.all|)
  }

  /** The packets left and the end, after n have been taken. */
  function LeftAfter(left: seq<Packet>, n: nat): seq<Packet> { if n <= |left| then left[n..] else [] }

  function EndAfter(left: seq<Packet>, end: End, n: nat): End { if n <= |left| then end else Past }

  lemma {:induction false} SmallIs(left: seq<Packet>, end: End, bufSize: nat, remaining: int)
    requires bufSize >= HEADROOM
    requires if end.Past? then left == [] && remaining < 0 else remaining == Length(left) + end.cut
    ensures Small(RestOf(left, end, bufSize)) <==> remaining < 32
  {
    if |left| == 1 { assert Length(left[1..]) == 0; }
    if |left| > 1 {
      assert Length(left) >= 32 by { assert Length(left[1..]) >= 16; }
    }
  }

  /** One record of the rest: read, and whether it is in the file. */
  method ReadNext(pcap: seq<Byte>, offset: nat, size: nat, bufSize: nat, nano: bool, available: bool,
                  ghost left: seq<Packet>, ghost end: End)
      returns (buf: Option<Mbuf>, inside: bool)
    requires Holds(pcap, offset, size, left, end) && offset <= size && HEADROOM <= bufSize < WORD32
    ensures buf.Some? <==> available && (left != [] || end.CutOff?)
    ensures buf.Some? ==> buf.value == RawMbuf(if left != [] then left[0] else end.packet, bufSize, nano)
    ensures buf.Some? ==> buf.value.pktLen == Included(pcap, offset)
    ensures inside <==> buf.None? || left != [] || CopyFits(end, bufSize)
  {
    ThisRecord(pcap, offset, size, left, end);
    var copied: nat;
    buf, copied := ReadRecord(pcap, offset, size - offset, bufSize, nano, available);
    inside := buf.None? || RECORD_HEADER + copied <= size - offset;
    if buf.Some? { MbufIs(pcap, offset, bufSize, nano); }
  }

  /** The record after one that was taken whole, and after the one that was cut off. */
  lemma {:induction false} TakenHolds(pcap: seq<Byte>, offset: nat, size: nat, left: seq<Packet>, end: End)
    requires Holds(pcap, offset, size, left, end) && offset <= size && (left != [] || end.CutOff?)
    ensures var next := offset + SizeAt(pcap, offset);
            Holds(pcap, next, size, LeftAfter(left, 1), EndAfter(left, end, 1))
            && (next > size <==> left == [])
  {
    ThisRecord(pcap, offset, size, left, end);
    if left != [] {
      NextRecord(pcap, offset, size, left, end);
      ThisRecord(pcap, offset + SizeAt(pcap, offset), size, left[1..], end);
    }
  }

  lemma AfterOneMore(left: seq<Packet>, end: End, n: nat)
    requires n <= |left|
    ensures LeftAfter(LeftAfter(left, n), 1) == LeftAfter(left, n + 1)
    ensures EndAfter(LeftAfter(left, n), EndAfter(left, end, n), 1) == EndAfter(left, end, n + 1)
  {
  }

  /** The n-th record of the rest is the first one of what is left after n. */
  lemma {:induction false} RestAt(left: seq<Packet>, end: End, bufSize: nat, n: nat)
    requires bufSize >= HEADROOM && n < |RestOf(left, end, bufSize).all|
    ensures n <= |left|
    ensures var l, e := LeftAfter(left, n), EndAfter(left, end, n);
            RestOf(left, end, bufSize).all[n] == (if l != [] then l[0] else e.packet)
            && (l != [] || (e.CutOff? && CopyFits(e, bufSize)))
  {
  }

  lemma {:induction false} RestEnds(left: seq<Packet>, end: End, bufSize: nat, n: nat)
    requires bufSize >= HEADROOM && n == |RestOf(left, end, bufSize).all| && !end.Past?
    ensures n <= |left| ==> LeftAfter(left, n) == [] && EndAfter(left, end, n) == end
    ensures n <= |left| && end.CutOff? ==> !CopyFits(end, bufSize)
    ensures n > |left| ==> EndAfter(left, end, n) == Past && n == |left| + 1 && end.CutOff?
    ensures RestOf(left, end, bufSize).trap <==> end.CutOff?
  {
  }

  /** Where a batch is after n packets. */
  ghost predicate BatchAt(pcap: seq<Byte>, offset: nat, size: nat, left: seq<Packet>, end: End, n: nat) {
    && Holds(pcap, offset, size, LeftAfter(left, n), EndAfter(left, end, n))
    && !end.Past? && (offset > size <==> n > |left|)
  }

  /** How many records there are, the cut-off one included. */
  function Count(left: seq<Packet>, end: End): nat { |left| + if end.CutOff? then 1 else 0 }

  lemma {:induction false} BatchNext(pcap: seq<Byte>, offset: nat, size: nat, left: seq<Packet>, end: End, n: nat)
    requires BatchAt(pcap, offset, size, left, end, n) && n < Count(left, end)
    ensures offset <= size && offset + RECORD_HEADER <= |pcap|
    ensures BatchAt(pcap, offset + SizeAt(pcap, offset), size, left, end, n + 1)
  {
    TakenHolds(pcap, offset, size, LeftAfter(left, n), EndAfter(left, end, n));
    AfterOneMore(left, end, n);
  }

  /** Where the n-th record behind begins. */
  function OffsetOf(pcap: seq<Byte>, start: nat, n: nat): (offset: nat)
    decreases n
  {
    if n == 0 then start
    else var before := OffsetOf(pcap, start, n - 1);
         if before + RECORD_HEADER <= |pcap| then before + SizeAt(pcap, before) else before
  }

  lemma {:induction false} OffsetNext(pcap: seq<Byte>, start: nat, n: nat)
    requires OffsetOf(pcap, start, n) + RECORD_HEADER <= |pcap|
    ensures OffsetOf(pcap, start, n + 1) == OffsetOf(pcap, start, n) + SizeAt(pcap, OffsetOf(pcap, start, n))
  {
  }

  /** A batch that starts at the front of what is left. */
  ghost predicate BatchFrom(pcap: seq<Byte>, start: nat, size: nat, left: seq<Packet>, end: End, rest: Rest,
                            bufSize: nat)
  {
    && HEADROOM <= bufSize < WORD32 && rest == RestOf(left, end, bufSize)
    && Holds(pcap, start, size, left, end) && start <= size
  }

  lemma {:induction false} BatchIsAt(pcap: seq<Byte>, start: nat, size: nat, left: seq<Packet>, end: End, n: nat)
    requires Holds(pcap, start, size, left, end) && start <= size && n <= Count(left, end)
    ensures BatchAt(pcap, OffsetOf(pcap, start, n), size, left, end, n)
    decreases n
  {
    if n == 0 {
      assert LeftAfter(left, n) == left;
    } else {
      BatchIsAt(pcap, start, size, left, end, n - 1);
      BatchOneMore(pcap, start, size, left, end, n - 1);
    }
  }

  lemma {:induction false} BatchOneMore(pcap: seq<Byte>, start: nat, size: nat, left: seq<Packet>, end: End, n: nat)
    requires BatchAt(pcap, OffsetOf(pcap, start, n), size, left, end, n) && n < Count(left, end)
    ensures BatchAt(pcap, OffsetOf(pcap, start, n + 1), size, left, end, n + 1)
  {
    BatchNext(pcap, OffsetOf(pcap, start, n), size, left, end, n);
    OffsetNext(pcap, start, n);
  }

  lemma OffsetPast(pcap: seq<Byte>, start: nat, size: nat, left: seq<Packet>, end: End, rest: Rest, bufSize: nat,
                   n: nat)
    requires BatchFrom(pcap, start, size, left, end, rest, bufSize) && n <= |rest.all|
    ensures OffsetOf(pcap, start, n) > size ==> n == |rest.all| && rest.trap
    ensures OffsetOf(pcap, start, n) <= size ==> OffsetOf(pcap, start, n) + RECORD_HEADER <= |pcap|
  {
    BatchIsAt(pcap, start, size, left, end, n);
  }

  /** One round of a batch. */
  method BatchRound(pcap: seq<Byte>, offset: nat, size: nat, bufSize: nat, nano: bool, available: bool,
                    ghost start: nat, ghost left: seq<Packet>, ghost end: End, ghost rest: Rest, ghost n: nat)
      returns (buf: Option<Mbuf>, inside: bool)
    requires BatchFrom(pcap, start, size, left, end, rest, bufSize) && n <= |rest.all|
    requires offset == OffsetOf(pcap, start, n) && offset <= size
    ensures buf.Some? <==> available && (n < |rest.all| || rest.trap)
    ensures inside <==> buf.None? || n < |rest.all|
    ensures buf.Some? && inside ==> buf.value == Raws(rest.all, bufSize, nano)[n]
  {
    BatchIsAt(pcap, start, size, left, end, n);
    buf, inside := ReadNext(pcap, offset, size, bufSize, nano, available, LeftAfter(left, n), EndAfter(left, end, n));
    if n < |rest.all| {
      RestAt(left, end, bufSize, n);
      RawsAt(rest.all, bufSize, nano, n);
    } else {
      RestEnds(left, end, bufSize, n);
    }
  }

  /**
   libmoon_read_pcap_batch: as many packets as there are, as the array takes, and as the pool has
   buffers for (`available`); the first slot not filled is set to null. It is not `inside` if it goes
   on to a record that is not in the file, after which nothing is said of it: the cut-off one, or
   whatever follows it, as the count of what is left has then wrapped around 64 bits.
   */
  method ReadBatch(bufs: array<Option<Mbuf>>, pcap: seq<Byte>, start: nat, size: nat, bufSize: nat, nano: bool,
                   available: nat, ghost left: seq<Packet>, ghost end: End, ghost rest: Rest)
      returns (n: nat, inside: bool)
    requires BatchFrom(pcap, start, size, left, end, rest, bufSize)
    modifies bufs
    ensures inside <==> (rest.trap ==> Min(bufs.Length, available) <= |rest.all|)
    ensures inside ==> n == Min(|rest.all|, Min(bufs.Length, available))
    ensures inside ==> forall i {:trigger bufs[i]} :: 0 <= i < n ==> bufs[i] == Some(Raws(rest.all, bufSize, nano)[i])
    ensures inside && n < bufs.Length ==> bufs[n] == None
    ensures inside ==> forall i {:trigger bufs[i]} :: n < i < bufs.Length ==> bufs[i] == old(bufs[i])
  {
    var offset: nat := start;
    n, inside := 0, true;
    while n < bufs.Length
      invariant 0 <= n <= Min(|rest.all|, Min(bufs.Length, available)) && inside
      invariant offset == OffsetOf(pcap, start, n)
      invariant forall i {:trigger bufs[i]} :: 0 <= i < n ==> bufs[i] == Some(Raws(rest.all, bufSize, nano)[i])
      invariant forall i {:trigger bufs[i]} :: n <= i < bufs.Length ==> bufs[i] == old(bufs[i])
    {
      OffsetPast(pcap, start, size, left, end, rest, bufSize, n);
      if offset > size {
        if n < available { return n, false; }
        bufs[n] := None;
        return;
      }
      var buf;
      buf, inside := BatchRound(pcap, offset, size, bufSize, nano, n < available, start, left, end, rest, n);
      if !inside { return; }
      bufs[n] := buf;
      if buf == None { return; }
      offset := offset + Load32(pcap, offset + 8) + RECORD_HEADER;
      n := n + 1;
    }
  }

  lemma {:induction false} OffsetBehind(
    pcap: seq<Byte>, start: nat, size: nat, left: seq<Packet>, end: End, rest: Rest, bufSize: nat, nano: bool, n: nat)
    requires BatchFrom(pcap, start, size, left, end, rest, bufSize) && n < |rest.all|
    ensures OffsetOf(pcap, start, n + 1)
         == OffsetOf(pcap, start, n) + Raws(rest.all, bufSize, nano)[n].pktLen + RECORD_HEADER
  {
    var offset := OffsetOf(pcap, start, n);
    BatchIsAt(pcap, start, size, left, end, n);
    ThisRecord(pcap, offset, size, LeftAfter(left, n), EndAfter(left, end, n));
    RestAt(left, end, bufSize, n);
    RawsAt(rest.all, bufSize, nano, n);
    BatchNext(pcap, offset, size, left, end, n);
    OffsetNext(pcap, start, n);
  }

  /** What opening a file comes to: a fatal error, or a reader for one of the two timestamp units. */
  datatype Opened = BigEndian | NotPcap | BadVersion | BadLinkType | Accepted(nano: bool)

  function ReadHeader(file: seq<Byte>): Opened
    requires |file| >= FILE_HEADER
  {
    var magic := Load32(file, 0);
    if magic == TCPDUMP_MAGIC_SWAPPED || magic == TCPDUMP_MAGIC_NANO_SWAPPED then BigEndian
    else if magic != TCPDUMP_MAGIC && magic != TCPDUMP_MAGIC_NANO then NotPcap
    else if file[4..8] != [2, 0, 4, 0] then BadVersion
    else if Load32(file, 20) != 1 then BadLinkType
    else Accepted(magic == TCPDUMP_MAGIC_NANO)
  }

  class Reader {
    const ptr: seq<Byte>
    const size: nat
    const nano: bool
    var offset: nat
    ghost var left: seq<Packet>
    ghost var end: End

    /** `left` are the whole packets not yet read, `end` is what follows them. */
    ghost predicate Valid()
      reads this
    {
      Holds(ptr, offset, size, left, end)
    }

    /** Opens a file of `fileSize` bytes, mapped with whatever follows it; it may be cut off anywhere. */
    constructor (mapping: seq<Byte>, fileSize: nat)
      requires FILE_HEADER <= fileSize && Mapped(mapping, fileSize) && ReadHeader(mapping).Accepted?
      ensures Valid() && ptr == mapping && size == fileSize && offset == FILE_HEADER && nano == ReadHeader(mapping).nano
      ensures left == Parsed(mapping, FILE_HEADER, fileSize - FILE_HEADER)
      ensures end == EndOf(mapping, FILE_HEADER, fileSize - FILE_HEADER)
    {
      ptr, size, offset, nano := mapping, fileSize, FILE_HEADER, ReadHeader(mapping).nano;
      left := Parsed(mapping, FILE_HEADER, fileSize - FILE_HEADER);
      end := EndOf(mapping, FILE_HEADER, fileSize - FILE_HEADER);
      AnyFileHolds(mapping, FILE_HEADER, fileSize - FILE_HEADER);
    }

    /**
     The next packet; a record that is cut off is delivered too, and the reader is then past the file.
     It is not `inside` the file if the copy of that record's data is not: the buffer then holds bytes
     that follow the file.
     */
    method ReadSingle(bufSize: nat, available: bool) returns (buf: Option<Mbuf>, inside: bool)
      requires Valid() && HEADROOM <= bufSize < WORD32
      modifies this
      ensures var n := if buf.Some? then 1 else 0;
              Valid() && left == LeftAfter(old(left), n) && end == EndAfter(old(left), old(end), n)
      ensures buf.Some? <==> available && old(size - offset) >= 32 && (old(left) != [] || old(end).CutOff?)
      ensures buf.Some? ==>
                buf.value == Delivered(if old(left) != [] then old(left)[0] else old(end).packet, bufSize, nano)
      ensures inside <==> buf.None? || old(left) != [] || CopyFits(old(end), bufSize)
      ensures !inside ==> size - old(offset) - RECORD_HEADER < |buf.value.data|
                          && buf.value.data[size - old(offset) - RECORD_HEADER] == ptr[size]
    {
      var fileRemaining := size - offset;
      if fileRemaining < 32 { return None, true; }
      buf, inside := ReadNext(ptr, offset, size, bufSize, nano, available, left, end);
      if buf.Some? {
        TakenHolds(ptr, offset, size, left, end);
        if !inside { TakesNextByte(ptr, offset, size, end, bufSize); }
        offset := offset + buf.value.pktLen + 16;
        buf := Some(Fixed(buf.value));
        left, end := LeftAfter(left, 1), EndAfter(left, end, 1);
      }
    }

    /**
     A batch, with the lengths fixed. Slots past the packets read keep what they had, but the first of
     them, if the file was looked at.
     */
    method Read(bufs: array<Option<Mbuf>>, bufSize: nat, available: nat) returns (numRead: nat, inside: bool)
      requires Valid() && HEADROOM <= bufSize < WORD32
      modifies this, bufs
      ensures var step := Takes(RestOf(old(left), old(end), bufSize), Min(bufs.Length, available));
              && (inside <==> step.inside)
              && (inside ==> numRead == step.n <= bufs.Length)
      ensures inside ==>
              Valid() && left == LeftAfter(old(left), numRead) && end == EndAfter(old(left), old(end), numRead)
      ensures inside ==> forall i {:trigger bufs[i]} :: 0 <= i < numRead ==>
                bufs[i] == Some(DeliveredAll(RestOf(old(left), old(end), bufSize).all, bufSize, nano)[i])
      ensures inside && numRead < bufs.Length ==> bufs[numRead] == if old(size - offset) < 32 then old(bufs[numRead])
              else None
      ensures inside ==> forall i {:trigger bufs[i]} :: numRead < i < bufs.Length ==> bufs[i] == old(bufs[i])
    {
      ghost var rest := RestOf(left, end, bufSize);
      IsSmall(ptr, offset, size, left, end, bufSize);
      var fileRemaining := size - offset;
      if fileRemaining < 32 {
        assert LeftAfter(left, 0) == left;
        return 0, true;
      }
      numRead, inside := ReadBatch(bufs, ptr, offset, size, bufSize, nano, available, left, end, rest);
      if inside {
        BatchHolds(ptr, offset, size, left, end, rest, bufSize, nano, numRead);
        FixLengths(bufs, numRead, Raws(rest.all, bufSize, nano));
        left, end := LeftAfter(left, numRead), EndAfter(left, end, numRead);
        forall i | 0 <= i < numRead ensures bufs[i] == Some(DeliveredAll(rest.all, bufSize, nano)[i]) {
          DeliveredAt(rest.all, bufSize, nano, i);
        }
      }
    }

    /** The loop over the buffers read: moves past their records and gives them their final length. */
    method FixLengths(bufs: array<Option<Mbuf>>, numRead: nat, ghost raws: seq<Mbuf>)
      requires numRead <= bufs.Length && numRead <= |raws|
      requires forall i {:trigger bufs[i]} :: 0 <= i < numRead ==> bufs[i] == Some(raws[i])
      modifies this`offset, bufs
      ensures offset == Behind(old(offset), raws, numRead)
      ensures forall i {:trigger bufs[i]} :: 0 <= i < numRead ==> bufs[i] == Some(Fixed(raws[i]))
      ensures forall i {:trigger bufs[i]} :: numRead <= i < bufs.Length ==> bufs[i] == old(bufs[i])
    {
      var i := 0;
      while i < numRead
        invariant 0 <= i <= numRead && offset == Behind(old(offset), raws, i)
        invariant forall j {:trigger bufs[j]} :: 0 <= j < i ==> bufs[j] == Some(Fixed(raws[j]))
        invariant forall j {:trigger bufs[j]} :: i <= j < bufs.Length ==> bufs[j] == old(bufs[j])
      {
        offset := offset + bufs[i].value.pktLen + 16;
        bufs[i] := Some(Fixed(bufs[i].value));
        i := i + 1;
      }
    }
  }

  /** Where the records of n buffers end. */
  function Behind(offset: nat, raws: seq<Mbuf>, n: nat): nat
    requires n <= |raws|
  {
    if n == 0 then offset else Behind(offset, raws, n - 1) + raws[n - 1].pktLen + RECORD_HEADER
  }

  lemma {:induction false} BehindIs(
    pcap: seq<Byte>, start: nat, size: nat, left: seq<Packet>, end: End, rest: Rest, bufSize: nat, nano: bool, n: nat)
    requires BatchFrom(pcap, start, size, left, end, rest, bufSize) && n <= |rest.all|
    ensures Behind(start, Raws(rest.all, bufSize, nano), n) == OffsetOf(pcap, start, n)
    decreases n
  {
    if n > 0 {
      BehindIs(pcap, start, size, left, end, rest, bufSize, nano, n - 1);
      OffsetBehind(pcap, start, size, left, end, rest, bufSize, nano, n - 1);
    }
  }

  /** The reader after a batch. */
  lemma {:induction false} BatchHolds(
    pcap: seq<Byte>, start: nat, size: nat, left: seq<Packet>, end: End, rest: Rest, bufSize: nat, nano: bool, n: nat)
    requires BatchFrom(pcap, start, size, left, end, rest, bufSize) && n <= |rest.all|
    ensures Holds(pcap, Behind(start, Raws(rest.all, bufSize, nano), n), size, LeftAfter(left, n),
            EndAfter(left, end, n))
  {
    BehindIs(pcap, start, size, left, end, rest, bufSize, nano, n);
    BatchIsAt(pcap, start, size, left, end, n);
  }

  lemma {:induction false} IsSmall(pcap: seq<Byte>, offset: nat, size: nat, left: seq<Packet>, end: End, bufSize: nat)
    requires Holds(pcap, offset, size, left, end) && bufSize >= HEADROOM
    ensures Small(RestOf(left, end, bufSize)) <==> size - offset < 32
  {
    SmallIs(left, end, bufSize, size - offset);
  }

  /** What a single read does, said of the rest. */
  lemma {:induction false} SingleTakes(
    pcap: seq<Byte>, offset: nat, size: nat, left: seq<Packet>, end: End, bufSize: nat, available: bool)
    requires Holds(pcap, offset, size, left, end) && bufSize >= HEADROOM
    ensures var rest, some := RestOf(left, end, bufSize), available && size - offset >= 32
            && (left != [] || end.CutOff?);
            var step := Takes(rest, if available then 1 else 0);
            && (step.inside <==> !some || left != [] || CopyFits(end, bufSize))
            && (step.inside ==> step.n == if some then 1 else 0)
            && (step.inside && some ==> rest.all[0] == if left != [] then left[0] else end.packet)
  {
    IsSmall(pcap, offset, size, left, end, bufSize);
  }

  /** The byte after the file is in the buffer of a cut-off record that does not fit. */
  lemma TakesNextByte(pcap: seq<Byte>, offset: nat, size: nat, end: End, bufSize: nat)
    requires end.CutOff? && EndIs(pcap, offset, size, end) && HEADROOM <= bufSize < WORD32
             && size - offset >= RECORD_HEADER
    requires !CopyFits(end, bufSize)
    ensures size < |pcap| && size - offset - RECORD_HEADER < |Content(end.packet, bufSize)|
    ensures Content(end.packet, bufSize)[size - offset - RECORD_HEADER] == pcap[size]
  {
  }

  // ---------------------------------------------------------------------------
  // Whole sessions
  // ---------------------------------------------------------------------------

  datatype Request = Single(available: bool) | Batch(slots: nat, pool: nat)

  /** How many packets a request has buffers and room for. */
  function Asked(request: Request): nat {
    match request
    case Single(available) => if available then 1 else 0
    case Batch(slots, pool) => Min(slots, pool)
  }

  function After(rest: Rest, n: nat): Rest
    requires n <= |rest.all|
  {
    rest.(all := rest.all[n..], last := if n < |rest.all| then rest.last else 0)
  }

  lemma {:induction false} RestAfter(left: seq<Packet>, end: End, bufSize: nat, n: nat)
    requires bufSize >= HEADROOM && n <= |RestOf(left, end, bufSize).all| && (end.Past? ==> left == [])
    ensures RestOf(LeftAfter(left, n), EndAfter(left, end, n), bufSize) == After(RestOf(left, end, bufSize), n)
  {
    if n < |left| {
      assert left[n..][|left| - n - 1] == left[|left| - 1];
    }
  }

  /** The packets that a session delivers, and whether it stays in the file. */
  datatype Outcome = Outcome(ps: seq<Packet>, inside: bool)

  /** A sequence of requests, one after the other, up to one that leaves the file. */
  function Session(rest: Rest, requests: seq<Request>): (r: Outcome)
    ensures |r.ps| <= |rest.all|
    decreases |requests|
  {
    if requests == [] then Outcome([], true)
    else
      var step := Takes(rest, Asked(requests[0]));
      if !step.inside then Outcome([], false)
      else
        var more := Session(After(rest, step.n), requests[1..]);
        Outcome(rest.all[..step.n] + more.ps, more.inside)
  }

  lemma {:induction false} SessionOf(rest: Rest, request: Request, requests: seq<Request>)
    requires Takes(rest, Asked(request)).inside
    ensures var n := Takes(rest, Asked(request)).n;
            var more := Session(After(rest, n), requests);
            Session(rest, [request] + requests) == Outcome(rest.all[..n] + more.ps, more.inside)
  {
    assert ([request] + requests)[1..] == requests;
  }

  /** Whatever the requests and however they fail: a prefix of the packets, in order, none twice. */
  lemma {:induction false} SessionIsPrefix(rest: Rest, requests: seq<Request>)
    ensures var ps := Session(rest, requests).ps; ps == rest.all[..|ps|]
    decreases |requests|
  {
    if requests != [] && Takes(rest, Asked(requests[0])).inside {
      var n := Takes(rest, Asked(requests[0])).n;
      SessionIsPrefix(After(rest, n), requests[1..]);
      var m := |Session(After(rest, n), requests[1..]).ps|;
      assert rest.all[..n] + rest.all[n..][..m] == rest.all[..n + m];
    }
  }

  /** Fewer than 32 bytes are left where the last packet begins. */
  predicate LastIsShort(rest: Rest) { rest.all != [] && rest.last < 32 }

  /**
   When a request that has a buffer comes back empty, everything was delivered, but for a short
   packet at the end.
   */
  lemma {:induction false} EmptyMeansAll(rest: Rest, requests: seq<Request>, request: Request)
    requires Asked(request) > 0
    requires Takes(After(rest, |Session(rest, requests).ps|), Asked(request)) == Step(0, true)
    ensures var ps := Session(rest, requests).ps;
            ps == rest.all || (LastIsShort(rest) && ps == rest.all[..|rest.all| - 1])
  {
    SessionIsPrefix(rest, requests);
    var n := |Session(rest, requests).ps|;
    if n == |rest.all| { assert rest.all[..n] == rest.all; }
  }

  // When a session stays in the file

  lemma {:induction false} StaysInside(rest: Rest, requests: seq<Request>)
    requires !rest.trap || Small(rest)
    ensures Session(rest, requests).inside
    decreases |requests|
  {
    if requests != [] {
      assert rest.all[0..] == rest.all;
      StaysInside(After(rest, Takes(rest, Asked(requests[0])).n), requests[1..]);
    }
  }

  /**
   Every session stays in the file if and only if the length found behind the whole records is not
   below what is left there, or the readers never look at the file.
   */
  lemma {:induction false} AllStayInsideIff(
    pcap: seq<Byte>, offset: nat, size: nat, left: seq<Packet>, end: End, bufSize: nat)
    requires Holds(pcap, offset, size, left, end) && bufSize >= HEADROOM
    ensures (forall requests :: Session(RestOf(left, end, bufSize), requests).inside)
            <==> !end.CutOff? || size - offset < 32
  {
    var rest := RestOf(left, end, bufSize);
    IsSmall(pcap, offset, size, left, end, bufSize);
    if !end.CutOff? || size - offset < 32 {
      forall requests ensures Session(rest, requests).inside { StaysInside(rest, requests); }
    } else {
      var more := Batch(|rest.all| + 1, |rest.all| + 1);
      assert !Takes(rest, Asked(more)).inside && [more][0] == more;
      assert !Session(rest, [more]).inside;
    }
  }

  /** One batch leaves the file if and only if it goes on behind the packets that can be had. */
  lemma {:induction false} BatchStaysInsideIff(
    pcap: seq<Byte>, offset: nat, size: nat, left: seq<Packet>, end: End, bufSize: nat, slots: nat, pool: nat)
    requires Holds(pcap, offset, size, left, end) && bufSize >= HEADROOM
    ensures Session(RestOf(left, end, bufSize), [Batch(slots, pool)]).inside
       <==> !end.CutOff? || size - offset < 32
            || Min(slots, pool) <= |left| + if CopyFits(end, bufSize) then 1 else 0
  {
    IsSmall(pcap, offset, size, left, end, bufSize);
    var rest := RestOf(left, end, bufSize);
    var step := Takes(rest, Min(slots, pool));
    assert Session(After(rest, step.n), []) == Outcome([], true);
  }

  function Singles(n: nat): seq<Request> { seq(n, _ => Single(true)) }

  lemma {:induction false} SinglesStep(rest: Rest, n: nat)
    requires n > 0
    ensures var step := Takes(rest, 1);
            Session(rest, Singles(n)) == if !step.inside then Outcome([], false)
                                         else var more := Session(After(rest, step.n), Singles(n - 1));
                                              Outcome(rest.all[..step.n] + more.ps, more.inside)
  {
    assert Singles(n)[0] == Single(true) && Singles(n)[1..] == Singles(n - 1);
  }

  lemma {:induction false} SinglesInside(rest: Rest, n: nat)
    requires rest.all != [] ==> rest.after < rest.last
    ensures Session(rest, Singles(n)).inside <==> !rest.trap || rest.after < 32 || n <= |rest.all|
    decreases n
  {
    if n > 0 {
      SinglesStep(rest, n);
      assert rest.all[0..] == rest.all;
      var step := Takes(rest, 1);
      if step.inside { SinglesInside(After(rest, step.n), n - 1); }
    }
  }

  /**
   Single reads stay in the file if and only if the length found behind the whole records is not below
   the `cut` bytes left there, or these are fewer than 32, or the copy fits, or there are no more reads
   than whole records.
   */
  lemma {:induction false} SinglesStayInsideIff(
    pcap: seq<Byte>, offset: nat, size: nat, left: seq<Packet>, end: End, bufSize: nat, n: nat)
    requires Holds(pcap, offset, size, left, end) && bufSize >= HEADROOM
    ensures Session(RestOf(left, end, bufSize), Singles(n)).inside
       <==> !end.CutOff? || end.cut < 32 || CopyFits(end, bufSize) || n <= |left|
  {
    SinglesInside(RestOf(left, end, bufSize), n);
  }

  /** How many packets single reads get: all but a short last one. */
  function Readables(rest: Rest): nat { |rest.all| - if LastIsShort(rest) then 1 else 0 }

  lemma {:induction false} SinglesCount(rest: Rest, n: nat)
    requires Session(rest, Singles(n)).inside
    ensures |Session(rest, Singles(n)).ps| == Min(n, Readables(rest))
    decreases n
  {
    if n > 0 {
      SinglesStep(rest, n);
      assert rest.all[0..] == rest.all;
      SinglesCount(After(rest, Takes(rest, 1).n), n - 1);
    }
  }

  /** Single reads deliver every packet but a short last one. */
  lemma {:induction false} SinglesDeliver(rest: Rest, n: nat)
    requires Session(rest, Singles(n)).inside
    ensures Session(rest, Singles(n)).ps == rest.all[..Min(n, Readables(rest))]
  {
    SinglesCount(rest, n);
    SessionIsPrefix(rest, Singles(n));
  }

  /** One batch. */
  lemma {:induction false} OneBatch(rest: Rest, slots: nat, pool: nat)
    ensures var step := Takes(rest, Min(slots, pool));
            Session(rest, [Batch(slots, pool)]) == Outcome(if step.inside then rest.all[..step.n] else [], step.inside)
  {
    var step := Takes(rest, Min(slots, pool));
    assert Session(After(rest, step.n), []) == Outcome([], true);
  }

  /** As many single reads as a batch gets packets stay in the file. */
  lemma {:induction false} SinglesUpTo(rest: Rest, n: nat)
    requires n <= |rest.all|
    ensures Session(rest, Singles(n)).inside
    decreases n
  {
    if n > 0 {
      SinglesStep(rest, n);
      assert rest.all[0..] == rest.all;
      if Small(rest) { StaysInside(rest, Singles(n - 1)); }
      else { SinglesUpTo(After(rest, 1), n - 1); }
    }
  }

  /**
   A batch that delivers k packets delivers what k single reads do, except when it takes in a short
   packet at the end, at which single reads stop.
   */
  lemma {:induction false} BatchIsSingles(rest: Rest, slots: nat, pool: nat)
    requires Takes(rest, Min(slots, pool)).inside
    ensures var k := Takes(rest, Min(slots, pool)).n;
            Session(rest, [Batch(slots, pool)]).ps == Session(rest, Singles(k)).ps
            <==> !(k == |rest.all| && LastIsShort(rest))
  {
    var k := Takes(rest, Min(slots, pool)).n;
    SinglesUpTo(rest, k);
    SinglesDeliver(rest, k);
    OneBatch(rest, slots, pool);
  }

  /** Two packets, the second of 10 bytes: single reads never get the second, one batch gets both. */
  lemma ShortLastIsLost(n: nat)
    ensures var ps := [Packet(1, 0, 60, Repeat<Byte>(0, 60)), Packet(2, 0, 10, Repeat<Byte>(0, 10))];
            var rest := RestOf(ps, Stops(0), 2048);
            |Session(rest, Singles(n)).ps| < 2 && Session(rest, [Batch(2, 2)]).ps == ps
  {
    var ps := [Packet(1, 0, 60, Repeat<Byte>(0, 60)), Packet(2, 0, 10, Repeat<Byte>(0, 10))];
    var rest := RestOf(ps, Stops(0), 2048);
    assert rest == Rest(ps, 26, 0, false);
    StaysInside(rest, Singles(n));
    SinglesCount(rest, n);
    OneBatch(rest, 2, 2);
    assert ps[..2] == ps;
  }

  /** A batch cut short by a failed allocation and resumed is one batch with both shares. */
  lemma {:induction false} BatchResumes(rest: Rest, slots: nat, pool: nat, slots': nat, pool': nat)
    requires Min(slots, pool) <= |rest.all| && !Small(rest)
    requires !Small(After(rest, Min(slots, pool))) && Min(slots, pool) + Min(slots', pool') <= |rest.all|
    ensures Session(rest, [Batch(slots, pool), Batch(slots', pool')])
         == Outcome(rest.all[..Min(slots, pool) + Min(slots', pool')], true)
  {
    var k, m := Min(slots, pool), Min(slots', pool');
    assert [Batch(slots, pool)] + [Batch(slots', pool')] == [Batch(slots, pool), Batch(slots', pool')];
    SessionOf(rest, Batch(slots, pool), [Batch(slots', pool')]);
    OneBatch(After(rest, k), slots', pool');
    assert rest.all[..k] + rest.all[k..][..m] == rest.all[..k + m];
  }

  method RunRequest(r: Reader, request: Request, bufSize: nat) returns (out: seq<Mbuf>, inside: bool)
    requires r.Valid() && HEADROOM <= bufSize < WORD32
    modifies r
    ensures var step := Takes(RestOf(old(r.left), old(r.end), bufSize), Asked(request));
            && (inside <==> step.inside)
            && (inside ==>
                  && r.Valid() && r.left == LeftAfter(old(r.left), step.n)
                     && r.end == EndAfter(old(r.left), old(r.end), step.n)
                  && out == DeliveredAll(RestOf(old(r.left), old(r.end), bufSize).all, bufSize, r.nano)[..step.n])
  {
    ghost var all := RestOf(r.left, r.end, bufSize).all;
    ghost var outs := DeliveredAll(all, bufSize, r.nano);
    match request
    case Single(available) =>
      SingleTakes(r.ptr, r.offset, r.size, r.left, r.end, bufSize, available);
      var buf;
      buf, inside := r.ReadSingle(bufSize, available);
      out := if buf.Some? then [buf.value] else [];
      if inside && buf.Some? { DeliveredAt(all, bufSize, r.nano, 0); }
    case Batch(slots, pool) =>
      var bufs := new Option<Mbuf>[slots](_ => None);
      var k;
      k, inside := r.Read(bufs, bufSize, pool);
      out := [];
      if inside {
        for i := 0 to k
          invariant out == outs[..i]
        {
          out := out + [bufs[i].value];
        }
      }
  }

  /** Runs a sequence of requests on a reader, up to one that leaves the file. */
  method RunSession(r: Reader, requests: seq<Request>, bufSize: nat) returns (out: seq<Mbuf>, inside: bool)
    requires r.Valid() && HEADROOM <= bufSize < WORD32
    modifies r
    ensures var outcome := Session(RestOf(old(r.left), old(r.end), bufSize), requests);
            && (inside <==> outcome.inside)
            && (inside ==> r.Valid() && out == DeliveredAll(outcome.ps, bufSize, r.nano))
    decreases |requests|
  {
    if requests == [] { return [], true; }
    ghost var rest := RestOf(r.left, r.end, bufSize);
    ghost var n := Takes(rest, Asked(requests[0])).n;
    RestAfter(r.left, r.end, bufSize, n);
    out, inside := RunRequest(r, requests[0], bufSize);
    if inside {
      var more;
      more, inside := RunSession(r, requests[1..], bufSize);
      out := out + more;
      DeliveredPrefix(rest.all, bufSize, r.nano, n);
      DeliveredAppend(rest.all[..n], Session(After(rest, n), requests[1..]).ps, bufSize, r.nano);
    }
  }

  lemma {:induction false} DeliveredPrefix(ps: seq<Packet>, bufSize: nat, nano: bool, n: nat)
    requires bufSize >= HEADROOM && n <= |ps|
    ensures DeliveredAll(ps[..n], bufSize, nano) == DeliveredAll(ps, bufSize, nano)[..n]
  {
    DeliveredAppend(ps[..n], ps[n..], bufSize, nano);
    assert ps[..n] + ps[n..] == ps;
  }

  /** What was written is what is read: in order, and whatever follows the file in memory. */
  method RoundTrip(w: Writer, beyond: seq<Byte>, requests: seq<Request>, bufSize: nat)
      returns (out: seq<Mbuf>, inside: bool)
    requires w.Valid() && |beyond| >= 2 * RECORD_HEADER && HEADROOM <= bufSize < WORD32
    ensures inside && out == DeliveredAll(Session(RestOf(w.written, Stops(0), bufSize), requests).ps, bufSize, false)
  {
    var file := w.ptr[..w.offset];
    var mapping := file + beyond;
    Spliced(file, FileHeader(), Records(w.written), beyond);
    WriterHeaderAccepted(Records(w.written) + beyond);
    ParsedRecords(mapping, FILE_HEADER, |file| - FILE_HEADER, w.written);
    var r := new Reader(mapping, |file|);
    StaysInside(RestOf(w.written, Stops(0), bufSize), requests);
    out, inside := RunSession(r, requests, bufSize);
  }

  lemma Spliced(file: seq<Byte>, head: seq<Byte>, recs: seq<Byte>, beyond: seq<Byte>)
    requires file == head + recs
    ensures file + beyond == head + (recs + beyond)
    ensures (file + beyond)[|head|..|head| + (|file| - |head|)] == recs
  {
  }

  /** The reader takes the writer's header, and its timestamps as microseconds. */
  lemma WriterHeaderAccepted(rest: seq<Byte>)
    ensures ReadHeader(FileHeader() + rest) == Accepted(false)
  {
    var m, b, c := Bytes32(TCPDUMP_MAGIC), [2, 0, 4, 0] + Bytes32(0) + Bytes32(0) + Bytes32(0x40000), Bytes32(1);
    assert FileHeader() == m + b + c;
    BytesValue(TCPDUMP_MAGIC);
    BytesValue(1);
    assert b[..4] == [2, 0, 4, 0];
    HeaderAccepted(m, b, c, rest);
  }

  lemma HeaderAccepted(m: seq<Byte>, b: seq<Byte>, c: seq<Byte>, rest: seq<Byte>)
    requires |m| == 4 && |b| == 16 && |c| == 4
    requires Load32(m, 0) == TCPDUMP_MAGIC && b[..4] == [2, 0, 4, 0] && Load32(c, 0) == 1
    ensures ReadHeader(m + b + c + rest) == Accepted(false)
  {
    var f := m + b + c + rest;
    assert f[0..4] == m[0..4] && f[20..24] == c[0..4];
    SameLoad(f, 0, m, 0);
    SameLoad(f, 20, c, 0);
    assert f[4..8] == b[..4];
  }

  // ---------------------------------------------------------------------------
  // What a file's bytes decide
  // ---------------------------------------------------------------------------

  /** Two mappings of one file, with whatever follows it. */
  predicate SameFile(a: seq<Byte>, b: seq<Byte>, size: nat) {
    Mapped(a, size) && Mapped(b, size) && a[..size] == b[..size]
  }

  lemma SameSlice(a: seq<Byte>, b: seq<Byte>, size: nat, i: nat, j: nat)
    requires SameFile(a, b, size) && i <= j <= size
    ensures a[i..j] == b[i..j]
  {
    assert a[i..j] == a[..size][i..j];
    assert b[i..j] == b[..size][i..j];
  }

  lemma SameWord(a: seq<Byte>, b: seq<Byte>, size: nat, at: nat)
    requires SameFile(a, b, size) && at + 4 <= size
    ensures Load32(a, at) == Load32(b, at)
  {
    SameSlice(a, b, size, at, at + 4);
    SameLoad(a, at, b, at);
  }

  lemma SameHeader(a: seq<Byte>, b: seq<Byte>, size: nat, offset: nat)
    requires SameFile(a, b, size) && offset + RECORD_HEADER <= size
    ensures HeaderAt(a, offset) == HeaderAt(b, offset)
  {
    SameWord(a, b, size, offset);
    SameWord(a, b, size, offset + 4);
    SameWord(a, b, size, offset + 8);
    SameWord(a, b, size, offset + 12);
  }

  /** The same header, and the same first n bytes of data. */
  predicate SamePart(p: Packet, q: Packet, n: nat) {
    && p.sec == q.sec && p.usec == q.usec && p.origLen == q.origLen
    && |p.data| == |q.data| && n <= |p.data| && p.data[..n] == q.data[..n]
  }

  lemma SameMbuf(p: Packet, q: Packet, n: nat, bufSize: nat, nano: bool)
    requires SamePart(p, q, n) && bufSize >= HEADROOM && Min(|p.data|, bufSize - HEADROOM) <= n
    ensures Delivered(p, bufSize, nano) == Delivered(q, bufSize, nano)
  {
    var x, y := Content(p, bufSize), Content(q, bufSize);
    assert |x| == |y|;
    forall i | 0 <= i < |x| ensures x[i] == y[i] {
      if i < |p.data| { assert p.data[i] == p.data[..n][i] == q.data[..n][i] == q.data[i]; }
    }
  }

  /** The same end, as far as it is in the file. */
  predicate SameEnd(e: End, f: End) {
    && !e.Past? && !f.Past? && e.cut == f.cut
    && (e.cut >= RECORD_HEADER ==>
          (e.CutOff? <==> f.CutOff?) && (e.CutOff? ==> SamePart(e.packet, f.packet, e.cut - RECORD_HEADER)))
  }

  lemma {:induction false} SameLast(a: seq<Byte>, b: seq<Byte>, offset: nat, remaining: nat)
    requires SameFile(a, b, offset + remaining) && SizeAt(a, offset) > remaining
    ensures SizeAt(b, offset) > remaining && Parsed(a, offset, remaining) == Parsed(b, offset, remaining) == []
    ensures SameEnd(EndOf(a, offset, remaining), EndOf(b, offset, remaining))
  {
    if remaining >= RECORD_HEADER {
      SameHeader(a, b, offset + remaining, offset);
      SameSlice(a, b, offset + remaining, offset + RECORD_HEADER, offset + remaining);
      if Included(a, offset) < remaining {
        var n := remaining - RECORD_HEADER;
        assert PacketAt(a, offset).data[..n] == a[offset + RECORD_HEADER..offset + remaining];
        assert PacketAt(b, offset).data[..n] == b[offset + RECORD_HEADER..offset + remaining];
      }
    }
  }

  lemma SamePacket(a: seq<Byte>, b: seq<Byte>, offset: nat, remaining: nat)
    requires SameFile(a, b, offset + remaining) && SizeAt(a, offset) <= remaining
    ensures SizeAt(b, offset) == SizeAt(a, offset) && PacketAt(a, offset) == PacketAt(b, offset)
  {
    SameHeader(a, b, offset + remaining, offset);
    SameSlice(a, b, offset + remaining, offset + RECORD_HEADER, offset + SizeAt(a, offset));
  }

  lemma {:induction false} SameParsed(a: seq<Byte>, b: seq<Byte>, offset: nat, remaining: nat)
    requires SameFile(a, b, offset + remaining)
    ensures Parsed(a, offset, remaining) == Parsed(b, offset, remaining)
    ensures SameEnd(EndOf(a, offset, remaining), EndOf(b, offset, remaining))
    decreases remaining
  {
    var n := SizeAt(a, offset);
    if n > remaining { SameLast(a, b, offset, remaining); }
    else {
      SamePacket(a, b, offset, remaining);
      ParsedOne(a, offset, remaining, n);
      ParsedOne(b, offset, remaining, n);
      EndOne(a, offset, remaining, n);
      EndOne(b, offset, remaining, n);
      SameParsed(a, b, offset + n, remaining - n);
    }
  }

  /** Two rests with buffers alike, as far as they are in the file. */
  predicate SameRest(r: Rest, s: Rest) { |r.all| == |s.all| && r.last == s.last && r.after == s.after }

  lemma {:induction false} SameEndRests(left: seq<Packet>, e: End, f: End, bufSize: nat, nano: bool)
    requires SameEnd(e, f) && bufSize >= HEADROOM
    ensures var r, s := RestOf(left, e, bufSize), RestOf(left, f, bufSize);
            SameRest(r, s) && DeliveredAll(r.all, bufSize, nano) == DeliveredAll(s.all, bufSize, nano)
  {
    if e.CutOff? && CopyFits(e, bufSize) {
      SameMbuf(e.packet, f.packet, e.cut - RECORD_HEADER, bufSize, nano);
      DeliveredAppend(left, [e.packet], bufSize, nano);
      DeliveredAppend(left, [f.packet], bufSize, nano);
    }
  }

  lemma {:induction false} SameSession(r: Rest, s: Rest, requests: seq<Request>)
    requires SameRest(r, s) && Session(r, requests).inside && Session(s, requests).inside
    ensures |Session(r, requests).ps| == |Session(s, requests).ps|
    decreases |requests|
  {
    if requests != [] {
      var n := Takes(r, Asked(requests[0])).n;
      SameSession(After(r, n), After(s, n), requests[1..]);
    }
  }

  /**
   A session that stays in the file delivers what the file's bytes say, whatever follows them in
   memory: the same session on another mapping of the file delivers the same buffers.
   */
  lemma {:induction false} FileDecides(
    a: seq<Byte>, b: seq<Byte>, offset: nat, remaining: nat, bufSize: nat, nano: bool, requests: seq<Request>)
    requires SameFile(a, b, offset + remaining) && bufSize >= HEADROOM
    ensures var r := Session(RestOf(Parsed(a, offset, remaining), EndOf(a, offset, remaining), bufSize), requests);
            var s := Session(RestOf(Parsed(b, offset, remaining), EndOf(b, offset, remaining), bufSize), requests);
            r.inside && s.inside ==> DeliveredAll(r.ps, bufSize, nano) == DeliveredAll(s.ps, bufSize, nano)
  {
    SameParsed(a, b, offset, remaining);
    var left, e, f := Parsed(a, offset, remaining), EndOf(a, offset, remaining), EndOf(b, offset, remaining);
    var r, s := RestOf(left, e, bufSize), RestOf(left, f, bufSize);
    SameEndRests(left, e, f, bufSize, nano);
    if Session(r, requests).inside && Session(s, requests).inside {
      SameSession(r, s, requests);
      SessionIsPrefix(r, requests);
      SessionIsPrefix(s, requests);
      DeliveredPrefix(r.all, bufSize, nano, |Session(r, requests).ps|);
      DeliveredPrefix(s.all, bufSize, nano, |Session(s, requests).ps|);
    }
  }

  /** A record whose last bytes are missing. */
  lemma {:induction false} CutRecord(pcap: seq<Byte>, offset: nat, p: Packet, missing: nat)
    requires Fits(p) && 0 < missing <= |p.data| && offset + |Record(p)| + RECORD_HEADER <= |pcap|
    requires pcap[offset..offset + |Record(p)|] == Record(p)
    ensures var cut := |Record(p)| - missing;
            && Parsed(pcap, offset, cut) == []
            && EndOf(pcap, offset, cut) == if missing < RECORD_HEADER then CutOff(cut, p) else Stops(cut)
  {
    assert Records([p]) == Record(p) by { assert [p][1..] == []; }
    FirstRecord(pcap, offset, |Record(p)|, [p]);
  }

  /**
   A file of one record whose last bytes are missing. It is read within the file if and only if as
   many bytes are missing as a header has, or fewer than 32 are left, or the buffer leaves out as many
   of the data. In the other cases the buffer holds what follows the file in memory.
   */
  method ReadCutRecord(p: Packet, missing: nat, beyond: seq<Byte>, bufSize: nat)
      returns (buf: Option<Mbuf>, inside: bool)
    requires Fits(p) && 0 < missing <= |p.data| && |beyond| >= 2 * RECORD_HEADER && HEADROOM <= bufSize < WORD32
    ensures inside <==> missing >= RECORD_HEADER || |p.data| + RECORD_HEADER - missing < 32
                        || Min(|p.data|, bufSize - HEADROOM) + missing <= |p.data|
    ensures buf.Some? <==> missing < RECORD_HEADER && |p.data| + RECORD_HEADER - missing >= 32
    ensures buf.Some? ==> buf.value == Delivered(p, bufSize, false)
  {
    var mapping := FileHeader() + (Record(p) + beyond);
    WriterHeaderAccepted(Record(p) + beyond);
    Spliced(FileHeader() + Record(p), FileHeader(), Record(p), beyond);
    CutRecord(mapping, FILE_HEADER, p, missing);
    var r := new Reader(mapping, FILE_HEADER + |Record(p)| - missing);
    buf, inside := r.ReadSingle(bufSize, true);
  }

  /**
   With buffers of 2048 bytes: a record of 100 bytes of which 90 are there is read beyond the file,
   one of 4000 bytes of which 3994 are there is not.
   */
  method ReadCutFiles(beyond: seq<Byte>) returns (buf: Option<Mbuf>, inside: bool, buf': Option<Mbuf>, inside': bool)
    requires |beyond| >= 32
    ensures buf.Some? && !inside
    ensures buf'.Some? && inside' && buf'.value.data == Repeat<Byte>(7, 1920)
  {
    buf, inside := ReadCutRecord(Packet(0, 0, 100, Repeat<Byte>(7, 100)), 10, beyond, 2048);
    buf', inside' := ReadCutRecord(Packet(0, 0, 4000, Repeat<Byte>(7, 4000)), 6, beyond, 2048);
  }
}
