/**
 The single-producer single-consumer queue (readerwriterqueue.h, `ReaderWriterQueue`) as a
 transition system: a circular list of ring buffers, one producer, one consumer.

 A step holds at most one access to a location that the other side also uses; what a side reads of
 its own variables goes with the step before. Memory is sequentially consistent.

 A block's indices are kept unbounded: `deq` elements were taken out of it and |log| put in, so that
 the code's `front` is deq % size and its `tail` is |log| % size; `seenDeq` and `seenEnq` are the
 stale copies localFront and localTail in the same form. Comparisons in the steps use the reduced
 values only, and IndexStep and PowersOfTwo.MaskIsModulo tie `(i + 1) & sizeMask` to them.

 Auxiliary: `log` beyond its length, `ring` (the blocks in list order, starting at frontBlock),
 `k` (the position of tailBlock in it), `enqueued`, `dequeued`, `peeked` and the lengths the
 program counters remember. No step's choice depends on them.
 */
module SpscQueue {
  import opened Basics
  import opened Modular
  import opened PowersOfTwo

  type Value = int
  type Id = nat

  datatype Block = Block(
    size: nat,
    data: seq<Value>,
    deq: nat,
    log: seq<Value>,
    seenDeq: nat,
    seenEnq: nat,
    next: Id)

  datatype ProducerPc =
    | ProducerIdle
    | LoadFront(v: Value, canAlloc: bool)                            // 432
    | Write(v: Value)                                                // 435-436
    | Publish(v: Value)                                              // 439
    | LoadFrontBlock(v: Value, canAlloc: bool, held: nat)            // 443
    | LoadNextFront(v: Value)                                        // 453
    | WriteNext(v: Value)                                            // 462-463
    | PublishNext(v: Value)                                          // 465
    | Allocate(v: Value)                                             // 472-486
    | SetTailBlock(v: Value)                                         // 468, 495

  datatype Op = Dequeue | Pop | Peek

  datatype ConsumerPc =
    | ConsumerIdle
    | LoadTail(op: Op)                                               // 213, 296, 338
    | Read(op: Op)                                                   // 218-220, 299, 342-343
    | StoreFront(op: Op, v: Value)                                   // 225, 348
    | LoadTailBlock(op: Op, wasEmpty: bool)                          // 227, 301, 350
    | ReloadTail(op: Op)                                             // 231, 304, 353
    | LoadNext(op: Op)                                               // 241, 312, 362
    | LoadNextTail(op: Op, next: Id)                                 // 247, 365
    | SetFrontBlock(op: Op, next: Id)                                // 257, 372
    | PeekNext(next: Id)                                             // 314-318

  datatype Pointer = NullPointer | PointerTo(id: Id, slot: nat)

  datatype State = State(
    blocks: seq<Block>,
    frontBlock: Id,
    tailBlock: Id,
    largestBlockSize: nat,
    maxBlockSize: nat,
    producer: ProducerPc,
    consumer: ConsumerPc,
    ring: seq<Id>,
    k: nat,
    enqueued: seq<Value>,
    dequeued: seq<Value>,
    peeked: Pointer,
    initialBlocks: nat,
    smallestBlock: nat)

  datatype Action =
    | CallEnqueue(v: Value, canAlloc: bool)     // enqueue, try_enqueue
    | CallConsume(op: Op)                       // try_dequeue, pop, peek
    | ProducerStep(allocates: bool)             // allocates: whether malloc succeeds, if it is asked
    | ConsumerStep

  function Front(b: Block): nat requires b.size > 0 { b.deq % b.size }
  function Tail(b: Block): nat requires b.size > 0 { |b.log| % b.size }
  function LocalFront(b: Block): nat requires b.size > 0 { b.seenDeq % b.size }
  function LocalTail(b: Block): nat requires b.size > 0 { b.seenEnq % b.size }
  function NextTail(b: Block): nat requires b.size > 0 { (|b.log| + 1) % b.size }

  /** Every id names a block with a buffer of its size. */
  predicate WellFormed(s: State) {
    && s.frontBlock < |s.blocks| && s.tailBlock < |s.blocks|
    && (forall i {:trigger s.blocks[i]} :: 0 <= i < |s.blocks| ==>
          s.blocks[i].size > 0 && |s.blocks[i].data| == s.blocks[i].size && s.blocks[i].next < |s.blocks|)
    && (s.consumer.LoadNextTail? || s.consumer.SetFrontBlock? || s.consumer.PeekNext? ==>
          s.consumer.next < |s.blocks|)
  }

  /** WellFormed, and the ring lists block ids. */
  predicate Shaped(s: State) {
    && WellFormed(s)
    && s.k < |s.ring| == |s.blocks|
    && (forall j {:trigger s.ring[j]} :: 0 <= j < |s.ring| ==> s.ring[j] < |s.blocks|)
  }

  predicate Enabled(s: State, a: Action) {
    match a
    case CallEnqueue(_, _) => s.producer.ProducerIdle?
    case CallConsume(_) => s.consumer.ConsumerIdle?
    case ProducerStep(_) => !s.producer.ProducerIdle?
    case ConsumerStep => !s.consumer.ConsumerIdle?
  }

  function Put(s: State, id: Id, b: Block): State
    requires id < |s.blocks|
  {
    s.(blocks := s.blocks[id := b])
  }

  /** The slot the next element of a block goes to is written. */
  function Written(b: Block, v: Value): Block
    requires b.size > 0 && |b.data| == b.size
  {
    b.(data := b.data[Tail(b) := v])
  }

  /** The tail index moves past the written slot. */
  function Published(b: Block, v: Value): Block { b.(log := b.log + [v]) }

  function NewBlockSize(s: State): nat {
    if s.largestBlockSize >= s.maxBlockSize then s.largestBlockSize else s.largestBlockSize * 2
  }

  // ---------------------------------------------------------------------------
  // Producer steps (inner_enqueue)
  // ---------------------------------------------------------------------------

  function DoCallEnqueue(s: State, v: Value, canAlloc: bool): State
    requires WellFormed(s)
  {
    var b := s.blocks[s.tailBlock];
    s.(producer := if NextTail(b) != LocalFront(b) then Write(v) else LoadFront(v, canAlloc))
  }

  function DoLoadFront(s: State, v: Value, canAlloc: bool): State
    requires WellFormed(s)
  {
    var b := s.blocks[s.tailBlock];
    Put(s, s.tailBlock, b.(seenDeq := b.deq))
      .(producer := if NextTail(b) != Front(b) then Write(v) else LoadFrontBlock(v, canAlloc, |Queue(s)|))
  }

  function DoLoadFrontBlock(s: State, v: Value, canAlloc: bool): State
    requires WellFormed(s)
  {
    s.(producer := if s.blocks[s.tailBlock].next != s.frontBlock then LoadNextFront(v)
                   else if canAlloc then Allocate(v) else ProducerIdle)
  }

  function DoLoadNextFront(s: State, v: Value): State
    requires WellFormed(s)
  {
    var id := s.blocks[s.tailBlock].next;
    Put(s, id, s.blocks[id].(seenDeq := s.blocks[id].deq)).(producer := WriteNext(v))
  }

  function DoSetTailBlock(s: State, v: Value): State
    requires WellFormed(s)
  {
    s.(tailBlock := s.blocks[s.tailBlock].next, producer := ProducerIdle, k := s.k + 1, enqueued := s.enqueued + [v])
  }

  /** A block made for v, which is in its first slot (480-483). */
  function FreshBlock(size: nat, v: Value, next: Id): Block {
    Block(size, if size > 0 then Repeat(0, size)[0 := v] else [], 0, [v], 0, 1, next)
  }

  function DoAllocate(s: State, v: Value): State
    requires Shaped(s)
  {
    var size, id, t := NewBlockSize(s), |s.blocks|, s.blocks[s.tailBlock];
    var b := FreshBlock(size, v, t.next);
    s.(largestBlockSize := size,
       blocks := s.blocks[s.tailBlock := t.(next := id)] + [b],
       ring := s.ring[..s.k + 1] + [id] + s.ring[s.k + 1..],
       producer := SetTailBlock(v))
  }

  function DoProducer(s: State, allocates: bool): State
    requires Shaped(s)
  {
    var t := s.blocks[s.tailBlock];
    match s.producer
    case ProducerIdle => s
    case LoadFront(v, canAlloc) => DoLoadFront(s, v, canAlloc)
    case Write(v) => Put(s, s.tailBlock, Written(t, v)).(producer := Publish(v))
    case Publish(v) =>
      Put(s, s.tailBlock, Published(t, v)).(producer := ProducerIdle, enqueued := s.enqueued + [v])
    case LoadFrontBlock(v, canAlloc, _) => DoLoadFrontBlock(s, v, canAlloc)
    case LoadNextFront(v) => DoLoadNextFront(s, v)
    case WriteNext(v) => Put(s, t.next, Written(s.blocks[t.next], v)).(producer := PublishNext(v))
    case PublishNext(v) => Put(s, t.next, Published(s.blocks[t.next], v)).(producer := SetTailBlock(v))
    case Allocate(v) => if allocates then DoAllocate(s, v) else s.(producer := ProducerIdle)
    case SetTailBlock(v) => DoSetTailBlock(s, v)
  }

  // ---------------------------------------------------------------------------
  // Consumer steps (try_dequeue, pop, peek)
  // ---------------------------------------------------------------------------

  function DoCallConsume(s: State, op: Op): State
    requires WellFormed(s)
  {
    var b := s.blocks[s.frontBlock];
    s.(consumer := if Front(b) != LocalTail(b) then Read(op) else LoadTail(op))
  }

  function DoLoadTail(s: State, op: Op): State
    requires WellFormed(s)
  {
    var b := s.blocks[s.frontBlock];
    Put(s, s.frontBlock, b.(seenEnq := |b.log|))
      .(consumer := if Front(b) != Tail(b) then Read(op) else LoadTailBlock(op, Queue(s) == []))
  }

  function DoReloadTail(s: State, op: Op): State
    requires WellFormed(s)
  {
    var b := s.blocks[s.frontBlock];
    Put(s, s.frontBlock, b.(seenEnq := |b.log|))
      .(consumer := if Front(b) != Tail(b) then Read(op) else LoadNext(op))
  }

  function DoRead(s: State, op: Op): State
    requires WellFormed(s)
  {
    var b := s.blocks[s.frontBlock];
    if op == Peek then s.(consumer := ConsumerIdle, peeked := PointerTo(s.frontBlock, Front(b)))
    else s.(consumer := StoreFront(op, b.data[Front(b)]))
  }

  function DoStoreFront(s: State, op: Op, v: Value): State
    requires WellFormed(s)
  {
    var b := s.blocks[s.frontBlock];
    Put(s, s.frontBlock, b.(deq := b.deq + 1))
      .(consumer := ConsumerIdle, dequeued := s.dequeued + [v], peeked := NullPointer)
  }

  function DoSetFrontBlock(s: State, op: Op, next: Id): State {
    s.(frontBlock := next, consumer := Read(op),
       ring := if s.ring == [] then [] else s.ring[1..] + [s.ring[0]],
       k := if s.k == 0 then 0 else s.k - 1)
  }

  function DoConsumer(s: State): State
    requires WellFormed(s)
  {
    match s.consumer
    case ConsumerIdle => s
    case LoadTail(op) => DoLoadTail(s, op)
    case Read(op) => DoRead(s, op)
    case StoreFront(op, v) => DoStoreFront(s, op, v)
    case LoadTailBlock(op, _) => s.(consumer := if s.frontBlock != s.tailBlock then ReloadTail(op) else ConsumerIdle)
    case ReloadTail(op) => DoReloadTail(s, op)
    case LoadNext(op) =>
      var next := s.blocks[s.frontBlock].next;
      s.(consumer := if op == Peek then PeekNext(next) else LoadNextTail(op, next))
    case LoadNextTail(op, next) =>
      var b := s.blocks[next];
      Put(s, next, b.(seenEnq := |b.log|)).(consumer := SetFrontBlock(op, next))
    case SetFrontBlock(op, next) => DoSetFrontBlock(s, op, next)
    case PeekNext(next) =>
      s.(consumer := ConsumerIdle, peeked := PointerTo(next, Front(s.blocks[next])))
  }

  function Do(s: State, a: Action): State
    requires Shaped(s) && Enabled(s, a)
  {
    match a
    case CallEnqueue(v, canAlloc) => DoCallEnqueue(s, v, canAlloc)
    case CallConsume(op) => DoCallConsume(s, op)
    case ProducerStep(allocates) => DoProducer(s, allocates)
    case ConsumerStep => DoConsumer(s)
  }

  // ---------------------------------------------------------------------------
  // The abstract queue
  // ---------------------------------------------------------------------------

  /** The elements of a block that were put in and not taken out. */
  function Contents(b: Block): seq<Value> {
    if b.deq <= |b.log| then b.log[b.deq..] else []
  }

  function Part(blocks: seq<Block>, id: Id): seq<Value> { if id < |blocks| then Contents(blocks[id]) else [] }

  /** The contents of the named blocks, one after the other. */
  function Cat(blocks: seq<Block>, ids: seq<Id>): seq<Value> {
    if ids == [] then []
    else Part(blocks, ids[0]) + Cat(blocks, ids[1..])
  }

  /** The queue: the contents of the blocks from frontBlock to tailBlock. */
  function Queue(s: State): seq<Value> {
    if s.k + 1 <= |s.ring| then Cat(s.blocks, s.ring[..s.k + 1]) else []
  }

  // ---------------------------------------------------------------------------
  // The invariant
  // ---------------------------------------------------------------------------

  /** next of the block at position i is the block at the following position, round the ring. */
  predicate LinkOk(s: State, i: nat)
    requires Shaped(s) && i < |s.ring|
  {
    s.blocks[s.ring[i]].next == s.ring[if i + 1 < |s.ring| then i + 1 else 0]
  }

  ghost predicate RingOk(s: State) {
    && Shaped(s) && NoDup(s.ring)
    && (forall i {:trigger LinkOk(s, i)} :: 0 <= i < |s.ring| ==> LinkOk(s, i))
    && s.frontBlock == s.ring[0] && s.tailBlock == s.ring[s.k]
  }

  predicate BlockOk(b: Block, smallest: nat) {
    && 2 <= b.size && smallest <= b.size && |b.data| == b.size
    && b.seenDeq <= b.deq <= b.seenEnq <= |b.log|
    && |b.log| - b.seenDeq < b.size
    && forall i {:trigger b.log[i]} :: b.deq <= i < |b.log| ==> b.data[i % b.size] == b.log[i]
  }

  predicate Full(b: Block) { |b.log| - b.deq == b.size - 1 }

  predicate IsEmpty(b: Block) { |b.log| == b.deq }

  /** How full the block at position j of the ring is. */
  predicate PositionOk(s: State, j: nat)
    requires Shaped(s) && j < |s.ring|
  {
    var b := s.blocks[s.ring[j]];
    && (1 <= j <= s.k ==> b.deq < |b.log|)
    && (1 <= j < s.k ==> Full(b))
    && (s.k < j ==> if j == s.k + 1 && s.producer.SetTailBlock? then Contents(b) == [s.producer.v] else IsEmpty(b))
  }

  ghost predicate BlocksOk(s: State)
    requires Shaped(s)
  {
    && (forall i {:trigger BlockOk(s.blocks[i], s.smallestBlock)} :: 0 <= i < |s.blocks| ==>
          BlockOk(s.blocks[i], s.smallestBlock))
    && (forall j {:trigger PositionOk(s, j)} :: 0 <= j < |s.ring| ==> PositionOk(s, j))
  }

  /** The blocks that a queue with all blocks but the front one full holds at least. */
  function Guaranteed(s: State, blocks: nat): int {
    (if blocks > 1 then blocks - 1 else 1) * (s.smallestBlock - 1)
  }

  predicate ProducerOk(s: State)
    requires Shaped(s)
  {
    var t := s.blocks[s.ring[s.k]];
    match s.producer
    case Write(v) => |t.log| + 1 - t.seenDeq < t.size
    case Publish(v) => |t.log| + 1 - t.seenDeq < t.size && t.data[Tail(t)] == v
    case LoadFrontBlock(_, _, held) =>
      && (s.k > 0 ==> Full(t))
      && (s.k == |s.ring| - 1 ==> held >= Guaranteed(s, |s.ring|))
    case Allocate(_) => s.k > 0 ==> Full(t)
    case LoadNextFront(_) => s.k + 1 < |s.ring| && (s.k > 0 ==> Full(t))
    case WriteNext(_) =>
      && s.k + 1 < |s.ring| && (s.k > 0 ==> Full(t))
      && s.blocks[s.ring[s.k + 1]].seenDeq == s.blocks[s.ring[s.k + 1]].deq
    case PublishNext(v) =>
      && s.k + 1 < |s.ring| && (s.k > 0 ==> Full(t))
      && s.blocks[s.ring[s.k + 1]].seenDeq == s.blocks[s.ring[s.k + 1]].deq
      && s.blocks[s.ring[s.k + 1]].data[Tail(s.blocks[s.ring[s.k + 1]])] == v
    case SetTailBlock(_) => s.k + 1 < |s.ring| && (s.k > 0 ==> Full(t))
    case _ => true
  }

  predicate ConsumerOk(s: State)
    requires Shaped(s)
  {
    var f := s.blocks[s.ring[0]];
    match s.consumer
    case Read(_) => f.deq < f.seenEnq
    case StoreFront(_, v) => f.deq < f.seenEnq <= |f.log| && v == f.log[f.deq]
    case LoadTailBlock(_, wasEmpty) => !wasEmpty ==> s.k > 0
    case ReloadTail(_) => s.k > 0
    case LoadNext(_) => s.k > 0 && IsEmpty(f)
    case LoadNextTail(op, next) => s.k > 0 && IsEmpty(f) && next == s.ring[1] && op != Peek
    case SetFrontBlock(op, next) =>
      s.k > 0 && IsEmpty(f) && next == s.ring[1] && s.blocks[next].deq < s.blocks[next].seenEnq && op != Peek
    case PeekNext(next) => s.k > 0 && IsEmpty(f) && next == s.ring[1]
    case _ => true
  }

  /** The pointer handed out by peek is the front slot of the first block with elements. */
  predicate PeekOk(s: State)
    requires Shaped(s)
  {
    s.peeked.PointerTo? ==>
      var f := s.blocks[s.ring[0]];
      if IsEmpty(f) then s.k > 0 && s.peeked == PointerTo(s.ring[1], Front(s.blocks[s.ring[1]]))
      else s.peeked == PointerTo(s.ring[0], Front(f))
  }

  ghost predicate Inv(s: State) {
    && RingOk(s)
    && BlocksOk(s)
    && s.initialBlocks <= |s.ring| && 2 <= s.smallestBlock <= s.largestBlockSize
    && ProducerOk(s) && ConsumerOk(s) && PeekOk(s)
    && s.enqueued == s.dequeued + Queue(s)
  }

  // ---------------------------------------------------------------------------
  // Index arithmetic
  // ---------------------------------------------------------------------------

  /** Advancing a reduced index is reducing the advanced one: `(i + 1) & sizeMask`. */
  lemma IndexStep(i: nat, k: nat)
    ensures BitAnd(i % Pow2(k) + 1, Pow2(k) - 1) == (i + 1) % Pow2(k)
  {
    var size := Pow2(k);
    MaskIsModulo(i % size + 1, k);
    ModAdd(i, 1, size);
  }

  /** Two indices at most one turn apart fall on the same slot only at distance 0 or one turn. */
  lemma SameSlot(a: nat, b: nat, size: nat)
    requires size > 0 && a <= b <= a + size
    ensures a % size == b % size <==> b == a || b == a + size
  {
    if a < b < a + size { ModDistinct(a, b, size); }
    if b == a + size { ModTurn(a, size); }
  }

  // ---------------------------------------------------------------------------
  // The queue as a concatenation
  // ---------------------------------------------------------------------------

  lemma CatStep(blocks: seq<Block>, id: Id, ids: seq<Id>)
    ensures Cat(blocks, [id] + ids) == Part(blocks, id) + Cat(blocks, ids)
  {
    assert ([id] + ids)[1..] == ids;
  }

  lemma SplitHead(a: seq<Id>, b: seq<Id>)
    requires a != []
    ensures a == [a[0]] + a[1..] && a + b == [a[0]] + (a[1..] + b)
  {
  }

  lemma {:induction false} CatConcat(blocks: seq<Block>, a: seq<Id>, b: seq<Id>)
    ensures Cat(blocks, a + b) == Cat(blocks, a) + Cat(blocks, b)
  {
    if a == [] {
      assert a + b == b;
    } else {
      var id, rest := a[0], a[1..];
      CatConcat(blocks, rest, b);
      SplitHead(a, b);
      CatStep(blocks, id, rest);
      CatStep(blocks, id, rest + b);
      Associative(Part(blocks, id), Cat(blocks, rest), Cat(blocks, b));
    }
  }

  lemma {:induction false} CatFrame(blocks: seq<Block>, blocks': seq<Block>, ids: seq<Id>)
    requires forall id {:trigger id in ids} :: id in ids ==>
               id < |blocks| && id < |blocks'| && Contents(blocks[id]) == Contents(blocks'[id])
    ensures Cat(blocks, ids) == Cat(blocks', ids)
  {
    if ids != [] {
      assert ids[0] in ids;
      forall id | id in ids[1..]
        ensures id < |blocks| && id < |blocks'| && Contents(blocks[id]) == Contents(blocks'[id])
      {
        assert id in ids;
      }
      CatFrame(blocks, blocks', ids[1..]);
    }
  }

  lemma CatOne(blocks: seq<Block>, id: Id)
    requires id < |blocks|
    ensures Cat(blocks, [id]) == Contents(blocks[id])
  {
    assert [id][1..] == [];
  }

  lemma QueueSplitLast(s: State)
    requires RingOk(s)
    ensures Queue(s) == Cat(s.blocks, s.ring[..s.k]) + Contents(s.blocks[s.ring[s.k]])
  {
    assert s.ring[..s.k + 1] == s.ring[..s.k] + [s.ring[s.k]];
    CatConcat(s.blocks, s.ring[..s.k], [s.ring[s.k]]);
    CatOne(s.blocks, s.ring[s.k]);
  }

  lemma QueueSplitFirst(s: State)
    requires RingOk(s)
    ensures Queue(s) == Contents(s.blocks[s.ring[0]]) + Cat(s.blocks, s.ring[1..s.k + 1])
  {
    assert s.ring[..s.k + 1] == [s.ring[0]] + s.ring[1..s.k + 1];
    CatConcat(s.blocks, [s.ring[0]], s.ring[1..s.k + 1]);
    CatOne(s.blocks, s.ring[0]);
  }

  /** Replacing a block that is not named changes nothing; nor does one with the same contents. */
  lemma CatPut(s: State, ids: seq<Id>, id: Id, b: Block)
    requires id < |s.blocks| && (id in ids ==> Contents(b) == Contents(s.blocks[id]))
    requires forall i {:trigger i in ids} :: i in ids ==> i < |s.blocks|
    ensures Cat(s.blocks[id := b], ids) == Cat(s.blocks, ids)
  {
    CatFrame(s.blocks, s.blocks[id := b], ids);
  }

  // ---------------------------------------------------------------------------
  // Framing: one block changes, the ring stays
  // ---------------------------------------------------------------------------

  /** s' differs from s in the block at position p and in the program counters. */
  ghost predicate PutsAt(s: State, s': State, p: nat)
    requires RingOk(s) && p < |s.ring|
  {
    && |s'.blocks| == |s.blocks|
    && s'.blocks == s.blocks[s.ring[p] := s'.blocks[s.ring[p]]]
    && s'.blocks[s.ring[p]].next == s.blocks[s.ring[p]].next
    && s'.frontBlock == s.frontBlock && s'.tailBlock == s.tailBlock
    && s'.ring == s.ring && s'.k == s.k
    && s'.smallestBlock == s.smallestBlock && s'.initialBlocks == s.initialBlocks
    && s'.largestBlockSize == s.largestBlockSize
  }

  lemma PutRing(s: State, s': State, p: nat)
    requires RingOk(s) && p < |s.ring| && PutsAt(s, s', p) && WellFormed(s')
    ensures RingOk(s')
  {
    forall i | 0 <= i < |s'.ring| ensures LinkOk(s', i) { assert LinkOk(s, i); }
  }

  lemma PutBlocks(s: State, s': State, p: nat)
    requires RingOk(s) && BlocksOk(s) && p < |s.ring| && PutsAt(s, s', p) && Shaped(s')
    requires BlockOk(s'.blocks[s.ring[p]], s.smallestBlock) && PositionOk(s', p)
    requires SameHandOver(s, s') || p == s.k + 1
    ensures BlocksOk(s')
  {
    forall i | 0 <= i < |s'.blocks| ensures BlockOk(s'.blocks[i], s'.smallestBlock) {
      assert BlockOk(s.blocks[i], s.smallestBlock);
    }
    forall j | 0 <= j < |s'.ring| ensures PositionOk(s', j) {
      if j != p { OtherPosition(s, s', p, j); }
    }
  }

  predicate SameHandOver(s: State, s': State) {
    && s'.producer.SetTailBlock? == s.producer.SetTailBlock?
    && (s.producer.SetTailBlock? ==> s'.producer.v == s.producer.v)
  }

  lemma OtherPosition(s: State, s': State, p: nat, j: nat)
    requires RingOk(s) && p < |s.ring| && PutsAt(s, s', p) && Shaped(s')
    requires j < |s.ring| && j != p && PositionOk(s, j)
    requires SameHandOver(s, s') || p == s.k + 1
    ensures PositionOk(s', j)
  {
    assert s.ring[j] != s.ring[p];
  }

  lemma QueuePut(s: State, s': State, p: nat)
    requires RingOk(s) && p < |s.ring| && PutsAt(s, s', p)
    requires p <= s.k ==> Contents(s'.blocks[s.ring[p]]) == Contents(s.blocks[s.ring[p]])
    ensures Queue(s') == Queue(s)
  {
    var ids := s.ring[..s.k + 1];
    if s.ring[p] in ids {
      var j :| 0 <= j < |ids| && ids[j] == s.ring[p];
      assert s.ring[j] == s.ring[p];
    }
    CatPut(s, ids, s.ring[p], s'.blocks[s.ring[p]]);
  }

  /** A step that replaces the block at position p; what is left to check is local. */
  lemma PutKeeps(s: State, s': State, p: nat)
    requires Inv(s) && p < |s.ring| && PutsAt(s, s', p) && WellFormed(s')
    requires BlockOk(s'.blocks[s.ring[p]], s.smallestBlock) && PositionOk(s', p)
    requires SameHandOver(s, s') || p == s.k + 1
    requires ProducerOk(s') && ConsumerOk(s') && PeekOk(s')
    requires s'.enqueued == s'.dequeued + Queue(s')
    ensures Inv(s')
  {
    PutRing(s, s', p);
    PutBlocks(s, s', p);
  }

  /** A step that changes only the program counters and the peeked pointer. */
  lemma PcKeeps(s: State, s': State)
    requires Inv(s) && s' == s.(producer := s'.producer, consumer := s'.consumer, peeked := s'.peeked)
    requires WellFormed(s') && SameHandOver(s, s')
    requires ProducerOk(s') && ConsumerOk(s') && PeekOk(s')
    ensures Inv(s')
  {
    assert BlockOk(s.blocks[s.ring[0]], s.smallestBlock) && PositionOk(s, 0);
    PutKeeps(s, s', 0);
  }

  lemma ConsumerPcKeeps(s: State, c: ConsumerPc, peeked: Pointer)
    requires Inv(s)
    requires WellFormed(s.(consumer := c, peeked := peeked))
    requires ConsumerOk(s.(consumer := c, peeked := peeked)) && PeekOk(s.(consumer := c, peeked := peeked))
    ensures Inv(s.(consumer := c, peeked := peeked))
  {
    PcKeeps(s, s.(consumer := c, peeked := peeked));
  }

  lemma ProducerPcKeeps(s: State, p: ProducerPc)
    requires Inv(s) && !p.SetTailBlock? && !s.producer.SetTailBlock? && ProducerOk(s.(producer := p))
    ensures Inv(s.(producer := p))
  {
    PcKeeps(s, s.(producer := p));
  }

  // ---------------------------------------------------------------------------
  // Producer steps keep the invariant
  // ---------------------------------------------------------------------------

  lemma CallEnqueueKeeps(s: State, v: Value, canAlloc: bool)
    requires Inv(s) && s.producer.ProducerIdle?
    ensures Inv(DoCallEnqueue(s, v, canAlloc))
  {
    var b := s.blocks[s.tailBlock];
    assert BlockOk(b, s.smallestBlock);
    SameSlot(b.seenDeq, |b.log| + 1, b.size);
    ProducerPcKeeps(s, DoCallEnqueue(s, v, canAlloc).producer);
  }

  lemma LoadFrontKeeps(s: State, v: Value, canAlloc: bool, allocates: bool)
    requires Inv(s) && s.producer == LoadFront(v, canAlloc)
    ensures Inv(DoProducer(s, allocates))
  {
    var s' := DoLoadFront(s, v, canAlloc);
    var b := s.blocks[s.tailBlock];
    assert BlockOk(b, s.smallestBlock) && PositionOk(s, s.k);
    SameSlot(b.deq, |b.log| + 1, b.size);
    if s'.producer.LoadFrontBlock? { HeldAtLoad(s); }
    QueuePut(s, s', s.k);
    PutKeeps(s, s', s.k);
  }

  /** With the tail block full, all blocks but the front one are full. */
  lemma HeldAtLoad(s: State)
    requires Inv(s) && Full(s.blocks[s.ring[s.k]])
    ensures s.k == |s.ring| - 1 ==> |Queue(s)| >= Guaranteed(s, |s.ring|)
  {
    QueueSplitFirst(s);
    if s.k == 0 { assert BlockOk(s.blocks[s.ring[0]], s.smallestBlock); }
    else if s.k == |s.ring| - 1 { LastIsFull(s); }
  }

  lemma BehindIsFull(s: State)
    requires Inv(s) && Full(s.blocks[s.ring[s.k]]) && 1 <= s.k
    ensures |Cat(s.blocks, s.ring[1..s.k + 1])| >= Times(s.k, s.smallestBlock - 1)
  {
    var ids := s.ring[1..s.k + 1];
    forall i | 0 <= i < |ids| ensures |Part(s.blocks, ids[i])| >= s.smallestBlock - 1 {
      assert ids[i] == s.ring[i + 1];
      FullContents(s, i + 1);
    }
    CatAtLeast(s.blocks, ids, s.smallestBlock - 1);
  }

  lemma GuaranteedIs(s: State, n: nat)
    requires n >= 1 && s.smallestBlock >= 1
    ensures Guaranteed(s, n + 1) == Times(n, s.smallestBlock - 1)
  {
    TimesIs(n, s.smallestBlock - 1);
  }

  lemma LastIsFull(s: State)
    requires Inv(s) && Full(s.blocks[s.ring[s.k]]) && 1 <= s.k == |s.ring| - 1
    ensures |Cat(s.blocks, s.ring[1..s.k + 1])| >= Guaranteed(s, |s.ring|)
  {
    BehindIsFull(s);
    GuaranteedIs(s, s.k);
  }

  lemma CatFirst(s: State, lo: nat, hi: nat)
    requires RingOk(s) && lo < hi <= |s.ring|
    ensures Cat(s.blocks, s.ring[lo..hi]) == Contents(s.blocks[s.ring[lo]]) + Cat(s.blocks, s.ring[lo + 1..hi])
  {
    assert s.ring[lo..hi] == [s.ring[lo]] + s.ring[lo + 1..hi];
    CatConcat(s.blocks, [s.ring[lo]], s.ring[lo + 1..hi]);
    CatOne(s.blocks, s.ring[lo]);
  }

  /** n times m, added up. */
  function Times(n: nat, m: nat): nat { if n == 0 then 0 else m + Times(n - 1, m) }

  lemma {:induction false} TimesIs(n: nat, m: nat)
    ensures Times(n, m) == n * m
  {
    if n > 0 { TimesIs(n - 1, m); }
  }

  lemma FullContents(s: State, j: nat)
    requires RingOk(s) && BlocksOk(s) && 1 <= j <= s.k && Full(s.blocks[s.ring[s.k]])
    ensures |Contents(s.blocks[s.ring[j]])| >= s.smallestBlock - 1
  {
    assert PositionOk(s, j) && BlockOk(s.blocks[s.ring[j]], s.smallestBlock);
  }

  lemma AtLeast(a: seq<Value>, b: seq<Value>, m: nat, n: nat)
    requires |a| >= m && |b| >= Times(n, m)
    ensures |a + b| >= Times(n + 1, m)
  {
  }

  lemma {:induction false} CatAtLeast(blocks: seq<Block>, ids: seq<Id>, m: nat)
    requires forall i {:trigger ids[i]} :: 0 <= i < |ids| ==> |Part(blocks, ids[i])| >= m
    ensures |Cat(blocks, ids)| >= Times(|ids|, m)
  {
    if ids != [] {
      var id, rest := ids[0], ids[1..];
      assert ids == [id] + rest && |Part(blocks, id)| >= m;
      CatStep(blocks, id, rest);
      CatAtLeast(blocks, rest, m);
      AtLeast(Part(blocks, id), Cat(blocks, rest), m, |rest|);
    }
  }

  lemma WriteBlock(b: Block, v: Value, smallest: nat)
    requires BlockOk(b, smallest)
    ensures BlockOk(Written(b, v), smallest) && Written(b, v).data[Tail(b)] == v
  {
    forall i | b.deq <= i < |b.log| ensures i % b.size != Tail(b) { SameSlot(i, |b.log|, b.size); }
  }

  lemma PublishBlock(b: Block, v: Value, smallest: nat)
    requires BlockOk(b, smallest) && |b.log| + 1 - b.seenDeq < b.size && b.data[Tail(b)] == v
    ensures BlockOk(Published(b, v), smallest)
  {
  }

  lemma WriteKeeps(s: State, v: Value, allocates: bool)
    requires Inv(s) && s.producer == Write(v)
    ensures Inv(DoProducer(s, allocates))
  {
    var s' := DoProducer(s, allocates);
    var b := s.blocks[s.tailBlock];
    assert BlockOk(b, s.smallestBlock) && PositionOk(s, s.k);
    WriteBlock(b, v, s.smallestBlock);
    QueuePut(s, s', s.k);
    PutKeeps(s, s', s.k);
  }

  lemma PublishKeeps(s: State, v: Value, allocates: bool)
    requires Inv(s) && s.producer == Publish(v)
    ensures Inv(DoProducer(s, allocates))
  {
    var s' := DoProducer(s, allocates);
    var b := s.blocks[s.tailBlock];
    assert BlockOk(b, s.smallestBlock) && PositionOk(s, s.k);
    PublishBlock(b, v, s.smallestBlock);
    PutRing(s, s', s.k);
    AppendAtTail(s, s', v);
    PutKeeps(s, s', s.k);
  }

  lemma OnlyThere(ring: seq<Id>, i: nat)
    requires NoDup(ring) && i < |ring|
    ensures ring[i] !in ring[..i] && ring[i] !in ring[i + 1..]
  {
    forall j | 0 <= j < |ring| && j != i ensures ring[j] != ring[i] {}
  }

  lemma AppendAtTail(s: State, s': State, v: Value)
    requires RingOk(s) && RingOk(s') && PutsAt(s, s', s.k)
    requires s'.blocks[s.ring[s.k]] == Published(s.blocks[s.ring[s.k]], v)
    requires s.blocks[s.ring[s.k]].deq <= |s.blocks[s.ring[s.k]].log|
    ensures Queue(s') == Queue(s) + [v]
  {
    QueueSplitLast(s);
    QueueSplitLast(s');
    var ids := s.ring[..s.k];
    OnlyThere(s.ring, s.k);
    CatPut(s, ids, s.ring[s.k], s'.blocks[s.ring[s.k]]);
  }

  lemma LoadFrontBlockKeeps(s: State, v: Value, canAlloc: bool, held: nat, allocates: bool)
    requires Inv(s) && s.producer == LoadFrontBlock(v, canAlloc, held)
    ensures Inv(DoProducer(s, allocates))
  {
    assert LinkOk(s, s.k);
    ProducerPcKeeps(s, DoProducer(s, allocates).producer);
  }

  lemma LoadNextFrontKeeps(s: State, v: Value, allocates: bool)
    requires Inv(s) && s.producer == LoadNextFront(v)
    ensures Inv(DoProducer(s, allocates))
    ensures var b := s.blocks[s.blocks[s.tailBlock].next]; Front(b) == Tail(b)
  {
    var s', p := DoProducer(s, allocates), s.k + 1;
    assert LinkOk(s, s.k) && PositionOk(s, p) && BlockOk(s.blocks[s.ring[p]], s.smallestBlock);
    assert s.ring[p] != s.ring[s.k];
    QueuePut(s, s', p);
    PutKeeps(s, s', p);
  }

  lemma WriteNextKeeps(s: State, v: Value, allocates: bool)
    requires Inv(s) && s.producer == WriteNext(v)
    ensures Inv(DoProducer(s, allocates))
  {
    var s', p := DoProducer(s, allocates), s.k + 1;
    var b := s.blocks[s.ring[p]];
    assert LinkOk(s, s.k) && PositionOk(s, p) && BlockOk(b, s.smallestBlock);
    assert s.ring[p] != s.ring[s.k];
    WriteBlock(b, v, s.smallestBlock);
    QueuePut(s, s', p);
    PutKeeps(s, s', p);
  }

  lemma PublishNextKeeps(s: State, v: Value, allocates: bool)
    requires Inv(s) && s.producer == PublishNext(v)
    ensures Inv(DoProducer(s, allocates))
  {
    var s', p := DoProducer(s, allocates), s.k + 1;
    var b := s.blocks[s.ring[p]];
    assert LinkOk(s, s.k) && PositionOk(s, p) && BlockOk(b, s.smallestBlock);
    assert s.ring[p] != s.ring[s.k];
    PublishBlock(b, v, s.smallestBlock);
    QueuePut(s, s', p);
    PutKeeps(s, s', p);
  }

  lemma SetTailRing(s: State, v: Value)
    requires RingOk(s) && s.k + 1 < |s.ring|
    ensures RingOk(DoSetTailBlock(s, v))
  {
    var s' := DoSetTailBlock(s, v);
    assert LinkOk(s, s.k);
    forall i | 0 <= i < |s'.ring| ensures LinkOk(s', i) { assert LinkOk(s, i); }
  }

  lemma SetTailQueue(s: State, v: Value)
    requires RingOk(s) && RingOk(DoSetTailBlock(s, v)) && s.k + 1 < |s.ring|
    requires Contents(s.blocks[s.ring[s.k + 1]]) == [v]
    ensures Queue(DoSetTailBlock(s, v)) == Queue(s) + [v]
  {
    QueueSplitLast(DoSetTailBlock(s, v));
  }

  lemma SetTailPositions(s: State, v: Value)
    requires RingOk(s) && BlocksOk(s) && s.producer == SetTailBlock(v) && ProducerOk(s)
    requires Shaped(DoSetTailBlock(s, v))
    ensures BlocksOk(DoSetTailBlock(s, v))
  {
    var s' := DoSetTailBlock(s, v);
    forall i | 0 <= i < |s'.blocks| ensures BlockOk(s'.blocks[i], s'.smallestBlock) {
      assert BlockOk(s.blocks[i], s.smallestBlock);
    }
    forall j | 0 <= j < |s'.ring| ensures PositionOk(s', j) { assert PositionOk(s, j); }
  }

  lemma SetTailThreads(s: State, v: Value)
    requires Inv(s) && s.producer == SetTailBlock(v) && s.k + 1 < |s.ring|
    requires RingOk(DoSetTailBlock(s, v)) && BlocksOk(DoSetTailBlock(s, v))
    ensures ProducerOk(DoSetTailBlock(s, v)) && ConsumerOk(DoSetTailBlock(s, v)) && PeekOk(DoSetTailBlock(s, v))
  {
  }

  /** The block about to become the tail block holds just the element published in it. */
  lemma PendingContents(s: State, v: Value)
    requires Inv(s) && s.producer == SetTailBlock(v)
    ensures s.k + 1 < |s.ring| && Contents(s.blocks[s.ring[s.k + 1]]) == [v]
  {
    assert PositionOk(s, s.k + 1);
  }

  lemma SetTailFifo(s: State, v: Value)
    requires WellFormed(s) && s.enqueued == s.dequeued + Queue(s) && Queue(DoSetTailBlock(s, v)) == Queue(s) + [v]
    requires s.k + 1 < |s.ring|
    ensures var s' := DoSetTailBlock(s, v); s'.enqueued == s'.dequeued + Queue(s')
  {
    assert s.enqueued + [v] == s.dequeued + (Queue(s) + [v]);
  }

  lemma SetTailBlockKeeps(s: State, v: Value, allocates: bool)
    requires Inv(s) && s.producer == SetTailBlock(v)
    ensures Inv(DoProducer(s, allocates))
  {
    PendingContents(s, v);
    SetTailRing(s, v);
    SetTailQueue(s, v);
    SetTailFifo(s, v);
    SetTailPositions(s, v);
    SetTailThreads(s, v);
  }

  lemma AllocateLink(s: State, v: Value, i: nat)
    requires RingOk(s) && s.largestBlockSize > 0 && s.producer == Allocate(v) && i <= |s.ring|
    requires Shaped(DoAllocate(s, v))
    ensures LinkOk(DoAllocate(s, v), i)
  {
    if i < s.k {
      assert LinkOk(s, i) && s.ring[i] != s.ring[s.k];
    } else if i > s.k + 1 {
      assert LinkOk(s, i - 1) && s.ring[i - 1] != s.ring[s.k];
    } else {
      assert LinkOk(s, s.k);
    }
  }

  lemma AllocateRing(s: State, v: Value)
    requires RingOk(s) && s.largestBlockSize > 0 && s.producer == Allocate(v)
    ensures RingOk(DoAllocate(s, v))
  {
    var s' := DoAllocate(s, v);
    forall i | 0 <= i < |s'.ring| ensures LinkOk(s', i) { AllocateLink(s, v, i); }
  }

  lemma AllocateBlocks(s: State, v: Value)
    requires RingOk(s) && BlocksOk(s) && s.producer == Allocate(v)
    requires 2 <= s.smallestBlock <= s.largestBlockSize && Shaped(DoAllocate(s, v))
    ensures var s' := DoAllocate(s, v);
            forall i {:trigger s'.blocks[i]} :: 0 <= i < |s'.blocks| ==> BlockOk(s'.blocks[i], s'.smallestBlock)
  {
    var s' := DoAllocate(s, v);
    forall i | 0 <= i < |s'.blocks| ensures BlockOk(s'.blocks[i], s'.smallestBlock) {
      if i < |s.blocks| { assert BlockOk(s.blocks[i], s.smallestBlock); }
      else { FreshBlockOk(NewBlockSize(s), v, s.blocks[s.tailBlock].next, s.smallestBlock); }
    }
  }

  lemma FreshBlockOk(size: nat, v: Value, next: Id, smallest: nat)
    requires 2 <= size && smallest <= size
    ensures BlockOk(FreshBlock(size, v, next), smallest)
  {
    assert 0 % size == 0;
  }

  lemma AllocatePosition(s: State, v: Value, j: nat)
    requires RingOk(s) && BlocksOk(s) && s.producer == Allocate(v) && j < |s.ring| + 1
    requires 2 <= s.smallestBlock <= s.largestBlockSize && Shaped(DoAllocate(s, v))
    ensures PositionOk(DoAllocate(s, v), j)
  {
    if j <= s.k { assert PositionOk(s, j); }
    else if j > s.k + 1 { assert PositionOk(s, j - 1); }
  }

  lemma AllocatePositions(s: State, v: Value)
    requires RingOk(s) && BlocksOk(s) && s.producer == Allocate(v)
    requires 2 <= s.smallestBlock <= s.largestBlockSize && Shaped(DoAllocate(s, v))
    ensures BlocksOk(DoAllocate(s, v))
  {
    var s' := DoAllocate(s, v);
    AllocateBlocks(s, v);
    forall j | 0 <= j < |s'.ring| ensures PositionOk(s', j) { AllocatePosition(s, v, j); }
  }

  lemma AllocateQueue(s: State, v: Value)
    requires RingOk(s)
    ensures Queue(DoAllocate(s, v)) == Queue(s)
  {
    var s' := DoAllocate(s, v);
    assert s'.ring[..s.k + 1] == s.ring[..s.k + 1];
    forall id | id in s.ring[..s.k + 1]
      ensures id < |s.blocks| && Contents(s.blocks[id]) == Contents(s'.blocks[id])
    {
      var j :| 0 <= j <= s.k && s.ring[j] == id;
    }
    CatFrame(s.blocks, s'.blocks, s.ring[..s.k + 1]);
  }

  lemma AllocateKeeps(s: State, v: Value)
    requires Inv(s) && s.producer == Allocate(v)
    ensures Inv(DoProducer(s, true))
  {
    AllocateRing(s, v);
    AllocatePositions(s, v);
    AllocateQueue(s, v);
  }

  lemma AllocateFails(s: State, v: Value)
    requires Inv(s) && s.producer == Allocate(v)
    ensures Inv(DoProducer(s, false))
  {
    ProducerPcKeeps(s, ProducerIdle);
  }

  // ---------------------------------------------------------------------------
  // Consumer steps keep the invariant
  // ---------------------------------------------------------------------------

  lemma CallConsumeKeeps(s: State, op: Op)
    requires Inv(s) && s.consumer.ConsumerIdle?
    ensures Inv(DoCallConsume(s, op))
  {
    var b := s.blocks[s.frontBlock];
    assert BlockOk(b, s.smallestBlock);
    SameSlot(b.deq, b.seenEnq, b.size);
    ConsumerPcKeeps(s, DoCallConsume(s, op).consumer, s.peeked);
  }

  /** The queue is empty exactly when the front block is and no block lies ahead. */
  lemma EmptyQueue(s: State)
    requires Inv(s)
    ensures Queue(s) == [] <==> IsEmpty(s.blocks[s.ring[0]]) && s.k == 0
  {
    QueueSplitFirst(s);
    assert BlockOk(s.blocks[s.ring[0]], s.smallestBlock);
    if s.k > 0 {
      CatFirst(s, 1, s.k + 1);
      assert PositionOk(s, 1);
    }
  }

  /** The producer's facts do not depend on what the consumer changes in a block. */
  lemma ProducerFrame(s: State, s': State, p: nat)
    requires RingOk(s) && p < |s.ring| && PutsAt(s, s', p) && Shaped(s') && ProducerOk(s)
    requires s'.producer == s.producer
    requires var b, b' := s.blocks[s.ring[p]], s'.blocks[s.ring[p]];
             && b'.size == b.size && b'.data == b.data && b'.log == b.log && b'.seenDeq == b.seenDeq
             && (b'.deq == b.deq || (p == 0 && s.k == 0))
    ensures ProducerOk(s')
  {
  }

  lemma LoadTailKeeps(s: State, op: Op)
    requires Inv(s) && s.consumer == LoadTail(op)
    ensures Inv(DoConsumer(s))
  {
    var s' := DoLoadTail(s, op);
    var b := s.blocks[s.frontBlock];
    assert BlockOk(b, s.smallestBlock) && PositionOk(s, 0);
    SameSlot(b.deq, |b.log|, b.size);
    EmptyQueue(s);
    QueuePut(s, s', 0);
    ProducerFrame(s, s', 0);
    PutKeeps(s, s', 0);
  }

  lemma ReloadTailKeeps(s: State, op: Op)
    requires Inv(s) && s.consumer == ReloadTail(op)
    ensures Inv(DoConsumer(s))
  {
    var s' := DoReloadTail(s, op);
    var b := s.blocks[s.frontBlock];
    assert BlockOk(b, s.smallestBlock) && PositionOk(s, 0);
    SameSlot(b.deq, |b.log|, b.size);
    QueuePut(s, s', 0);
    ProducerFrame(s, s', 0);
    PutKeeps(s, s', 0);
  }

  lemma ReadKeeps(s: State, op: Op)
    requires Inv(s) && s.consumer == Read(op)
    ensures Inv(DoConsumer(s))
  {
    var b := s.blocks[s.frontBlock];
    assert BlockOk(b, s.smallestBlock);
    ReadsWritten(b, s.smallestBlock);
    if op == Peek { ConsumerPcKeeps(s, ConsumerIdle, PointerTo(s.frontBlock, Front(b))); }
    else { ConsumerPcKeeps(s, StoreFront(op, b.log[b.deq]), s.peeked); }
  }

  /** The front slot of a non-empty block holds its oldest element. */
  lemma ReadsWritten(b: Block, smallest: nat)
    requires BlockOk(b, smallest) && b.deq < |b.log|
    ensures b.data[Front(b)] == b.log[b.deq]
  {
  }

  lemma StoreFrontQueue(s: State, op: Op, v: Value)
    requires Inv(s) && s.consumer == StoreFront(op, v)
    ensures var s' := DoStoreFront(s, op, v);
            && RingOk(s') && Queue(s) == [v] + Queue(s') && s'.enqueued == s'.dequeued + Queue(s')
  {
    var s' := DoStoreFront(s, op, v);
    PutRing(s, s', 0);
    RemoveAtFront(s, s', v);
    Associative(s.dequeued, [v], Queue(s'));
  }

  lemma StoreFrontKeeps(s: State, op: Op, v: Value)
    requires Inv(s) && s.consumer == StoreFront(op, v)
    ensures Inv(DoConsumer(s))
  {
    var s' := DoStoreFront(s, op, v);
    var b := s.blocks[s.frontBlock];
    assert BlockOk(b, s.smallestBlock) && PositionOk(s, 0);
    StoreFrontBlock(b, s.smallestBlock);
    if s.k > 0 { StoreFrontProducer(s, s'); } else { ProducerFrame(s, s', 0); }
    StoreFrontQueue(s, op, v);
    PutKeeps(s, s', 0);
  }

  lemma StoreFrontBlock(b: Block, smallest: nat)
    requires BlockOk(b, smallest) && b.deq < b.seenEnq
    ensures BlockOk(b.(deq := b.deq + 1), smallest)
  {
  }

  lemma StoreFrontProducer(s: State, s': State)
    requires RingOk(s) && s.k > 0 && PutsAt(s, s', 0) && Shaped(s') && ProducerOk(s) && s'.producer == s.producer
    ensures ProducerOk(s')
  {
    assert s.ring[0] != s.ring[s.k];
    assert s.k + 1 < |s.ring| ==> s.ring[0] != s.ring[s.k + 1];
  }

  lemma RestFrame(s: State, s': State)
    requires RingOk(s) && PutsAt(s, s', 0)
    ensures Cat(s'.blocks, s.ring[1..s.k + 1]) == Cat(s.blocks, s.ring[1..s.k + 1])
  {
    var ids := s.ring[1..s.k + 1];
    OnlyThere(s.ring, 0);
    assert forall id {:trigger id in ids} :: id in ids ==> id in s.ring[1..];
    CatPut(s, ids, s.ring[0], s'.blocks[s.ring[0]]);
  }

  lemma LosesFirst(b: Block, v: Value)
    requires b.deq < |b.log| && b.log[b.deq] == v
    ensures Contents(b) == [v] + Contents(b.(deq := b.deq + 1))
  {
  }

  lemma RemoveAtFront(s: State, s': State, v: Value)
    requires RingOk(s) && RingOk(s') && PutsAt(s, s', 0)
    requires var b := s.blocks[s.ring[0]];
             b.deq < |b.log| && b.log[b.deq] == v && s'.blocks[s.ring[0]] == b.(deq := b.deq + 1)
    ensures Queue(s) == [v] + Queue(s')
  {
    var b, b' := s.blocks[s.ring[0]], s'.blocks[s.ring[0]];
    var rest := Cat(s.blocks, s.ring[1..s.k + 1]);
    assert Queue(s) == Contents(b) + rest by { QueueSplitFirst(s); }
    assert Queue(s') == Contents(b') + rest by {
      QueueSplitFirst(s');
      RestFrame(s, s');
    }
    LosesFirst(b, v);
    Associative([v], Contents(b'), rest);
  }

  lemma Associative(a: seq<Value>, b: seq<Value>, c: seq<Value>)
    ensures (a + b) + c == a + (b + c)
  {
  }

  lemma LoadTailBlockKeeps(s: State, op: Op, wasEmpty: bool)
    requires Inv(s) && s.consumer == LoadTailBlock(op, wasEmpty)
    ensures Inv(DoConsumer(s))
    ensures DoConsumer(s).consumer.ConsumerIdle? ==> wasEmpty
  {
    assert s.frontBlock != s.tailBlock ==> s.k > 0;
    assert s.k > 0 ==> s.ring[0] != s.ring[s.k];
    ConsumerPcKeeps(s, DoConsumer(s).consumer, s.peeked);
  }

  lemma LoadNextKeeps(s: State, op: Op)
    requires Inv(s) && s.consumer == LoadNext(op)
    ensures Inv(DoConsumer(s))
  {
    assert LinkOk(s, 0);
    ConsumerPcKeeps(s, DoConsumer(s).consumer, s.peeked);
  }

  lemma LoadNextTailKeeps(s: State, op: Op, next: Id)
    requires Inv(s) && s.consumer == LoadNextTail(op, next)
    ensures Inv(DoConsumer(s))
    ensures Front(s.blocks[next]) != Tail(s.blocks[next])
  {
    var s' := DoConsumer(s);
    var b := s.blocks[next];
    assert BlockOk(b, s.smallestBlock) && PositionOk(s, 1);
    SameSlot(b.deq, |b.log|, b.size);
    assert s.ring[1] != s.ring[0];
    QueuePut(s, s', 1);
    PutKeeps(s, s', 1);
  }

  lemma PeekNextKeeps(s: State, next: Id)
    requires Inv(s) && s.consumer == PeekNext(next)
    ensures Inv(DoConsumer(s))
    ensures Front(s.blocks[next]) != Tail(s.blocks[next])
  {
    var b := s.blocks[next];
    assert BlockOk(b, s.smallestBlock) && PositionOk(s, 1);
    SameSlot(b.deq, |b.log|, b.size);
    ConsumerPcKeeps(s, ConsumerIdle, PointerTo(next, Front(b)));
  }

  lemma SetFrontRing(s: State, op: Op, next: Id)
    requires RingOk(s) && s.k > 0 && next == s.ring[1] && s.consumer == SetFrontBlock(op, next)
    ensures RingOk(DoSetFrontBlock(s, op, next))
  {
    var s' := DoSetFrontBlock(s, op, next);
    var n := |s.ring|;
    forall i | 0 <= i < n ensures LinkOk(s', i) { assert LinkOk(s, if i + 1 < n then i + 1 else 0); }
  }

  lemma SetFrontPositions(s: State, op: Op, next: Id)
    requires RingOk(s) && BlocksOk(s) && s.k > 0 && IsEmpty(s.blocks[s.ring[0]])
    requires s.producer.SetTailBlock? ==> s.k + 1 < |s.ring|
    requires Shaped(DoSetFrontBlock(s, op, next))
    ensures BlocksOk(DoSetFrontBlock(s, op, next))
  {
    var s' := DoSetFrontBlock(s, op, next);
    forall i | 0 <= i < |s'.blocks| ensures BlockOk(s'.blocks[i], s'.smallestBlock) {
      assert BlockOk(s.blocks[i], s.smallestBlock);
    }
    forall j | 0 <= j < |s'.ring| ensures PositionOk(s', j) {
      if j + 1 < |s.ring| { assert PositionOk(s, j + 1); }
    }
  }

  lemma SetFrontQueue(s: State, op: Op, next: Id)
    requires RingOk(s) && s.k > 0 && IsEmpty(s.blocks[s.ring[0]])
    ensures Queue(DoSetFrontBlock(s, op, next)) == Queue(s)
  {
    var s' := DoSetFrontBlock(s, op, next);
    QueueSplitFirst(s);
    assert s'.ring[..s'.k + 1] == s.ring[1..s.k + 1];
  }

  lemma SetFrontLocal(s: State, op: Op, next: Id)
    requires RingOk(s) && s.consumer == SetFrontBlock(op, next) && Shaped(DoSetFrontBlock(s, op, next))
    requires ProducerOk(s) && ConsumerOk(s) && PeekOk(s)
    requires s.blocks[s.ring[1]].seenEnq <= |s.blocks[s.ring[1]].log|
    ensures var s' := DoSetFrontBlock(s, op, next); ProducerOk(s') && ConsumerOk(s') && PeekOk(s')
  {
    var s' := DoSetFrontBlock(s, op, next);
    assert s'.ring[s'.k] == s.ring[s.k];
    assert s.k + 1 < |s.ring| ==> s'.ring[s'.k + 1] == s.ring[s.k + 1];
  }

  lemma SetFrontBlockKeeps(s: State, op: Op, next: Id)
    requires Inv(s) && s.consumer == SetFrontBlock(op, next)
    ensures Inv(DoConsumer(s))
  {
    assert PositionOk(s, 1) && BlockOk(s.blocks[s.ring[1]], s.smallestBlock);
    SetFrontRing(s, op, next);
    SetFrontPositions(s, op, next);
    SetFrontQueue(s, op, next);
    SetFrontLocal(s, op, next);
  }

  lemma ProducerStepKeeps(s: State, allocates: bool)
    requires Inv(s) && !s.producer.ProducerIdle?
    ensures Inv(DoProducer(s, allocates))
  {
    match s.producer
    case LoadFront(v, canAlloc) => LoadFrontKeeps(s, v, canAlloc, allocates);
    case Write(v) => WriteKeeps(s, v, allocates);
    case Publish(v) => PublishKeeps(s, v, allocates);
    case LoadFrontBlock(v, canAlloc, held) => LoadFrontBlockKeeps(s, v, canAlloc, held, allocates);
    case LoadNextFront(v) => LoadNextFrontKeeps(s, v, allocates);
    case WriteNext(v) => WriteNextKeeps(s, v, allocates);
    case PublishNext(v) => PublishNextKeeps(s, v, allocates);
    case Allocate(v) =>
      if allocates { AllocateKeeps(s, v); } else { AllocateFails(s, v); }
    case SetTailBlock(v) => SetTailBlockKeeps(s, v, allocates);
  }

  lemma ConsumerStepKeeps(s: State)
    requires Inv(s) && !s.consumer.ConsumerIdle?
    ensures Inv(DoConsumer(s))
  {
    match s.consumer
    case LoadTail(op) => LoadTailKeeps(s, op);
    case Read(op) => ReadKeeps(s, op);
    case StoreFront(op, v) => StoreFrontKeeps(s, op, v);
    case LoadTailBlock(op, wasEmpty) => LoadTailBlockKeeps(s, op, wasEmpty);
    case ReloadTail(op) => ReloadTailKeeps(s, op);
    case LoadNext(op) => LoadNextKeeps(s, op);
    case LoadNextTail(op, next) => LoadNextTailKeeps(s, op, next);
    case SetFrontBlock(op, next) => SetFrontBlockKeeps(s, op, next);
    case PeekNext(next) => PeekNextKeeps(s, next);
  }

  lemma StepKeeps(s: State, a: Action)
    requires Inv(s) && Enabled(s, a)
    ensures Inv(Do(s, a))
  {
    match a
    case CallEnqueue(v, canAlloc) => CallEnqueueKeeps(s, v, canAlloc);
    case CallConsume(op) => CallConsumeKeeps(s, op);
    case ProducerStep(allocates) => ProducerStepKeeps(s, allocates);
    case ConsumerStep => ConsumerStepKeeps(s);
  }

  // ---------------------------------------------------------------------------
  // Construction
  // ---------------------------------------------------------------------------

  function EmptyBlock(size: nat, next: Id): Block { Block(size, Repeat(0, size), 0, [], 0, 0, next) }

  /** n empty blocks of one size in a circle, and both sides idle. */
  ghost predicate Init(s: State, maxSize: nat) {
    var n := |s.blocks|;
    && n > 0 && s.initialBlocks == n && 2 <= s.largestBlockSize == s.smallestBlock
    && s.ring == seq(n, i => i) && s.k == 0 && s.frontBlock == s.tailBlock == 0
    && (forall i {:trigger s.blocks[i]} :: 0 <= i < n ==>
          s.blocks[i] == EmptyBlock(s.largestBlockSize, if i + 1 < n then i + 1 else 0))
    && s.producer.ProducerIdle? && s.consumer.ConsumerIdle?
    && s.enqueued == [] && s.dequeued == [] && s.peeked == NullPointer
    && IsPow2(s.largestBlockSize)
    && Guaranteed(s, n) >= maxSize
  }

  /** The constructor: one block for a small queue, otherwise one spare block of MAX_BLOCK_SIZE. */
  method Construct(maxSize: nat, maxBlockSize: nat) returns (s: State)
    requires 0 < maxSize < HALF64 && 2 <= maxBlockSize < HALF64 && IsPow2(maxBlockSize)
    ensures Init(s, maxSize) && s.maxBlockSize == maxBlockSize
    ensures |s.blocks| > 1 ==> s.largestBlockSize == maxBlockSize
  {
    var largest := CeilToPow2(maxSize + 1);
    var count := 1;
    if largest > maxBlockSize * 2 {
      count := (maxSize + maxBlockSize * 2 - 3) / (maxBlockSize - 1);
      EnoughBlocks(maxSize, maxBlockSize, count);
      largest := maxBlockSize;
    }
    var blocks: seq<Block> := [];
    for i := 0 to count
      invariant |blocks| == i
      invariant forall j {:trigger blocks[j]} :: 0 <= j < i ==>
                  blocks[j] == EmptyBlock(largest, if j + 1 < i then j + 1 else 0)
    {
      if i > 0 { blocks := blocks[i - 1 := blocks[i - 1].(next := i)]; }
      blocks := blocks + [EmptyBlock(largest, 0)];
    }
    s := State(blocks, 0, 0, largest, maxBlockSize, ProducerIdle, ConsumerIdle, seq(count, i => i), 0,
               [], [], NullPointer, count, largest);
    assert count == 1 ==> Guaranteed(s, count) == largest - 1;
  }

  /** One block more than ceil(maxSize / (MAX_BLOCK_SIZE - 1)). */
  lemma EnoughBlocks(maxSize: nat, max: nat, count: int)
    requires 2 <= max && maxSize > 0 && count == (maxSize + max * 2 - 3) / (max - 1)
    ensures count >= 2 && (count - 1) * (max - 1) >= maxSize
  {
    var m := max - 1;
    var x := maxSize + max * 2 - 3;
    assert x == count * m + x % m;
    assert count * m > x - m;
    assert (count - 1) * m == count * m - m;
    if count <= 1 { MulMono(count, 1, m); }
  }

  lemma {:induction false} EmptyCat(blocks: seq<Block>, ids: seq<Id>)
    requires forall i {:trigger i in ids} :: i in ids ==> i < |blocks| && Contents(blocks[i]) == []
    ensures Cat(blocks, ids) == []
  {
    if ids != [] {
      assert ids[0] in ids;
      forall i | i in ids[1..] ensures i < |blocks| && Contents(blocks[i]) == [] { assert i in ids; }
      EmptyCat(blocks, ids[1..]);
    }
  }

  lemma InitHolds(s: State, maxSize: nat)
    requires Init(s, maxSize)
    ensures Inv(s)
  {
    forall i | 0 <= i < |s.blocks| ensures BlockOk(s.blocks[i], s.smallestBlock) {}
    forall i | 0 <= i < |s.ring| ensures LinkOk(s, i) && PositionOk(s, i) {}
    EmptyCat(s.blocks, s.ring[..1]);
  }

  // ---------------------------------------------------------------------------
  // Theorems over every run
  // ---------------------------------------------------------------------------

  /**
   A finite run. Steps are taken only from shaped states, where no access is out of bounds;
   RunInvariant shows that every state of a run is shaped.
   */
  datatype Run = Start(last: State) | Then(prev: Run, action: Action, last: State)

  ghost predicate IsRun(r: Run, maxSize: nat) {
    match r
    case Start(s) => Init(s, maxSize)
    case Then(p, a, s) => IsRun(p, maxSize) && Shaped(p.last) && Enabled(p.last, a) && s == Do(p.last, a)
  }

  lemma {:induction false} RunInvariant(r: Run, maxSize: nat)
    requires IsRun(r, maxSize)
    ensures Inv(r.last)
  {
    match r
    case Start(s) => InitHolds(s, maxSize);
    case Then(p, a, s) =>
      RunInvariant(p, maxSize);
      StepKeeps(p.last, a);
  }

  /** First in, first out: what was dequeued, followed by the queue, is what was enqueued. */
  lemma Fifo(r: Run, maxSize: nat)
    requires IsRun(r, maxSize)
    ensures r.last.enqueued == r.last.dequeued + Queue(r.last)
    ensures r.last.dequeued <= r.last.enqueued
  {
    RunInvariant(r, maxSize);
  }

  /** Every step is a step of a plain FIFO: nothing, append the caller's value, or remove the head. */
  lemma StepRefinesFifo(r: Run, maxSize: nat, a: Action)
    requires IsRun(r, maxSize) && Enabled(r.last, a)
    ensures Shaped(r.last)
    ensures var s, s' := r.last, Do(r.last, a);
            || (Queue(s') == Queue(s) && s'.enqueued == s.enqueued && s'.dequeued == s.dequeued)
            || (a.ProducerStep? && (s.producer.Publish? || s.producer.SetTailBlock?) &&
                s'.enqueued == s.enqueued + [s.producer.v] && Queue(s') == Queue(s) + [s.producer.v])
            || (a.ConsumerStep? && s.consumer.StoreFront? &&
                s'.dequeued == s.dequeued + [s.consumer.v] && [s.consumer.v] + Queue(s') == Queue(s))
  {
    RunInvariant(r, maxSize);
    var s, s' := r.last, Do(r.last, a);
    StepKeeps(s, a);
    HistoryStep(s, a);
    if s'.enqueued == s.enqueued && s'.dequeued == s.dequeued {
      SamePrefix(s.dequeued, Queue(s), Queue(s'));
    } else if s'.dequeued == s.dequeued {
      Associative(s.dequeued, Queue(s), [s.producer.v]);
      SamePrefix(s.dequeued, Queue(s) + [s.producer.v], Queue(s'));
    } else {
      Associative(s.dequeued, [s.consumer.v], Queue(s'));
      SamePrefix(s.dequeued, Queue(s), [s.consumer.v] + Queue(s'));
    }
  }

  lemma SamePrefix(p: seq<Value>, a: seq<Value>, b: seq<Value>)
    requires p + a == p + b
    ensures a == b
  {
    assert a == (p + a)[|p|..] && b == (p + b)[|p|..];
  }

  /** What a step adds to the two histories. */
  lemma HistoryStep(s: State, a: Action)
    requires Shaped(s) && Enabled(s, a)
    ensures var s' := Do(s, a);
            || (s'.enqueued == s.enqueued && s'.dequeued == s.dequeued)
            || (a.ProducerStep? && (s.producer.Publish? || s.producer.SetTailBlock?) &&
                s'.enqueued == s.enqueued + [s.producer.v] && s'.dequeued == s.dequeued)
            || (a.ConsumerStep? && s.consumer.StoreFront? &&
                s'.dequeued == s.dequeued + [s.consumer.v] && s'.enqueued == s.enqueued)
  {
  }

  /** The run up to the consumer's last step, and to the producer's. */
  function BeforeConsumer(r: Run): Run {
    if r.Start? then r else if r.action.ConsumerStep? then r.prev else BeforeConsumer(r.prev)
  }

  function BeforeProducer(r: Run): Run {
    if r.Start? then r else if r.action.ProducerStep? then r.prev else BeforeProducer(r.prev)
  }

  /** Only the load of the front block's tail leads to the load of tailBlock. */
  lemma {:induction false} EmptySinceLoad(r: Run, maxSize: nat)
    requires IsRun(r, maxSize) && r.last.consumer.LoadTailBlock?
    ensures var q := BeforeConsumer(r).last;
            q.consumer == LoadTail(r.last.consumer.op) && (r.last.consumer.wasEmpty <==> Queue(q) == [])
  {
    if r.action.ConsumerStep? { ComesFromLoadTail(r.prev.last); }
    else {
      ConsumerUndisturbed(r.prev.last, r.action);
      EmptySinceLoad(r.prev, maxSize);
    }
  }

  lemma ComesFromLoadTail(s: State)
    requires Shaped(s) && !s.consumer.ConsumerIdle? && DoConsumer(s).consumer.LoadTailBlock?
    ensures s.consumer == LoadTail(DoConsumer(s).consumer.op) && (DoConsumer(s).consumer.wasEmpty <==> Queue(s) == [])
  {
  }

  lemma ConsumerUndisturbed(s: State, a: Action)
    requires Shaped(s) && Enabled(s, a) && !a.ConsumerStep?
    ensures Do(s, a).consumer == s.consumer || (a.CallConsume? && !Do(s, a).consumer.LoadTailBlock?)
  {
  }

  /** A dequeue that returns false saw an empty queue at the instant it loaded the front block's tail. */
  lemma FalseMeansEmpty(r: Run, maxSize: nat)
    requires IsRun(r, maxSize) && r.Then? && r.action.ConsumerStep?
    requires r.prev.last.consumer.LoadTailBlock? && r.last.consumer.ConsumerIdle?
    ensures var q := BeforeConsumer(r.prev).last;
            q.consumer == LoadTail(r.prev.last.consumer.op) && Queue(q) == []
  {
    RunInvariant(r.prev, maxSize);
    EmptySinceLoad(r.prev, maxSize);
    LoadTailBlockKeeps(r.prev.last, r.prev.last.consumer.op, r.prev.last.consumer.wasEmpty);
  }

  lemma FirstElement(s: State)
    requires Inv(s) && Queue(s) != []
    ensures var f := s.blocks[s.ring[0]];
            if !IsEmpty(f) then f.deq < |f.log| && Queue(s)[0] == f.log[f.deq]
            else s.k > 0 && var g := s.blocks[s.ring[1]]; g.deq < |g.log| && Queue(s)[0] == g.log[g.deq]
  {
    EmptyQueue(s);
    QueueSplitFirst(s);
    assert BlockOk(s.blocks[s.ring[0]], s.smallestBlock);
    if s.k > 0 {
      CatFirst(s, 1, s.k + 1);
      assert PositionOk(s, 1) && BlockOk(s.blocks[s.ring[1]], s.smallestBlock);
    }
  }

  /** The pointer from peek holds the head of the queue until the consumer removes it. */
  lemma PeekNamesHead(r: Run, maxSize: nat)
    requires IsRun(r, maxSize) && r.last.peeked.PointerTo?
    ensures var s, p := r.last, r.last.peeked;
            && Queue(s) != []
            && p.id < |s.blocks| && p.slot < |s.blocks[p.id].data| && s.blocks[p.id].data[p.slot] == Queue(s)[0]
  {
    var s := r.last;
    RunInvariant(r, maxSize);
    EmptyQueue(s);
    FirstElement(s);
    assert BlockOk(s.blocks[s.ring[0]], s.smallestBlock);
    if IsEmpty(s.blocks[s.ring[0]]) {
      assert BlockOk(s.blocks[s.ring[1]], s.smallestBlock);
      ReadsWritten(s.blocks[s.ring[1]], s.smallestBlock);
    } else {
      ReadsWritten(s.blocks[s.ring[0]], s.smallestBlock);
    }
  }

  /** What try_dequeue or pop removes is the head of the queue, hence what a peek before it named. */
  lemma RemovesHead(r: Run, maxSize: nat)
    requires IsRun(r, maxSize) && r.last.consumer.StoreFront?
    ensures Queue(r.last) != [] && Queue(r.last)[0] == r.last.consumer.v
  {
    RunInvariant(r, maxSize);
    StoreFrontQueue(r.last, r.last.consumer.op, r.last.consumer.v);
  }

  /** The assertion at 459: a block the producer moves on to is empty. */
  lemma NextBlockEmptyForProducer(r: Run, maxSize: nat)
    requires IsRun(r, maxSize) && r.last.producer.LoadNextFront?
    ensures Shaped(r.last)
    ensures var b := r.last.blocks[r.last.blocks[r.last.tailBlock].next]; Front(b) == Tail(b)
  {
    RunInvariant(r, maxSize);
    LoadNextFrontKeeps(r.last, r.last.producer.v, true);
  }

  /** The assertions at 252, 317 and 368: a block the consumer moves on to is not empty. */
  lemma NextBlockFilledForConsumer(r: Run, maxSize: nat)
    requires IsRun(r, maxSize) && (r.last.consumer.LoadNextTail? || r.last.consumer.PeekNext?)
    ensures Shaped(r.last)
    ensures var b := r.last.blocks[r.last.consumer.next]; Front(b) != Tail(b)
  {
    RunInvariant(r, maxSize);
    if r.last.consumer.LoadNextTail? { LoadNextTailKeeps(r.last, r.last.consumer.op, r.last.consumer.next); }
    else { PeekNextKeeps(r.last, r.last.consumer.next); }
  }

  /** Stale copies are safe: a write never hits an unread element, a read never an unwritten slot. */
  lemma SlotsAreSafe(r: Run, maxSize: nat)
    requires IsRun(r, maxSize)
    ensures Shaped(r.last)
    ensures r.last.producer.Write? ==>
              var b := r.last.blocks[r.last.tailBlock];
              forall i {:trigger b.log[i]} :: b.deq <= i < |b.log| ==> i % b.size != Tail(b)
    ensures r.last.consumer.Read? ==>
              var b := r.last.blocks[r.last.frontBlock]; b.deq < |b.log| && b.data[Front(b)] == b.log[b.deq]
  {
    var s := r.last;
    RunInvariant(r, maxSize);
    var t, f := s.blocks[s.tailBlock], s.blocks[s.frontBlock];
    assert BlockOk(t, s.smallestBlock) && BlockOk(f, s.smallestBlock);
    forall i | t.deq <= i < |t.log| ensures i % t.size != Tail(t) { SameSlot(i, |t.log|, t.size); }
  }

  lemma {:induction false} RunGuarantee(r: Run, maxSize: nat)
    requires IsRun(r, maxSize)
    ensures Guaranteed(r.last, r.last.initialBlocks) >= maxSize
  {
    if r.Then? {
      RunGuarantee(r.prev, maxSize);
      ConstantsKeep(r.prev.last, r.action);
    }
  }

  lemma ConstantsKeep(s: State, a: Action)
    requires Shaped(s) && Enabled(s, a)
    ensures Do(s, a).smallestBlock == s.smallestBlock && Do(s, a).initialBlocks == s.initialBlocks
  {
  }

  lemma MulMono(a: int, b: int, m: int)
    requires a <= b && 0 <= m
    ensures a * m <= b * m
  {
    assert (b - a) * m >= 0;
  }

  lemma MoreBlocks(s: State, m: nat, n: nat)
    requires m <= n && s.smallestBlock >= 1
    ensures Guaranteed(s, m) <= Guaranteed(s, n)
  {
    MulMono(if m > 1 then m - 1 else 1, if n > 1 then n - 1 else 1, s.smallestBlock - 1);
  }

  /** Only the load of `front` leads to the load of frontBlock. */
  lemma {:induction false} HeldSinceLoad(r: Run, maxSize: nat)
    requires IsRun(r, maxSize) && r.last.producer.LoadFrontBlock?
    ensures var q, p := BeforeProducer(r).last, r.last.producer;
            q.producer == LoadFront(p.v, p.canAlloc) && |Queue(q)| == p.held
  {
    if r.action.ProducerStep? { ComesFromLoadFront(r.prev.last, r.action.allocates); }
    else {
      ProducerUndisturbed(r.prev.last, r.action);
      HeldSinceLoad(r.prev, maxSize);
    }
  }

  lemma ComesFromLoadFront(s: State, allocates: bool)
    requires Shaped(s) && !s.producer.ProducerIdle? && DoProducer(s, allocates).producer.LoadFrontBlock?
    ensures var p := DoProducer(s, allocates).producer; s.producer == LoadFront(p.v, p.canAlloc) && p.held == |Queue(s)|
  {
  }

  lemma ProducerUndisturbed(s: State, a: Action)
    requires Shaped(s) && Enabled(s, a) && !a.ProducerStep?
    ensures Do(s, a).producer == s.producer || (a.CallEnqueue? && !Do(s, a).producer.LoadFrontBlock?)
  {
  }

  lemma NextIsNotFront(s: State)
    requires RingOk(s) && s.k + 1 < |s.ring|
    ensures s.blocks[s.tailBlock].next != s.frontBlock
  {
    assert LinkOk(s, s.k) && s.ring[s.k + 1] != s.ring[0];
  }

  lemma HeldIsEnough(s: State, maxSize: nat)
    requires Inv(s) && s.producer.LoadFrontBlock? && Guaranteed(s, s.initialBlocks) >= maxSize
    requires s.blocks[s.tailBlock].next == s.frontBlock
    ensures s.producer.held >= maxSize
  {
    if s.k + 1 < |s.ring| { NextIsNotFront(s); }
    MoreBlocks(s, s.initialBlocks, |s.ring|);
  }

  /**
   The capacity promised to the constructor: a try_enqueue that fails saw at least maxSize elements
   in the queue at the instant it loaded `front`, also after the queue has grown.
   */
  lemma FailedTryEnqueueMeansFull(r: Run, maxSize: nat)
    requires IsRun(r, maxSize) && r.Then? && r.action.ProducerStep?
    requires r.prev.last.producer.LoadFrontBlock? && r.last.producer.ProducerIdle?
    ensures var q := BeforeProducer(r.prev).last;
            q.producer == LoadFront(r.prev.last.producer.v, false) && |Queue(q)| >= maxSize
  {
    RunInvariant(r.prev, maxSize);
    RunGuarantee(r.prev, maxSize);
    HeldSinceLoad(r.prev, maxSize);
    HeldIsEnough(r.prev.last, maxSize);
  }

  // ---------------------------------------------------------------------------
  // Block sizes, and the whole ring
  // ---------------------------------------------------------------------------

  ghost predicate SizesOk(s: State) {
    && IsPow2(s.largestBlockSize)
    && forall i {:trigger s.blocks[i]} :: 0 <= i < |s.blocks| ==> IsPow2(s.blocks[i].size)
  }

  lemma Doubled(n: nat)
    requires IsPow2(n)
    ensures IsPow2(n * 2)
  {
    var k: nat :| n == Pow2(k);
    assert n * 2 == Pow2(k + 1);
  }

  lemma SizesKeep(s: State, a: Action)
    requires Shaped(s) && Enabled(s, a) && SizesOk(s)
    ensures SizesOk(Do(s, a))
  {
    if a.ProducerStep? && s.producer.Allocate? { Doubled(s.largestBlockSize); } else { SizesSame(s, a); }
  }

  lemma SizesSame(s: State, a: Action)
    requires Shaped(s) && Enabled(s, a) && !(a.ProducerStep? && s.producer.Allocate?)
    ensures var s' := Do(s, a);
            && s'.largestBlockSize == s.largestBlockSize && |s'.blocks| == |s.blocks|
            && forall i {:trigger s'.blocks[i]} :: 0 <= i < |s.blocks| ==> s'.blocks[i].size == s.blocks[i].size
  {
  }

  /** Every block, initial or grown, has a power of two as size, so `& sizeMask` reduces indices. */
  lemma {:induction false} SizesArePowersOfTwo(r: Run, maxSize: nat)
    requires IsRun(r, maxSize)
    ensures SizesOk(r.last)
  {
    if r.Then? {
      SizesArePowersOfTwo(r.prev, maxSize);
      SizesKeep(r.prev.last, r.action);
    }
  }

  lemma CatSnoc(s: State, i: nat)
    requires RingOk(s) && i < |s.ring|
    ensures Cat(s.blocks, s.ring[..i + 1]) == Cat(s.blocks, s.ring[..i]) + Contents(s.blocks[s.ring[i]])
  {
    assert s.ring[..i + 1] == s.ring[..i] + [s.ring[i]];
    CatConcat(s.blocks, s.ring[..i], [s.ring[i]]);
    CatOne(s.blocks, s.ring[i]);
  }

  /** Outside a hand-over the blocks past tailBlock hold nothing. */
  lemma {:induction false} WholeRing(s: State, i: nat)
    requires RingOk(s) && BlocksOk(s) && !s.producer.SetTailBlock? && s.k < i <= |s.ring|
    ensures Cat(s.blocks, s.ring[..i]) == Cat(s.blocks, s.ring[..s.k + 1])
  {
    if i > s.k + 1 {
      WholeRing(s, i - 1);
      CatSnoc(s, i - 1);
      assert PositionOk(s, i - 1);
      assert Contents(s.blocks[s.ring[i - 1]]) == [];
    }
  }
}
