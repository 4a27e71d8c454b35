/**
 One producer's sub-queue (concurrentqueue.h, `ImplicitProducer`): its circular block index, which
 the producer extends, rewinds and doubles while consumers look blocks up in it, the blocks'
 emptiness counters, and who owns each block.

 One producer thread, any number of consumers, one shared atomic access per step, sequentially
 consistent memory. A single enqueue is a bulk enqueue of one element: the same accesses in the
 same order. How consumers come by disjoint claims below tailIndex is OptimisticDequeue's subject;
 here Claim hands them out, and Composition shows that those claims are among these. What the free
 list does between taking and giving a block is FreeList's subject; here the pool is a set (PoolRefines
 in both modules shows that it is the same one), and other producers take from it, from the initial
 blocks and from the allocator, and give back, at will.

 A block number n stands for the element indices [n * BLOCK_SIZE, (n + 1) * BLOCK_SIZE).
 Auxiliary, read by no step: `items`, `delivered`, `marked`, `floor`, `high`, `live`, `place`, in a
 header `off` and `last`; `mt` and `number` in consumers' program counters.
 */
module ImplicitProducer {
  import opened Basics
  import opened BlockPool

  type Thread = nat
  type Value = int

  const BLOCK_SIZE: nat := 32
  const INVALID_BLOCK_BASE: nat := 1

  datatype Ptr = Null | At(block: Block)

  datatype Entry = Entry(key: nat, value: Ptr)

  /** A BlockIndexHeader; block number n sits in slot (n + off) mod capacity, `last` in the tail slot. */
  datatype Header = Header(capacity: nat, tail: nat, index: seq<nat>, off: int, last: int)

  datatype ProducerPc =
    | ProducerIdle
    | Check(vs: seq<Value>, got: seq<Block>)                    // 2810-2813
    | Grow(vs: seq<Value>, got: seq<Block>)                     // 2821, 2864-2906
    | StoreKey(vs: seq<Value>, got: seq<Block>)                 // 2815, 2828
    | StoreTail(vs: seq<Value>, got: seq<Block>)                // 2816, 2829
    | LoadInitial(vs: seq<Value>, got: seq<Block>)              // 2956
    | TakeInitial(vs: seq<Value>, got: seq<Block>)              // 2960-2962
    | TakeFree(vs: seq<Value>, got: seq<Block>)                 // 2996-3002
    | StoreValue(vs: seq<Value>, got: seq<Block>, b: Block)     // 2429-2445, 2592-2596
    | Write(vs: seq<Value>, got: seq<Block>, i: nat)            // 2456, 2625
    | Commit(vs: seq<Value>, got: seq<Block>)                   // 2458, 2680
    | Rewind(vs: seq<Value>, got: seq<Block>)                   // 2422, 2573
    | NullFresh(vs: seq<Value>, got: seq<Block>)                // 2423, 2574
    | Undo(vs: seq<Value>, got: seq<Block>, j: nat)             // 2578-2580
    | UndoRewind(vs: seq<Value>, got: seq<Block>, j: nat)       // 2581
    | Release(vs: seq<Value>, got: seq<Block>, j: nat)          // 2583-2586

  datatype ConsumerPc =
    | ConsumerIdle
    | LoadHeader(start: nat, end: nat)                                             // 2852
    | LoadTail(start: nat, end: nat, h: nat)                                       // 2853
    | LoadKey(start: nat, end: nat, h: nat, t: nat, mt: int)                       // 2854-2861
    | LoadValue(start: nat, end: nat, h: nat, slot: nat)                           // 2481, 2719
    | Reading(start: nat, end: nat, h: nat, slot: nat, ptr: Ptr, i: nat)           // 2509, 2723; 2512, 2763
    | NullEntry(start: nat, end: nat, h: nat, slot: nat, b: Block, number: nat)    // 2518, 2770
    | Free(start: nat, end: nat, h: nat, slot: nat, b: Block, number: nat)         // 2520, 2772

  /** Initial: in the initial pool, not handed out; Fresh: the allocator has it ready; Elsewhere: another producer's. */
  datatype Place =
    | Initial(index: nat) | Fresh | Pool | Elsewhere
    | InIndex(number: nat) | ProducerHand | ConsumerHand(who: Thread)

  /** An element handed to a consumer. */
  datatype Delivery = Delivery(index: nat, value: Value, to: Thread)

  /** The block index: all headers ever published, the newest last, and the entries they share. */
  datatype Index = Index(headers: seq<Header>, entries: seq<Entry>, floor: nat, high: int)

  datatype State = State(
    tailIndex: nat,
    headIndex: nat,
    tailBlock: Ptr,
    ix: Index,
    initial: seq<Block>,
    poolIndex: nat,
    mem: map<Block, seq<Value>>,
    count: map<Block, nat>,
    producer: ProducerPc,
    consumers: map<Thread, ConsumerPc>,
    items: seq<Value>,
    delivered: seq<Delivery>,
    marked: set<nat>,
    live: map<nat, Block>,
    place: map<Block, Place>)

  datatype Choice = Fail | Succeed(b: Block, junk: Ptr)

  datatype Action =
    | CallEnqueue(vs: seq<Value>)
    | ProducerStep(choice: Choice)       // how an allocation turns out, where one is asked for
    | Claim(t: Thread, n: nat)
    | ConsumerStep(t: Thread)
    | Environment(b: Block, taken: bool) // another producer takes a block or gives one back
    | EnvironmentInitial                 // another producer adds to the initial pool's index
    | NewBlock(b: Block)                 // the allocator has a block ready

  function Slot(h: Header, n: int): nat
    requires h.capacity > 0
  {
    (n + h.off) % h.capacity
  }

  predicate HeaderShaped(h: Header, entries: nat) {
    && h.capacity > 0 && |h.index| == h.capacity && h.tail < h.capacity
    && forall i {:trigger h.index[i]} :: 0 <= i < h.capacity ==> h.index[i] < entries
  }

  /** The entry that header h has for block number n. */
  function EntryAt(h: Header, n: int): nat
    requires h.capacity > 0 && |h.index| == h.capacity
  {
    h.index[Slot(h, n)]
  }

  /** The number of the last block with an element below tailIndex, -1 if there is none. */
  function LastBlock(tailIndex: nat): int { (tailIndex - 1) / BLOCK_SIZE }

  /** How many blocks an enqueue of `count` elements has to acquire (2552). */
  function Needed(tailIndex: nat, count: nat): int {
    LastBlock(tailIndex + count) - LastBlock(tailIndex)
  }

  predicate IndexShaped(ix: Index) {
    && |ix.headers| > 0
    && forall h {:trigger ix.headers[h]} :: 0 <= h < |ix.headers| ==> HeaderShaped(ix.headers[h], |ix.entries|)
  }

  function Current(ix: Index): Header
    requires |ix.headers| > 0
  {
    ix.headers[|ix.headers| - 1]
  }

  predicate MemShaped(mem: map<Block, seq<Value>>, count: map<Block, nat>, place: map<Block, Place>) {
    && mem.Keys == count.Keys == place.Keys
    && forall b {:trigger mem[b]} :: b in mem ==> |mem[b]| == BLOCK_SIZE
  }

  predicate ConsumerShaped(ix: Index, mem: map<Block, seq<Value>>, p: ConsumerPc) {
    && (p.LoadTail? || p.LoadKey? || p.LoadValue? || p.Reading? || p.NullEntry? || p.Free? ==> p.h < |ix.headers|)
    && (p.LoadKey? ==> p.t < ix.headers[p.h].capacity)
    && (p.LoadValue? || p.Reading? || p.NullEntry? || p.Free? ==> p.slot < ix.headers[p.h].capacity)
    && (p.NullEntry? || p.Free? ==> p.b in mem)
    && (p.Reading? ==> p.ptr.At? && p.ptr.block in mem)
  }

  predicate ProducerShaped(p: ProducerPc, tailIndex: nat, tailBlock: Ptr, mem: map<Block, seq<Value>>) {
    && (!p.ProducerIdle? ==> forall i {:trigger p.got[i]} :: 0 <= i < |p.got| ==> p.got[i] in mem)
    && (p.Undo? || p.UndoRewind? || p.Release? ==> p.j <= |p.got|)
    && (p.UndoRewind? ==> p.j < |p.got|)
    && (p.Write? ==> p.i < |p.vs| && WriteTarget(tailIndex, tailBlock, p.got, p.i).At? &&
                     WriteTarget(tailIndex, tailBlock, p.got, p.i).block in mem)
    && (p.StoreValue? ==> p.b in mem)
  }

  /** The block that element i of a bulk enqueue goes to: tailBlock, or one in the chain behind it. */
  function WriteTarget(tailIndex: nat, tailBlock: Ptr, got: seq<Block>, i: nat): Ptr {
    var k := (tailIndex + i) / BLOCK_SIZE - LastBlock(tailIndex) - 1;
    if k < 0 then tailBlock else if k < |got| then At(got[k]) else Null
  }

  /** Every pointer and slot in the state can be followed. */
  predicate Shaped(s: State) {
    && IndexShaped(s.ix)
    && MemShaped(s.mem, s.count, s.place)
    && (forall t {:trigger s.consumers[t]} :: t in s.consumers ==> ConsumerShaped(s.ix, s.mem, s.consumers[t]))
    && (s.tailBlock.At? ==> s.tailBlock.block in s.mem)
    && (forall k {:trigger s.initial[k]} :: 0 <= k < |s.initial| ==> s.initial[k] in s.mem)
    && ProducerShaped(s.producer, s.tailIndex, s.tailBlock, s.mem)
  }

  predicate Enabled(s: State, a: Action)
    requires Shaped(s)
  {
    match a
    case CallEnqueue(_) => s.producer.ProducerIdle?
    case ProducerStep(c) =>
      !s.producer.ProducerIdle? &&
      (s.producer.TakeFree? && c.Succeed? ==> c.b in s.place && (s.place[c.b] == Pool || s.place[c.b] == Fresh))
    case Claim(t, n) =>
      t in s.consumers && s.consumers[t] == ConsumerIdle && n > 0 && s.headIndex + n <= s.tailIndex
    case ConsumerStep(t) => t in s.consumers && s.consumers[t] != ConsumerIdle
    case Environment(b, taken) =>
      b in s.place && if taken then s.place[b] == Pool || s.place[b] == Fresh else s.place[b] == Elsewhere
    case EnvironmentInitial => true
    case NewBlock(b) => b !in s.place
  }

  // ---------------------------------------------------------------------------
  // Producer steps
  // ---------------------------------------------------------------------------

  function SetCurrent(ix: Index, h: Header): Index
    requires |ix.headers| > 0
  {
    ix.(headers := ix.headers[|ix.headers| - 1 := h])
  }

  function SetKey(ix: Index, e: nat, key: nat): Index
    requires e < |ix.entries|
  {
    ix.(entries := ix.entries[e := ix.entries[e].(key := key)])
  }

  function SetValue(ix: Index, e: nat, value: Ptr): Index
    requires e < |ix.entries|
  {
    ix.(entries := ix.entries[e := ix.entries[e].(value := value)])
  }

  /** The head of the acquisition loop. */
  function Loop(tailIndex: nat, vs: seq<Value>, got: seq<Block>): ProducerPc {
    if |got| < Needed(tailIndex, |vs|) then Check(vs, got) else if vs == [] then Commit(vs, got) else Write(vs, got, 0)
  }

  /** The slot after the tail, where the next block goes. */
  function NewTail(h: Header): nat
    requires h.capacity > 0
  {
    (h.tail + 1) % h.capacity
  }

  function DoCheck(s: State, vs: seq<Value>, got: seq<Block>): State
    requires Shaped(s)
  {
    var e := s.ix.entries[Current(s.ix).index[NewTail(Current(s.ix))]];
    s.(producer := if e.key == INVALID_BLOCK_BASE || e.value == Null then StoreKey(vs, got) else Grow(vs, got))
  }

  /** new_block_index: the old entries in order from the one after the tail, then as many new ones. */
  function Grown(h: Header, entries: nat): Header
    requires h.capacity > 0 && |h.index| == h.capacity && h.tail < h.capacity
  {
    var c := h.capacity;
    Header(2 * c, c - 1,
           seq(2 * c, i requires 0 <= i < 2 * c => if i < c then h.index[(h.tail + 1 + i) % c] else entries + i - c),
           c - 1 - h.last, h.last)
  }

  function GrownIndex(ix: Index, junk: Ptr): Index
    requires IndexShaped(ix)
  {
    ix.(headers := ix.headers + [Grown(Current(ix), |ix.entries|)],
        entries := ix.entries + seq(Current(ix).capacity, _ => Entry(INVALID_BLOCK_BASE, junk)))
  }

  /** The entry after the tail gets the key of block number n, which may push the oldest number out. */
  function KeyedIndex(ix: Index, n: nat): Index
    requires IndexShaped(ix)
  {
    var h := Current(ix);
    SetKey(ix, h.index[NewTail(h)], n * BLOCK_SIZE)
      .(high := if n > ix.high then n else ix.high,
        floor := if n > ix.high && n - h.capacity >= ix.floor then n - h.capacity + 1 else ix.floor)
  }

  function Advanced(h: Header): Header
    requires h.capacity > 0
  {
    h.(tail := NewTail(h), last := h.last + 1)
  }

  function Rewound(h: Header): Header
    requires h.capacity > 0
  {
    h.(tail := (h.tail - 1) % h.capacity, last := h.last - 1)
  }

  function DoGrow(s: State, vs: seq<Value>, got: seq<Block>, c: Choice): State
    requires Shaped(s)
  {
    if c.Fail? then s.(producer := Undo(vs, got, 0))
      else s.(ix := GrownIndex(s.ix, c.junk), producer := StoreKey(vs, got))
  }

  function DoStoreKey(s: State, vs: seq<Value>, got: seq<Block>): State
    requires Shaped(s) && LastBlock(s.tailIndex) + |got| + 1 >= 0
  {
    s.(ix := KeyedIndex(s.ix, LastBlock(s.tailIndex) + |got| + 1), producer := StoreTail(vs, got))
  }

  function DoStoreTail(s: State, vs: seq<Value>, got: seq<Block>): State
    requires Shaped(s)
  {
    s.(ix := SetCurrent(s.ix, Advanced(Current(s.ix))), producer := LoadInitial(vs, got))
  }

  /** The producer has a block; its counter is reset (2429, 2592) before anybody else can see it. */
  function Acquire(s: State, vs: seq<Value>, got: seq<Block>, b: Block): State {
    s.(producer := StoreValue(vs, got, b), place := s.place[b := ProducerHand], count := s.count[b := 0])
  }

  function DoTakeInitial(s: State, vs: seq<Value>, got: seq<Block>): State {
    if s.poolIndex < |s.initial| then Acquire(s, vs, got, s.initial[s.poolIndex]).(poolIndex := s.poolIndex + 1)
    else s.(producer := TakeFree(vs, got), poolIndex := s.poolIndex + 1)
  }

  function DoTakeFree(s: State, vs: seq<Value>, got: seq<Block>, c: Choice): State {
    if c.Fail? then s.(producer := Rewind(vs, got)) else Acquire(s, vs, got, c.b)
  }

  function DoStoreValue(s: State, vs: seq<Value>, got: seq<Block>, b: Block): State
    requires Shaped(s)
  {
    var h := Current(s.ix);
    var n := if h.last >= 0 then h.last else 0;
    s.(ix := SetValue(s.ix, h.index[h.tail], At(b)),
       live := s.live[n := b],
       place := s.place[b := InIndex(n)],
       producer := Loop(s.tailIndex, vs, got + [b]))
  }

  function DoWrite(s: State, vs: seq<Value>, got: seq<Block>, i: nat): State
    requires Shaped(s) && s.producer == Write(vs, got, i)
  {
    var b := WriteTarget(s.tailIndex, s.tailBlock, got, i).block;
    s.(mem := s.mem[b := s.mem[b][(s.tailIndex + i) % BLOCK_SIZE := vs[i]]],
       producer := if i + 1 < |vs| then Write(vs, got, i + 1) else Commit(vs, got))
  }

  function DoCommit(s: State, vs: seq<Value>, got: seq<Block>): State {
    s.(tailIndex := s.tailIndex + |vs|,
       items := s.items + vs,
       tailBlock := if got == [] then s.tailBlock else At(got[|got| - 1]),
       producer := ProducerIdle)
  }

  /** get_block_index_index_for_index: from the tail slot, by the distance of the keys. */
  function Lookup(h: Header, t: nat, tailKey: nat, n: int): nat
    requires h.capacity > 0
  {
    (t + (n - tailKey / BLOCK_SIZE)) % h.capacity
  }

  function DoUndo(s: State, vs: seq<Value>, got: seq<Block>, j: nat): State
    requires Shaped(s) && j < |got| && got[j] in s.place
  {
    var h := Current(s.ix);
    var n := LastBlock(s.tailIndex) + 1 + j;
    var e := h.index[Lookup(h, h.tail, s.ix.entries[h.index[h.tail]].key, n)];
    s.(ix := SetValue(s.ix, e, Null),
       live := s.live - {n},
       place := s.place[got[j] := ProducerHand],
       producer := UndoRewind(vs, got, j))
  }

  function DoRewind(s: State, vs: seq<Value>, got: seq<Block>): State
    requires Shaped(s)
  {
    s.(ix := SetCurrent(s.ix, Rewound(Current(s.ix))), producer := NullFresh(vs, got))
  }

  function DoNullFresh(s: State, vs: seq<Value>, got: seq<Block>): State
    requires Shaped(s)
  {
    s.(ix := SetValue(s.ix, Current(s.ix).index[NewTail(Current(s.ix))], Null), producer := Undo(vs, got, 0))
  }

  function DoUndoRewind(s: State, vs: seq<Value>, got: seq<Block>, j: nat): State
    requires Shaped(s)
  {
    s.(ix := SetCurrent(s.ix, Rewound(Current(s.ix))), producer := Undo(vs, got, j + 1))
  }

  function DoRelease(s: State, vs: seq<Value>, got: seq<Block>, j: nat): State {
    if j < |got| then s.(place := s.place[got[j] := Pool], producer := Release(vs, got, j + 1))
    else s.(producer := ProducerIdle)
  }

  // A place in the index, a block for it, the writes, and taking back

  predicate Placing(p: ProducerPc) { p.Check? || p.Grow? || p.StoreKey? || p.StoreTail? }

  predicate Acquiring(p: ProducerPc) { p.LoadInitial? || p.TakeInitial? || p.TakeFree? || p.StoreValue? }

  predicate Filling(p: ProducerPc) { p.Write? || p.Commit? }

  predicate Failing(p: ProducerPc) { p.Rewind? || p.NullFresh? || p.Undo? || p.UndoRewind? || p.Release? }

  /** The key to be stored next is not negative, which the invariant guarantees. */
  predicate KeyReady(s: State) { s.producer.StoreKey? ==> LastBlock(s.tailIndex) + |s.producer.got| + 1 >= 0 }

  function DoPlacing(s: State, c: Choice): State
    requires Shaped(s) && Placing(s.producer) && KeyReady(s)
  {
    match s.producer
    case Check(vs, got) => DoCheck(s, vs, got)
    case Grow(vs, got) => DoGrow(s, vs, got, c)
    case StoreKey(vs, got) => DoStoreKey(s, vs, got)
    case StoreTail(vs, got) => DoStoreTail(s, vs, got)
  }

  function DoAcquiring(s: State, c: Choice): State
    requires Shaped(s) && Acquiring(s.producer)
  {
    match s.producer
    case LoadInitial(vs, got) =>
      s.(producer := if s.poolIndex >= |s.initial| then TakeFree(vs, got) else TakeInitial(vs, got))
    case TakeInitial(vs, got) => DoTakeInitial(s, vs, got)
    case TakeFree(vs, got) => DoTakeFree(s, vs, got, c)
    case StoreValue(vs, got, b) => DoStoreValue(s, vs, got, b)
  }

  function DoFilling(s: State): State
    requires Shaped(s) && Filling(s.producer)
  {
    match s.producer
    case Write(vs, got, i) => DoWrite(s, vs, got, i)
    case Commit(vs, got) => DoCommit(s, vs, got)
  }

  function DoFailing(s: State): State
    requires Shaped(s) && Failing(s.producer)
  {
    match s.producer
    case Rewind(vs, got) => DoRewind(s, vs, got)
    case NullFresh(vs, got) => DoNullFresh(s, vs, got)
    case Undo(vs, got, j) => if j < |got| then DoUndo(s, vs, got, j) else s.(producer := Release(vs, got, 0))
    case UndoRewind(vs, got, j) => DoUndoRewind(s, vs, got, j)
    case Release(vs, got, j) => DoRelease(s, vs, got, j)
  }

  function DoProducer(s: State, c: Choice): State
    requires Shaped(s) && !s.producer.ProducerIdle? && KeyReady(s)
  {
    if Placing(s.producer) then DoPlacing(s, c)
    else if Acquiring(s.producer) then DoAcquiring(s, c)
    else if Filling(s.producer) then DoFilling(s)
    else DoFailing(s)
  }

  // ---------------------------------------------------------------------------
  // Consumer steps
  // ---------------------------------------------------------------------------

  function Goto(s: State, t: Thread, p: ConsumerPc): State { s.(consumers := s.consumers[t := p]) }

  /** Where the part of [start, end) that lies in the block of `start` stops. */
  function Stop(start: nat, end: nat): nat {
    var blockEnd := (start / BLOCK_SIZE + 1) * BLOCK_SIZE;
    if end < blockEnd then end else blockEnd
  }

  /** On to the next block of a bulk dequeue, or done. */
  function NextPart(ix: Index, stop: nat, end: nat, h: nat, slot: nat): ConsumerPc
    requires h < |ix.headers| && ix.headers[h].capacity > 0
  {
    if stop == end then ConsumerIdle else LoadValue(stop, end, h, (slot + 1) % ix.headers[h].capacity)
  }

  function Interval(lo: nat, hi: nat): (r: set<nat>)
    ensures forall i {:trigger i in r} :: i in r <==> lo <= i < hi
    decreases hi
  {
    if lo >= hi then {} else Interval(lo, hi - 1) + {hi - 1}
  }

  function DoMark(s: State, t: Thread, start: nat, end: nat, h: nat, slot: nat, b: Block): State
    requires Shaped(s) && h < |s.ix.headers| && b in s.count
  {
    var stop := Stop(start, end);
    var c := s.count[b] + (if stop >= start then stop - start else 0);
    Goto(s, t, if c == BLOCK_SIZE then NullEntry(stop, end, h, slot, b, start / BLOCK_SIZE)
               else NextPart(s.ix, stop, end, h, slot))
      .(count := s.count[b := c], marked := s.marked + Interval(start, stop))
  }

  function DoNullEntry(s: State, t: Thread, stop: nat, end: nat, h: nat, slot: nat, b: Block, n: nat): State
    requires Shaped(s) && h < |s.ix.headers| && slot < s.ix.headers[h].capacity
  {
    Goto(s, t, Free(stop, end, h, slot, b, n))
      .(ix := SetValue(s.ix, s.ix.headers[h].index[slot], Null),
        live := s.live - {n}, place := s.place[b := ConsumerHand(t)])
  }

  function DoRead(s: State, t: Thread, start: nat, end: nat, h: nat, slot: nat, b: Block, i: nat): State
    requires Shaped(s) && b in s.mem && MemShaped(s.mem, s.count, s.place)
  {
    Goto(s, t, Reading(start, end, h, slot, At(b), i + 1))
      .(delivered := s.delivered + [Delivery(i, s.mem[b][i % BLOCK_SIZE], t)])
  }

  function DoFree(s: State, t: Thread, stop: nat, end: nat, h: nat, slot: nat, b: Block): State
    requires Shaped(s) && h < |s.ix.headers|
  {
    Goto(s, t, NextPart(s.ix, stop, end, h, slot)).(place := s.place[b := Pool])
  }

  function DoConsumer(s: State, t: Thread): State
    requires Shaped(s) && Enabled(s, ConsumerStep(t))
  {
    assert ConsumerShaped(s.ix, s.mem, s.consumers[t]);
    match s.consumers[t]
    case ConsumerIdle => s
    case LoadHeader(start, end) => Goto(s, t, LoadTail(start, end, |s.ix.headers| - 1))
    case LoadTail(start, end, h) => Goto(s, t, LoadKey(start, end, h, s.ix.headers[h].tail, s.ix.headers[h].last))
    case LoadKey(start, end, h, tail, _) =>
      var key := s.ix.entries[s.ix.headers[h].index[tail]].key;
      Goto(s, t, LoadValue(start, end, h, Lookup(s.ix.headers[h], tail, key, start / BLOCK_SIZE)))
    case LoadValue(start, end, h, slot) =>
      Goto(s, t, Reading(start, end, h, slot, s.ix.entries[s.ix.headers[h].index[slot]].value, start))
    case Reading(start, end, h, slot, ptr, i) =>
      if i < Stop(start, end) then DoRead(s, t, start, end, h, slot, ptr.block, i)
      else DoMark(s, t, start, end, h, slot, ptr.block)
    case NullEntry(stop, end, h, slot, b, n) => DoNullEntry(s, t, stop, end, h, slot, b, n)
    case Free(stop, end, h, slot, b, _) => DoFree(s, t, stop, end, h, slot, b)
  }

  function Do(s: State, a: Action): State
    requires Shaped(s) && Enabled(s, a) && (a.ProducerStep? ==> KeyReady(s))
  {
    match a
    case CallEnqueue(vs) => s.(producer := Loop(s.tailIndex, vs, []))
    case ProducerStep(c) => DoProducer(s, c)
    case Claim(t, n) =>
      Goto(s, t, LoadHeader(s.headIndex, s.headIndex + n)).(headIndex := s.headIndex + n)
    case ConsumerStep(t) => DoConsumer(s, t)
    case Environment(b, taken) => s.(place := s.place[b := if taken then Elsewhere else Pool])
    case EnvironmentInitial =>
      s.(poolIndex := s.poolIndex + 1,
         place := if s.poolIndex < |s.initial| then s.place[s.initial[s.poolIndex] := Elsewhere] else s.place)
    case NewBlock(b) =>
      s.(mem := s.mem[b := seq(BLOCK_SIZE, _ => 0)], count := s.count[b := 0], place := s.place[b := Fresh])
  }

  // ---------------------------------------------------------------------------
  // The invariant
  // ---------------------------------------------------------------------------

  /** The marked indices in [lo, hi). */
  function Marks(marked: set<nat>, lo: nat, hi: nat): nat
    decreases hi
  {
    if lo >= hi then 0 else Marks(marked, lo, hi - 1) + (if hi - 1 in marked then 1 else 0)
  }

  function BlockMarks(marked: set<nat>, n: nat): nat { Marks(marked, n * BLOCK_SIZE, (n + 1) * BLOCK_SIZE) }

  predicate AllMarked(marked: set<nat>, n: int) {
    forall i {:trigger i in marked} :: n * BLOCK_SIZE <= i < (n + 1) * BLOCK_SIZE ==> i in marked
  }

  /** The block number whose entry has a key but not yet its value, -1 if there is none. */
  function Keyed(p: ProducerPc, tailIndex: nat): int {
    if p.StoreTail? || Acquiring(p) || p.Rewind? || p.NullFresh?
    then LastBlock(tailIndex) + |p.got| + 1 else -1
  }

  predicate Window(ix: Index, last: int)
    requires |ix.headers| > 0
  {
    var h := Current(ix);
    && ix.floor <= last + 1 && ix.floor <= ix.high + 1 && ix.high + 1 - ix.floor <= h.capacity
    && last <= h.last <= ix.high
    && NoDup(h.index)
  }

  /** A number in the window has an entry with its key, and its live block or null as value. */
  predicate NumberOk(ix: Index, live: map<nat, Block>, keyed: int, n: int)
    requires IndexShaped(ix)
  {
    var e := ix.entries[EntryAt(Current(ix), n)];
    && e.key == n * BLOCK_SIZE
    && (n != keyed ==> e.value == if n in live then At(live[n]) else Null)
  }

  /** Slots that no number of the window uses were never used. */
  predicate UnusedOk(ix: Index, n: int)
    requires IndexShaped(ix)
  {
    ix.entries[EntryAt(Current(ix), n)].key == INVALID_BLOCK_BASE
  }

  /** An older header finds the same entry for every number it knew. */
  predicate Agrees(ix: Index, h: nat, n: int)
    requires IndexShaped(ix) && h < |ix.headers|
  {
    ix.floor <= n <= ix.headers[h].last ==> EntryAt(ix.headers[h], n) == EntryAt(Current(ix), n)
  }

  predicate HeaderOk(ix: Index, h: nat)
    requires IndexShaped(ix) && h < |ix.headers|
  {
    ix.headers[h].tail == Slot(ix.headers[h], ix.headers[h].last) && ix.headers[h].last <= ix.high
  }

  ghost predicate IndexOk(ix: Index, live: map<nat, Block>, last: int, keyed: int)
    requires IndexShaped(ix)
  {
    && Window(ix, last)
    && (forall n {:trigger NumberOk(ix, live, keyed, n)} :: ix.floor <= n <= ix.high ==> NumberOk(ix, live, keyed, n))
    && (forall n {:trigger UnusedOk(ix, n)} :: ix.high < n < ix.floor + Current(ix).capacity ==> UnusedOk(ix, n))
    && (forall h {:trigger HeaderOk(ix, h)} :: 0 <= h < |ix.headers| ==> HeaderOk(ix, h))
    && (forall h, n {:trigger Agrees(ix, h, n)} :: 0 <= h < |ix.headers| ==> Agrees(ix, h, n))
  }

  predicate LiveOk(live: map<nat, Block>, floor: nat, high: int, keyed: int, place: map<Block, Place>, n: nat)
    requires n in live
  {
    floor <= n <= high && n != keyed && live[n] in place && place[live[n]] == InIndex(n)
  }

  predicate CountOk(live: map<nat, Block>, count: map<Block, nat>, marked: set<nat>, n: nat)
    requires n in live
  {
    live[n] in count && count[live[n]] == BlockMarks(marked, n)
  }

  /** A committed block leaves the index only after all its elements were marked. */
  predicate DoneOk(live: map<nat, Block>, marked: set<nat>, n: int) {
    n in live || AllMarked(marked, n)
  }

  predicate DataOk(live: map<nat, Block>, mem: map<Block, seq<Value>>, items: seq<Value>, i: nat)
    requires i < |items|
  {
    i / BLOCK_SIZE in live && live[i / BLOCK_SIZE] in mem ==>
      |mem[live[i / BLOCK_SIZE]]| == BLOCK_SIZE && mem[live[i / BLOCK_SIZE]][i % BLOCK_SIZE] == items[i]
  }

  predicate PlaceOk(place: map<Block, Place>, live: map<nat, Block>, p: ProducerPc, consumers: map<Thread, ConsumerPc>,
                    b: Block)
    requires b in place
  {
    match place[b]
    case InIndex(n) => n in live && live[n] == b
    case ProducerHand => InProducerHand(p, b)
    case ConsumerHand(t) => t in consumers && consumers[t].Free? && consumers[t].b == b
    case _ => true
  }

  /** The producer has a block it has not entered yet, or has taken out again. */
  predicate InProducerHand(p: ProducerPc, b: Block) {
    || (p.StoreValue? && p.b == b)
    || (p.Undo? && exists i :: 0 <= i < p.j && i < |p.got| && p.got[i] == b)
    || (p.UndoRewind? && exists i :: 0 <= i <= p.j && i < |p.got| && p.got[i] == b)
    || (p.Release? && exists i :: p.j <= i < |p.got| && p.got[i] == b)
  }

  ghost predicate LivesOk(live: map<nat, Block>, floor: nat, high: int, keyed: int, place: map<Block, Place>) {
    forall n {:trigger LiveOk(live, floor, high, keyed, place, n)} :: n in live ==>
      LiveOk(live, floor, high, keyed, place, n)
  }

  ghost predicate CountsOk(live: map<nat, Block>, count: map<Block, nat>, marked: set<nat>) {
    forall n {:trigger CountOk(live, count, marked, n)} :: n in live ==> CountOk(live, count, marked, n)
  }

  ghost predicate DonesOk(live: map<nat, Block>, marked: set<nat>, last: int) {
    forall n {:trigger DoneOk(live, marked, n)} :: 0 <= n <= last ==> DoneOk(live, marked, n)
  }

  ghost predicate AllDataOk(live: map<nat, Block>, mem: map<Block, seq<Value>>, items: seq<Value>) {
    forall i {:trigger DataOk(live, mem, items, i)} :: 0 <= i < |items| ==> DataOk(live, mem, items, i)
  }

  ghost predicate PlacesOk(place: map<Block, Place>, live: map<nat, Block>, p: ProducerPc,
                           consumers: map<Thread, ConsumerPc>) {
    forall b {:trigger PlaceOk(place, live, p, consumers, b)} :: b in place ==> PlaceOk(place, live, p, consumers, b)
  }

  /** The initial pool's blocks from its index on are untouched. */
  ghost predicate InitialOk(place: map<Block, Place>, initial: seq<Block>, poolIndex: nat) {
    && (forall k {:trigger initial[k]} :: poolIndex <= k < |initial| ==>
          initial[k] in place && place[initial[k]] == Initial(k))
    && (forall b {:trigger place[b]} :: b in place && place[b].Initial? ==>
          poolIndex <= place[b].index < |initial| && initial[place[b].index] == b)
  }

  lemma InitialKept(place: map<Block, Place>, initial: seq<Block>, poolIndex: nat, b: Block, to: Place)
    requires InitialOk(place, initial, poolIndex) && (b in place ==> !place[b].Initial?) && !to.Initial?
    ensures InitialOk(place[b := to], initial, poolIndex)
  {
  }

  lemma InitialTaken(place: map<Block, Place>, initial: seq<Block>, poolIndex: nat, to: Place)
    requires InitialOk(place, initial, poolIndex) && poolIndex < |initial| && !to.Initial?
    ensures InitialOk(place[initial[poolIndex] := to], initial, poolIndex + 1)
  {
    var place' := place[initial[poolIndex] := to];
    forall k | poolIndex + 1 <= k < |initial| ensures initial[k] in place' && place'[initial[k]] == Initial(k) {
      assert place[initial[k]] == Initial(k) && place[initial[poolIndex]] == Initial(poolIndex);
    }
    forall b | b in place' && place'[b].Initial?
      ensures poolIndex + 1 <= place'[b].index < |initial| && initial[place'[b].index] == b
    {
      assert place[b] == place'[b];
    }
  }

  /** Marks stay below the head, the head below the tail, and an unfinished block is the tail block. */
  predicate BoundsOk(s: State) {
    && (forall i {:trigger i in s.marked} :: i in s.marked ==> i < s.headIndex)
    && s.headIndex <= s.tailIndex == |s.items|
    && (s.tailIndex % BLOCK_SIZE != 0 ==>
          LastBlock(s.tailIndex) in s.live && s.tailBlock == At(s.live[LastBlock(s.tailIndex)]))
  }

  predicate Entered(live: map<nat, Block>, last: int, got: seq<Block>, i: nat)
    requires i < |got|
  {
    last + 1 + i in live && live[last + 1 + i] == got[i]
  }

  /** The running enqueue's blocks from the from-th on are live, and nothing else past the committed ones. */
  predicate Acquired(live: map<nat, Block>, last: int, got: seq<Block>, from: nat) {
    && NoDup(got)
    && (forall i {:trigger Entered(live, last, got, i)} :: from <= i < |got| ==> Entered(live, last, got, i))
    && (forall n {:trigger n in live} :: n in live && n > last ==> last + 1 + from <= n <= last + |got|)
  }

  predicate InHand(place: map<Block, Place>, got: seq<Block>, from: nat, to: nat) {
    forall i {:trigger got[i]} :: from <= i < to && i < |got| ==> got[i] in place && place[got[i]] == ProducerHand
  }

  /** Elements 0 to i of the running enqueue are in their slots. */
  predicate WrittenUpTo(T: nat, tailBlock: Ptr, mem: map<Block, seq<Value>>, vs: seq<Value>, got: seq<Block>, i: nat)
    requires i <= |vs|
  {
    forall k {:trigger vs[k]} :: 0 <= k < i ==> ElementWritten(T, tailBlock, mem, vs, got, k)
  }

  predicate ElementWritten(T: nat, tailBlock: Ptr, mem: map<Block, seq<Value>>, vs: seq<Value>, got: seq<Block>, k: nat)
    requires k < |vs|
  {
    var target := WriteTarget(T, tailBlock, got, k);
    && target.At? && target.block in mem && |mem[target.block]| == BLOCK_SIZE
    && mem[target.block][(T + k) % BLOCK_SIZE] == vs[k]
  }

  /** What the producer's position says about the header's tail number and the live blocks. */
  predicate ProducerOk(p: ProducerPc, h: Header, floor: nat, high: int, live: map<nat, Block>, T: nat,
                       place: map<Block, Place>) {
    var B := LastBlock(T);
    match p
    case ProducerIdle => h.last == B && Acquired(live, B, [], 0)
    case Check(vs, got) => h.last == B + |got| && Acquired(live, B, got, 0) && |got| < Needed(T, |vs|)
    case Grow(vs, got) =>
      && h.last == B + |got| && Acquired(live, B, got, 0) && |got| < Needed(T, |vs|)
      && high == h.last && floor + h.capacity == high + 1
    case StoreKey(vs, got) =>
      && h.last == B + |got| && Acquired(live, B, got, 0) && |got| < Needed(T, |vs|)
      && (h.last == high && floor + h.capacity == high + 1 ==> floor !in live)
    case StoreTail(vs, got) =>
      h.last == B + |got| && Acquired(live, B, got, 0) && |got| < Needed(T, |vs|) && high > h.last
    case LoadInitial(vs, got) => h.last == B + |got| + 1 && Acquired(live, B, got, 0) && |got| < Needed(T, |vs|)
    case TakeInitial(vs, got) => h.last == B + |got| + 1 && Acquired(live, B, got, 0) && |got| < Needed(T, |vs|)
    case TakeFree(vs, got) => h.last == B + |got| + 1 && Acquired(live, B, got, 0) && |got| < Needed(T, |vs|)
    case StoreValue(vs, got, b) =>
      && h.last == B + |got| + 1 && Acquired(live, B, got, 0) && |got| < Needed(T, |vs|)
      && b in place && place[b] == ProducerHand
    case Write(vs, got, i) => h.last == B + |got| && Acquired(live, B, got, 0) && |got| == Needed(T, |vs|)
    case Commit(vs, got) => h.last == B + |got| && Acquired(live, B, got, 0) && |got| == Needed(T, |vs|)
    case Rewind(vs, got) => h.last == B + |got| + 1 && Acquired(live, B, got, 0)
    case NullFresh(vs, got) => h.last == B + |got| && Acquired(live, B, got, 0) && high > h.last
    case Undo(vs, got, j) => h.last == B + |got| - j && Acquired(live, B, got, j) && InHand(place, got, 0, j)
    case UndoRewind(vs, got, j) =>
      h.last == B + |got| - j && Acquired(live, B, got, j + 1) && InHand(place, got, 0, j + 1)
    case Release(vs, got, j) => h.last == B && Acquired(live, B, got, |got|) && InHand(place, got, j, |got|)
  }

  /** What the running enqueue has prepared: a zeroed counter, and the elements written so far. */
  predicate PreparedOk(p: ProducerPc, T: nat, tailBlock: Ptr, mem: map<Block, seq<Value>>, count: map<Block, nat>) {
    && (p.StoreValue? ==> p.b in count && count[p.b] == 0)
    && (p.Write? ==> p.i < |p.vs| && WrittenUpTo(T, tailBlock, mem, p.vs, p.got, p.i))
    && (p.Commit? ==> WrittenUpTo(T, tailBlock, mem, p.vs, p.got, |p.vs|))
  }

  /** The indices [start, end) are claimed and unmarked. */
  predicate Ranged(marked: set<nat>, head: nat, start: nat, end: nat) {
    && start <= end <= head
    && (forall i {:trigger i in marked} :: start <= i < end ==> i !in marked)
  }

  /** A consumer that has loaded header h is past the point where its blocks could be missing from it. */
  predicate Knows(ix: Index, h: nat, end: nat)
    requires h < |ix.headers|
  {
    (end - 1) / BLOCK_SIZE <= ix.headers[h].last
  }

  predicate ConsumerOk(p: ConsumerPc, t: Thread, ix: Index, mem: map<Block, seq<Value>>, live: map<nat, Block>,
                       marked: set<nat>, head: nat, place: map<Block, Place>)
    requires IndexShaped(ix) && ConsumerShaped(ix, mem, p)
  {
    match p
    case ConsumerIdle => true
    case LoadHeader(start, end) => start < end && Ranged(marked, head, start, end)
    case LoadTail(start, end, h) => start < end && Ranged(marked, head, start, end) && Knows(ix, h, end)
    case LoadKey(start, end, h, tail, mt) =>
      && start < end && Ranged(marked, head, start, end) && Knows(ix, h, end)
      && tail == Slot(ix.headers[h], mt) && (end - 1) / BLOCK_SIZE <= mt <= ix.high
      && (h < |ix.headers| - 1 ==> mt <= ix.headers[h].last)
    case LoadValue(start, end, h, slot) =>
      && start < end && Ranged(marked, head, start, end) && Knows(ix, h, end)
      && slot == Slot(ix.headers[h], start / BLOCK_SIZE)
    case Reading(start, end, h, slot, ptr, i) =>
      && start < end && Ranged(marked, head, start, end) && Knows(ix, h, end)
      && slot == Slot(ix.headers[h], start / BLOCK_SIZE) && start <= i <= Stop(start, end)
      && start / BLOCK_SIZE in live && ptr == At(live[start / BLOCK_SIZE])
    case NullEntry(start, end, h, slot, b, n) =>
      && Ranged(marked, head, start, end) && Knows(ix, h, end)
      && slot == Slot(ix.headers[h], n) && n <= ix.headers[h].last && (start < end ==> start == (n + 1) * BLOCK_SIZE)
      && n in live && live[n] == b && AllMarked(marked, n)
    case Free(start, end, h, slot, b, n) =>
      && Ranged(marked, head, start, end) && Knows(ix, h, end)
      && slot == Slot(ix.headers[h], n) && (start < end ==> start == (n + 1) * BLOCK_SIZE)
      && b in place && place[b] == ConsumerHand(t)
  }

  /** Two consumers' claims do not meet, and no two of them are about to release the same block. */
  predicate Apart(p: ConsumerPc, q: ConsumerPc) {
    && (!p.ConsumerIdle? && !q.ConsumerIdle? ==>
          p.end <= q.start || q.end <= p.start || p.start >= p.end || q.start >= q.end)
    && (p.NullEntry? && q.NullEntry? ==> p.number != q.number)
  }

  ghost predicate ConsumersOk(s: State)
    requires Shaped(s)
  {
    forall t {:trigger ConsumerFine(s, t)} :: t in s.consumers ==> ConsumerFine(s, t)
  }

  predicate ConsumerFine(s: State, t: Thread)
    requires Shaped(s) && t in s.consumers
  {
    ConsumerOk(s.consumers[t], t, s.ix, s.mem, s.live, s.marked, s.headIndex, s.place)
  }

  ghost predicate AllApart(consumers: map<Thread, ConsumerPc>) {
    forall t, u {:trigger Apart(consumers[t], consumers[u])} ::
      t in consumers && u in consumers && t != u ==> Apart(consumers[t], consumers[u])
  }

  ghost predicate Inv(s: State) {
    && Shaped(s)
    && IndexOk(s.ix, s.live, LastBlock(s.tailIndex), Keyed(s.producer, s.tailIndex))
    && LivesOk(s.live, s.ix.floor, s.ix.high, Keyed(s.producer, s.tailIndex), s.place)
    && CountsOk(s.live, s.count, s.marked)
    && DonesOk(s.live, s.marked, LastBlock(s.tailIndex))
    && AllDataOk(s.live, s.mem, s.items)
    && PlacesOk(s.place, s.live, s.producer, s.consumers)
    && InitialOk(s.place, s.initial, s.poolIndex)
    && BoundsOk(s)
    && ProducerOk(s.producer, Current(s.ix), s.ix.floor, s.ix.high, s.live, s.tailIndex, s.place)
    && PreparedOk(s.producer, s.tailIndex, s.tailBlock, s.mem, s.count)
    && ConsumersOk(s)
    && AllApart(s.consumers)
  }
}
