/**
 Whole runs of ImplicitProducer: lookups, ownership of blocks, who frees a block, enqueue as all or
 nothing, and what the pool and the index look like to others.
 */
module ImplicitProducerRuns {
  import opened Basics
  import opened BlockPool
  import opened ImplicitProducer
  import opened ImplicitProducerSteps

  const IMPLICIT_INITIAL_INDEX_SIZE: nat := 32

  /** A producer just constructed: the first index is there, its entries' values are whatever they were. */
  ghost predicate Init(s: State) {
    var c := IMPLICIT_INITIAL_INDEX_SIZE;
    && s.tailIndex == 0 && s.headIndex == 0 && s.tailBlock == Null && s.producer == ProducerIdle
    && s.ix.headers == [Header(c, c - 1, seq(c, i requires 0 <= i < c => i), 0, -1)]
    && |s.ix.entries| == c
       && (forall e {:trigger s.ix.entries[e]} :: 0 <= e < c ==> s.ix.entries[e].key == INVALID_BLOCK_BASE)
    && s.ix.floor == 0 && s.ix.high == -1
    && s.items == [] && s.delivered == [] && s.marked == {} && s.live == map[]
    && MemShaped(s.mem, s.count, s.place) && InitialOk(s.place, s.initial, s.poolIndex)
    && (forall k {:trigger s.initial[k]} :: 0 <= k < |s.initial| ==> s.initial[k] in s.mem)
    && (forall b {:trigger s.place[b]} :: b in s.place ==>
          s.place[b] == Pool || s.place[b] == Fresh || s.place[b] == Elsewhere || s.place[b].Initial?)
    && (forall t {:trigger s.consumers[t]} :: t in s.consumers ==> s.consumers[t] == ConsumerIdle)
  }

  lemma InitInv(s: State)
    requires Init(s)
    ensures Inv(s)
  {
    var h := Current(s.ix);
    assert forall i :: 0 <= i < h.capacity ==> h.index[i] == i;
    assert Shaped(s);
    forall h | 0 <= h < |s.ix.headers| ensures HeaderOk(s.ix, h) {}
    forall n | s.ix.high < n < s.ix.floor + h.capacity ensures UnusedOk(s.ix, n) {}
    forall h, n | 0 <= h < |s.ix.headers| ensures Agrees(s.ix, h, n) {}
  }

  /**
   A run, last state included. A step is taken only from a state in which every pointer can be
   followed; NeverStuck shows that every state of a run is such a state.
   */
  datatype Run = Start(last: State) | Then(prev: Run, action: Action, last: State)

  ghost predicate IsStep(s: State, a: Action, s': State) {
    Shaped(s) && Enabled(s, a) && Ready(s, a) && s' == Do(s, a)
  }

  ghost predicate IsRun(r: Run) {
    match r
    case Start(s) => Init(s)
    case Then(p, a, s) => IsRun(p) && IsStep(p.last, a, s)
  }

  lemma {:induction false} RunInvariant(r: Run)
    requires IsRun(r)
    ensures Inv(r.last)
  {
    match r
    case Start(s) => InitInv(s);
    case Then(p, a, s) =>
      RunInvariant(p);
      StepKeeps(p.last, a);
  }

  /** No run comes to a state in which a pointer or slot cannot be followed. */
  lemma NeverStuck(r: Run, a: Action)
    requires IsRun(r)
    ensures Shaped(r.last) && (Enabled(r.last, a) ==> Ready(r.last, a))
  {
    RunInvariant(r);
    if Enabled(r.last, a) { StepKeeps(r.last, a); }
  }

  // ---------------------------------------------------------------------------
  // What the invariant is for
  // ---------------------------------------------------------------------------

  /**
   Looking number n up from the given tail slot of header h finds a block base as the tail's key,
   and then an entry with the key of n and a block for value.
   */
  predicate FindsBlock(ix: Index, h: nat, tail: nat, n: nat) {
    && IndexShaped(ix) && h < |ix.headers| && tail < ix.headers[h].capacity
    && var header := ix.headers[h];
    && var tailBase := ix.entries[header.index[tail]].key;
    && var e := ix.entries[header.index[Lookup(header, tail, tailBase, n)]];
    && tailBase != INVALID_BLOCK_BASE && e.key == n * BLOCK_SIZE && e.value != Null
  }

  lemma FindsBlockAt(ix: Index, h: nat, tail: nat, mt: int, n: nat)
    requires IndexShaped(ix) && h < |ix.headers| && tail < ix.headers[h].capacity
    requires mt >= 0 && tail == Slot(ix.headers[h], mt) && ix.entries[ix.headers[h].index[tail]].key == mt * BLOCK_SIZE
    requires var e := ix.entries[EntryAt(ix.headers[h], n)]; e.key == n * BLOCK_SIZE && e.value != Null
    ensures FindsBlock(ix, h, tail, n)
  {
    LookupFinds(ix.headers[h], tail, mt, n);
  }

  /**
   A consumer with a claim, whatever header and tail slot it loaded before and whatever the producer
   did since, finds the block of its claim.
   */
  lemma LookupIsRight(r: Run, t: Thread, start: nat, end: nat, h: nat, tail: nat, mt: int)
    requires IsRun(r) && t in r.last.consumers && r.last.consumers[t] == LoadKey(start, end, h, tail, mt)
    ensures FindsBlock(r.last.ix, h, tail, start / BLOCK_SIZE)
  {
    RunInvariant(r);
    LookupAt(r.last, t, start, end, h, tail, mt);
  }

  lemma LookupAt(s: State, t: Thread, start: nat, end: nat, h: nat, tail: nat, mt: int)
    requires Inv(s) && t in s.consumers && s.consumers[t] == LoadKey(start, end, h, tail, mt)
    ensures FindsBlock(s.ix, h, tail, start / BLOCK_SIZE)
  {
    assert ConsumerFine(s, t);
    RememberedTail(s, t, start, end, h, tail, mt);
    FindsLive(s, h, start / BLOCK_SIZE);
    FindsBlockAt(s.ix, h, tail, mt, start / BLOCK_SIZE);
  }

  lemma NextSlotAt(s: State, t: Thread, start: nat, end: nat, h: nat, slot: nat)
    requires Inv(s) && t in s.consumers && s.consumers[t] == LoadValue(start, end, h, slot)
    ensures h < |s.ix.headers| && slot < s.ix.headers[h].capacity
    ensures var e := s.ix.entries[s.ix.headers[h].index[slot]];
            e.key == start / BLOCK_SIZE * BLOCK_SIZE && e.value != Null
  {
    assert ConsumerFine(s, t) && ConsumerShaped(s.ix, s.mem, s.consumers[t]);
    assert start !in s.marked;
    UnmarkedIsLive(s, start);
    FindsLive(s, h, start / BLOCK_SIZE);
  }

  /** So does every slot a bulk dequeue steps on to, in the header it loaded at its start. */
  lemma NextSlotIsRight(r: Run, t: Thread, start: nat, end: nat, h: nat, slot: nat)
    requires IsRun(r) && t in r.last.consumers && r.last.consumers[t] == LoadValue(start, end, h, slot)
    ensures var ix := r.last.ix;
            && IndexShaped(ix) && h < |ix.headers| && slot < ix.headers[h].capacity
            && var e := ix.entries[ix.headers[h].index[slot]];
            && e.key == start / BLOCK_SIZE * BLOCK_SIZE && e.value != Null
  {
    RunInvariant(r);
    NextSlotAt(r.last, t, start, end, h, slot);
  }

  lemma ElementAt(s: State, t: Thread, start: nat, end: nat, h: nat, slot: nat, ptr: Ptr, i: nat)
    requires Inv(s) && t in s.consumers && s.consumers[t] == Reading(start, end, h, slot, ptr, i)
             && i < Stop(start, end)
    ensures ptr.At? && ptr.block in s.mem && |s.mem[ptr.block]| == BLOCK_SIZE && i < |s.items|
    ensures s.mem[ptr.block][i % BLOCK_SIZE] == s.items[i]
  {
    assert ConsumerFine(s, t) && ConsumerShaped(s.ix, s.mem, s.consumers[t]);
    StopInBlock(start, end);
    assert i / BLOCK_SIZE == start / BLOCK_SIZE;
    assert DataOk(s.live, s.mem, s.items, i);
  }

  /** What a consumer reads at index i is the i-th element ever enqueued here. */
  lemma ReadsItsElement(r: Run, t: Thread, start: nat, end: nat, h: nat, slot: nat, ptr: Ptr, i: nat)
    requires IsRun(r) && t in r.last.consumers && r.last.consumers[t] == Reading(start, end, h, slot, ptr, i)
    requires i < Stop(start, end)
    ensures var s := r.last;
            && ptr.At? && ptr.block in s.mem && |s.mem[ptr.block]| == BLOCK_SIZE && i < |s.items|
            && s.mem[ptr.block][i % BLOCK_SIZE] == s.items[i]
  {
    RunInvariant(r);
    ElementAt(r.last, t, start, end, h, slot, ptr, i);
  }

  /** Two consumers never have an index in common, and all their indices are below tailIndex. */
  lemma ClaimsStayApart(r: Run, t: Thread, u: Thread, i: nat)
    requires IsRun(r) && t in r.last.consumers && u in r.last.consumers
    requires Claims(r.last.consumers[t], i) && Claims(r.last.consumers[u], i)
    ensures t == u && i < r.last.tailIndex
  {
    RunInvariant(r);
    assert ConsumerFine(r.last, t);
    assert t != u ==> Apart(r.last.consumers[t], r.last.consumers[u]);
  }

  predicate Claims(p: ConsumerPc, i: nat) { !p.ConsumerIdle? && p.start <= i < p.end }

  lemma GrownTail(ix: Index, live: map<nat, Block>, last: int, junk: Ptr)
    requires IndexShaped(ix) && IndexOk(ix, live, last, -1)
    requires ix.high == Current(ix).last && ix.floor + Current(ix).capacity == ix.high + 1
    ensures var ix' := GrownIndex(ix, junk);
            IndexShaped(ix') && ix'.entries[Current(ix').index[NewTail(Current(ix'))]].key == INVALID_BLOCK_BASE
  {
    var ix' := GrownIndex(ix, junk);
    GrowWindow(ix, live, last, junk);
    GrowHeaders(ix, live, last, junk);
    assert HeaderOk(ix', |ix'.headers| - 1);
    NewTailIsNext(ix');
    assert UnusedOk(ix', ix'.high + 1);
  }

  /** After an index doubling the slot the producer goes on to has never been used. */
  lemma NewSlotIsInvalid(r: Run, c: Choice)
    requires IsRun(r) && r.last.producer.Grow? && c.Succeed?
    ensures Shaped(r.last) && var ix := DoProducer(r.last, c).ix;
            IndexShaped(ix) && ix.entries[Current(ix).index[NewTail(Current(ix))]].key == INVALID_BLOCK_BASE
  {
    RunInvariant(r);
    GrownTail(r.last.ix, r.last.live, LastBlock(r.last.tailIndex), c.junk);
  }

  /** The i-th write of an enqueue goes to a block in the index, under its number, at an unclaimed index. */
  predicate WritesOwn(s: State, got: seq<Block>, i: nat) {
    var target := WriteTarget(s.tailIndex, s.tailBlock, got, i);
    && target.At? && target.block in s.place
    && s.place[target.block] == InIndex((s.tailIndex + i) / BLOCK_SIZE)
    && forall t {:trigger s.consumers[t]} :: t in s.consumers ==> !Claims(s.consumers[t], s.tailIndex + i)
  }

  lemma WritesOwnAt(s: State, vs: seq<Value>, got: seq<Block>, i: nat)
    requires Inv(s) && s.producer == Write(vs, got, i)
    ensures WritesOwn(s, got, i)
  {
    TargetIsLive(s, vs, got, i);
    LiveBlockKnown(s, (s.tailIndex + i) / BLOCK_SIZE);
    forall t | t in s.consumers ensures !Claims(s.consumers[t], s.tailIndex + i) { assert ConsumerFine(s, t); }
  }

  /** The producer never writes into a block it has given back, nor where a consumer reads. */
  lemma WritesItsOwnBlock(r: Run, vs: seq<Value>, got: seq<Block>, i: nat)
    requires IsRun(r) && r.last.producer == Write(vs, got, i)
    ensures WritesOwn(r.last, got, i)
  {
    RunInvariant(r);
    WritesOwnAt(r.last, vs, got, i);
  }

  /** The index has block b as the value of number n. */
  predicate Indexed(s: State, n: nat, b: Block)
    requires IndexShaped(s.ix)
  {
    && s.ix.floor <= n <= s.ix.high && n != Keyed(s.producer, s.tailIndex)
    && s.ix.entries[EntryAt(Current(s.ix), n)].value == At(b)
  }

  /**
   Each block has one place, and the place is where it really is: the value of one number's entry,
   the producer's hand, one consumer's hand, or the initial pool from its index on. The other places
   are the pool, of which PoolRefines speaks, the allocator and another producer.
   */
  lemma BlockInOnePlace(r: Run, b: Block)
    requires IsRun(r) && b in r.last.place
    ensures var s := r.last;
            && Shaped(s)
            && (forall n :: Indexed(s, n, b) <==> s.place[b] == InIndex(n))
            && (InProducerHand(s.producer, b) <==> s.place[b] == ProducerHand)
            && (forall k: nat {:trigger s.initial[k]} {:trigger Initial(k)} ::
                  s.poolIndex <= k < |s.initial| && s.initial[k] == b <==> s.place[b] == Initial(k))
            && (forall t {:trigger s.consumers[t]} ::
                  t in s.consumers && s.consumers[t].Free? && s.consumers[t].b == b <==> s.place[b] == ConsumerHand(t))
  {
    var s := r.last;
    RunInvariant(r);
    assert PlaceOk(s.place, s.live, s.producer, s.consumers, b);
    forall n ensures Indexed(s, n, b) <==> s.place[b] == InIndex(n) { IndexedIsLive(s, n, b); }
    forall t | t in s.consumers && s.consumers[t].Free? && s.consumers[t].b == b ensures s.place[b] == ConsumerHand(t) {
      assert ConsumerFine(s, t);
    }
  }

  lemma IndexedIsLive(s: State, n: nat, b: Block)
    requires Inv(s) && b in s.place
    ensures Indexed(s, n, b) <==> s.place[b] == InIndex(n)
  {
    var keyed := Keyed(s.producer, s.tailIndex);
    assert PlaceOk(s.place, s.live, s.producer, s.consumers, b);
    if n in s.live { assert LiveOk(s.live, s.ix.floor, s.ix.high, keyed, s.place, n); }
    if s.ix.floor <= n <= s.ix.high { assert NumberOk(s.ix, s.live, keyed, n); }
  }

  // Who frees a block

  /** The step in which t's increment takes the counter of block number n to BLOCK_SIZE. */
  predicate Completes(s: State, a: Action, s': State, n: nat) {
    && a.ConsumerStep? && a.t in s.consumers && a.t in s'.consumers
    && s.consumers[a.t].Reading? && s'.consumers[a.t].NullEntry? && s'.consumers[a.t].number == n
  }

  function Completions(r: Run, n: nat): nat {
    match r
    case Start(_) => 0
    case Then(p, a, s) => Completions(p, n) + if Completes(p.last, a, s, n) then 1 else 0
  }

  lemma MarkFills(s: State, t: Thread, start: nat, end: nat, h: nat, slot: nat, b: Block, i: nat)
    requires Inv(s) && t in s.consumers && s.consumers[t] == Reading(start, end, h, slot, At(b), i)
    ensures b in s.count
            && start / BLOCK_SIZE * BLOCK_SIZE <= start < Stop(start, end) <= (start / BLOCK_SIZE + 1) * BLOCK_SIZE
    ensures !AllMarked(s.marked, start / BLOCK_SIZE)
    ensures s.count[b] + (Stop(start, end) - start) == BLOCK_SIZE <==>
              AllMarked(s.marked + Interval(start, Stop(start, end)), start / BLOCK_SIZE)
  {
    var stop, m := Stop(start, end), start / BLOCK_SIZE;
    var marked := s.marked + Interval(start, stop);
    MarkKnows(s, t, start, end, h, slot, b, i);
    StopInBlock(start, end);
    MarkCounts(s, m, start, stop);
    BlockMarksAdd(s.marked, m, start, stop, m);
    if AllMarked(marked, m) { MarksAll(marked, m * BLOCK_SIZE, (m + 1) * BLOCK_SIZE); }
    if s.count[b] + (stop - start) == BLOCK_SIZE { MarksFull(marked, m * BLOCK_SIZE, (m + 1) * BLOCK_SIZE); }
    assert start !in s.marked;
  }

  lemma OtherBlocksMarks(marked: set<nat>, start: nat, stop: nat, m: nat, n: nat)
    requires m * BLOCK_SIZE <= start <= stop <= (m + 1) * BLOCK_SIZE && n != m
    ensures AllMarked(marked + Interval(start, stop), n) <==> AllMarked(marked, n)
  {
    var marked' := marked + Interval(start, stop);
    forall i | n * BLOCK_SIZE <= i < (n + 1) * BLOCK_SIZE ensures i in marked <==> i in marked' {}
  }

  lemma MarkCompletes(s: State, t: Thread, n: nat)
    requires Inv(s) && IsMark(s, ConsumerStep(t))
    ensures var s' := DoConsumer(s, t);
            && (Completes(s, ConsumerStep(t), s', n) <==> !AllMarked(s.marked, n) && AllMarked(s'.marked, n))
            && (AllMarked(s.marked, n) ==> AllMarked(s'.marked, n))
  {
    var p := s.consumers[t];
    assert ConsumerShaped(s.ix, s.mem, p);
    MarkFills(s, t, p.start, p.end, p.h, p.slot, p.ptr.block, p.i);
    if n != p.start / BLOCK_SIZE { OtherBlocksMarks(s.marked, p.start, Stop(p.start, p.end), p.start / BLOCK_SIZE, n); }
  }

  lemma NoCompletion(s: State, a: Action, n: nat)
    requires Shaped(s) && Enabled(s, a) && Ready(s, a) && !IsMark(s, a)
    ensures Do(s, a).marked == s.marked && !Completes(s, a, Do(s, a), n)
  {
    OnlyMarksMark(s, a);
    if a.ConsumerStep? { assert ConsumerShaped(s.ix, s.mem, s.consumers[a.t]); }
  }

  lemma {:induction false} MarksAll(marked: set<nat>, lo: nat, hi: nat)
    requires lo <= hi && forall i {:trigger i in marked} :: lo <= i < hi ==> i in marked
    ensures Marks(marked, lo, hi) == hi - lo
    decreases hi
  {
    if lo < hi { MarksAll(marked, lo, hi - 1); }
  }

  /** What the producer's steps leave to the consumers. */
  predicate ConsumersAlone(s: State, s': State) {
    && s'.consumers == s.consumers && s'.marked == s.marked && s'.headIndex == s.headIndex
       && s'.delivered == s.delivered
    && s.items <= s'.items
  }

  lemma PlacingFrame(s: State, c: Choice)
    requires Shaped(s) && Placing(s.producer) && KeyReady(s)
    ensures ConsumersAlone(s, DoPlacing(s, c)) && DoPlacing(s, c).live == s.live
  {
  }

  lemma AcquiringFrame(s: State, c: Choice)
    requires Shaped(s) && Acquiring(s.producer)
    ensures ConsumersAlone(s, DoAcquiring(s, c))
    ensures forall n {:trigger n in DoAcquiring(s, c).live} :: n in DoAcquiring(s, c).live ==>
              n in s.live || (s.producer.StoreValue? && n == if Current(s.ix).last >= 0 then Current(s.ix).last else 0)
  {
  }

  lemma FillingFrame(s: State)
    requires Shaped(s) && Filling(s.producer)
    ensures ConsumersAlone(s, DoFilling(s)) && DoFilling(s).live == s.live
  {
  }

  lemma FailingFrame(s: State)
    requires Shaped(s) && Failing(s.producer)
    ensures ConsumersAlone(s, DoFailing(s)) && DoFailing(s).live.Keys <= s.live.Keys
  {
  }

  lemma ProducerFrame(s: State, c: Choice)
    requires Shaped(s) && !s.producer.ProducerIdle? && KeyReady(s)
    ensures ConsumersAlone(s, DoProducer(s, c))
  {
    if Placing(s.producer) { PlacingFrame(s, c); }
    else if Acquiring(s.producer) { AcquiringFrame(s, c); }
    else if Filling(s.producer) { FillingFrame(s); }
    else { FailingFrame(s); }
  }

  predicate IsMark(s: State, a: Action) {
    a.ConsumerStep? && a.t in s.consumers && s.consumers[a.t].Reading? &&
    s.consumers[a.t].i >= Stop(s.consumers[a.t].start, s.consumers[a.t].end)
  }

  /** A step that is not a consumer's increment of a counter marks nothing. */
  lemma OnlyMarksMark(s: State, a: Action)
    requires Shaped(s) && Enabled(s, a) && Ready(s, a) && !IsMark(s, a)
    ensures Do(s, a).marked == s.marked
  {
    if a.ProducerStep? { ProducerFrame(s, a.choice); }
    else if a.ConsumerStep? { ConsumerMarksNothing(s, a.t); }
  }

  lemma ConsumerMarksNothing(s: State, t: Thread)
    requires Shaped(s) && Enabled(s, ConsumerStep(t)) && !IsMark(s, ConsumerStep(t))
    ensures DoConsumer(s, t).marked == s.marked && DoConsumer(s, t).headIndex == s.headIndex
            && DoConsumer(s, t).items == s.items
  {
  }

  /** The counter of a block reaches BLOCK_SIZE for one consumer only: the one that marks the last index. */
  lemma {:induction false} OneConsumerCompletes(r: Run, n: nat)
    requires IsRun(r)
    ensures Completions(r, n) == if AllMarked(r.last.marked, n) then 1 else 0
  {
    match r
    case Start(s) => assert n * BLOCK_SIZE !in s.marked;
    case Then(p, a, s) =>
      OneConsumerCompletes(p, n);
      RunInvariant(p);
      if IsMark(p.last, a) { MarkCompletes(p.last, a.t, n); }
      else { NoCompletion(p.last, a, n); }
  }

  /** An increment never takes a counter past BLOCK_SIZE. */
  lemma CounterStaysInBlock(r: Run, t: Thread)
    requires IsRun(r) && t in r.last.consumers && r.last.consumers[t].Reading?
    requires r.last.consumers[t].i >= Stop(r.last.consumers[t].start, r.last.consumers[t].end)
    ensures var p := r.last.consumers[t];
            && p.ptr.At? && p.ptr.block in r.last.count
            && r.last.count[p.ptr.block] + (Stop(p.start, p.end) - p.start) <= BLOCK_SIZE
  {
    var s, p := r.last, r.last.consumers[t];
    RunInvariant(r);
    assert ConsumerFine(s, t) && ConsumerShaped(s.ix, s.mem, p);
    MarkFits(s, t, p.start, p.end, p.h, p.slot, p.ptr.block, p.i);
  }

  /** The producer, in the current header, finds the entry of its j-th block's number, and the block in it. */
  predicate FindsOwn(s: State, got: seq<Block>, j: nat)
    requires j < |got|
  {
    var ix, n := s.ix, LastBlock(s.tailIndex) + 1 + j;
    && n >= 0 && IndexShaped(ix) && FindsBlock(ix, |ix.headers| - 1, Current(ix).tail, n)
    && ix.entries[EntryAt(Current(ix), n)].value == At(got[j])
  }

  /** The producer's own lookups, when it takes its blocks out again, find those blocks' entries. */
  lemma UndoLookupIsRight(r: Run, vs: seq<Value>, got: seq<Block>, j: nat)
    requires IsRun(r) && r.last.producer == Undo(vs, got, j) && j < |got|
    ensures FindsOwn(r.last, got, j)
  {
    RunInvariant(r);
    UndoFinds(r.last, vs, got, j);
  }

  lemma UndoFinds(s: State, vs: seq<Value>, got: seq<Block>, j: nat)
    requires Inv(s) && s.producer == Undo(vs, got, j) && j < |got|
    ensures FindsOwn(s, got, j)
  {
    var h, n := Current(s.ix), LastBlock(s.tailIndex) + 1 + j;
    UndoLookup(s, vs, got, j);
    assert HeaderOk(s.ix, |s.ix.headers| - 1) && NumberOk(s.ix, s.live, -1, h.last);
    assert NumberOk(s.ix, s.live, -1, n);
    FindsBlockAt(s.ix, |s.ix.headers| - 1, h.tail, h.last, n);
  }

  // ---------------------------------------------------------------------------
  // enqueue_bulk is all or nothing
  // ---------------------------------------------------------------------------

  /** The run goes on, up to its return at the latest, with the call enqueuing vs made in state s0. */
  ghost predicate CallSince(r: Run, s0: State, vs: seq<Value>) {
    r.Then? &&
    ((r.action == CallEnqueue(vs) && s0 == r.prev.last) ||
     (CallSince(r.prev, s0, vs) && !r.prev.last.producer.ProducerIdle?))
  }

  /** As long as no header was added, the current one differs only in its tail. */
  predicate SameHeader(ix0: Index, ix: Index) {
    && 0 < |ix0.headers| <= |ix.headers|
    && (|ix0.headers| == |ix.headers| ==>
          Current(ix) == Current(ix0).(tail := Current(ix).tail, last := Current(ix).last))
  }

  predicate InCall(s0: State, s: State, vs: seq<Value>) {
    && s.items == s0.items && s.tailIndex == s0.tailIndex && s.tailBlock == s0.tailBlock
    && !s.producer.ProducerIdle? && s.producer.vs == vs && SameHeader(s0.ix, s.ix)
  }

  /** The producer is where it was: contents, tail, tail block, the index's tail, and no block in hand. */
  predicate BackTo(s0: State, s: State) {
    && s.items == s0.items && s.tailIndex == s0.tailIndex && s.tailBlock == s0.tailBlock
    && |s0.ix.headers| > 0 && |s.ix.headers| > 0
    && Current(s.ix).last == Current(s0.ix).last
    && (|s.ix.headers| == |s0.ix.headers| ==> Current(s.ix) == Current(s0.ix))
  }

  predicate Appended(s0: State, s: State, vs: seq<Value>) {
    s.items == s0.items + vs && s.tailIndex == s0.tailIndex + |vs|
  }

  /** Nothing of the last enqueue is left over: no block in the producer's hand, none past the tail. */
  predicate NothingInHand(s: State) {
    && (forall b {:trigger s.place[b]} :: b in s.place ==> s.place[b] != ProducerHand)
    && (forall n {:trigger n in s.live} :: n in s.live ==> n <= LastBlock(s.tailIndex))
  }

  /** What one step of a call may do: go on, commit, or return with everything as it was. */
  predicate Progress(s0: State, s: State, s': State, vs: seq<Value>) {
    if !s'.producer.ProducerIdle? then InCall(s0, s', vs)
    else if s.producer.Commit? then Appended(s0, s', vs)
    else
      && s'.items == s0.items && s'.tailIndex == s0.tailIndex && s'.tailBlock == s0.tailBlock
      && SameHeader(s0.ix, s'.ix)
  }

  lemma PlacingProgress(s0: State, s: State, c: Choice, vs: seq<Value>)
    requires Shaped(s) && InCall(s0, s, vs) && Placing(s.producer) && KeyReady(s)
    ensures Progress(s0, s, DoPlacing(s, c), vs)
  {
    if s.producer.Grow? && c.Succeed? { assert |DoPlacing(s, c).ix.headers| == |s.ix.headers| + 1; }
  }

  lemma AcquiringProgress(s0: State, s: State, c: Choice, vs: seq<Value>)
    requires Shaped(s) && InCall(s0, s, vs) && Acquiring(s.producer)
    ensures Progress(s0, s, DoAcquiring(s, c), vs)
  {
  }

  lemma FillingProgress(s0: State, s: State, vs: seq<Value>)
    requires Shaped(s) && InCall(s0, s, vs) && Filling(s.producer)
    ensures Progress(s0, s, DoFilling(s), vs)
  {
  }

  lemma FailingProgress(s0: State, s: State, vs: seq<Value>)
    requires Shaped(s) && InCall(s0, s, vs) && Failing(s.producer)
    ensures Progress(s0, s, DoFailing(s), vs)
  {
  }

  lemma CallStep(s0: State, s: State, a: Action, vs: seq<Value>)
    requires Shaped(s) && InCall(s0, s, vs) && Enabled(s, a) && Ready(s, a)
    ensures Progress(s0, s, Do(s, a), vs)
  {
    if a.ProducerStep? {
      if Placing(s.producer) { PlacingProgress(s0, s, a.choice, vs); }
      else if Acquiring(s.producer) { AcquiringProgress(s0, s, a.choice, vs); }
      else if Filling(s.producer) { FillingProgress(s0, s, vs); }
      else { FailingProgress(s0, s, vs); }
    } else { ProducerUndisturbed(s, a); }
  }

  lemma {:induction false} CallProgress(r: Run, s0: State, vs: seq<Value>)
    requires IsRun(r) && CallSince(r, s0, vs)
    ensures Progress(s0, r.prev.last, r.last, vs)
    ensures exists q :: IsRun(q) && q.last == s0 && s0.producer.ProducerIdle?
  {
    if r.action == CallEnqueue(vs) && s0 == r.prev.last {
      assert IsRun(r.prev);
    } else {
      CallProgress(r.prev, s0, vs);
      CallStep(s0, r.prev.last, r.action, vs);
    }
  }

  /** The tail slot is the committed tail's. */
  predicate AtRest(ix: Index, tailIndex: nat) {
    && |ix.headers| > 0
    && var h := Current(ix);
    && h.last == LastBlock(tailIndex) && h.capacity > 0 && h.tail == Slot(h, h.last)
  }

  lemma IdleIsClean(r: Run)
    requires IsRun(r) && r.last.producer.ProducerIdle?
    ensures NothingInHand(r.last) && AtRest(r.last.ix, r.last.tailIndex)
  {
    var s := r.last;
    RunInvariant(r);
    forall b | b in s.place ensures s.place[b] != ProducerHand {
      assert PlaceOk(s.place, s.live, s.producer, s.consumers, b);
    }
    assert HeaderOk(s.ix, |s.ix.headers| - 1);
  }

  /** An index or a block could not be allocated. */
  predicate AllocationFails(s: State, a: Action) {
    a == ProducerStep(Fail) && (s.producer.Grow? || s.producer.TakeFree?)
  }

  /** An allocation failed since the call. */
  ghost predicate FailedIn(r: Run, s0: State, vs: seq<Value>) {
    CallSince(r, s0, vs) && !(r.action == CallEnqueue(vs) && s0 == r.prev.last) &&
    (AllocationFails(r.prev.last, r.action) || FailedIn(r.prev, s0, vs))
  }

  /** A call turns to undoing by a failed allocation only, and does not turn back. */
  predicate Turns(s: State, a: Action, s': State) {
    if s'.producer.ProducerIdle? then s.producer.Commit? <==> !Failing(s.producer)
    else Failing(s'.producer) <==> Failing(s.producer) || AllocationFails(s, a)
  }

  lemma PlacingTurns(s: State, c: Choice)
    requires Shaped(s) && Placing(s.producer) && KeyReady(s)
    ensures Turns(s, ProducerStep(c), DoPlacing(s, c)) && !DoPlacing(s, c).producer.ProducerIdle?
  {
  }

  lemma AcquiringTurns(s: State, c: Choice)
    requires Shaped(s) && Acquiring(s.producer)
    ensures Turns(s, ProducerStep(c), DoAcquiring(s, c)) && !DoAcquiring(s, c).producer.ProducerIdle?
  {
  }

  lemma FillingTurns(s: State, c: Choice)
    requires Shaped(s) && Filling(s.producer)
    ensures Turns(s, ProducerStep(c), DoFilling(s))
  {
  }

  lemma FailingTurns(s: State, c: Choice)
    requires Shaped(s) && Failing(s.producer)
    ensures Turns(s, ProducerStep(c), DoFailing(s))
  {
  }

  lemma StepTurns(s: State, a: Action)
    requires Shaped(s) && Enabled(s, a) && Ready(s, a) && !s.producer.ProducerIdle?
    ensures Turns(s, a, Do(s, a))
  {
    if a.ProducerStep? {
      if Placing(s.producer) { PlacingTurns(s, a.choice); }
      else if Acquiring(s.producer) { AcquiringTurns(s, a.choice); }
      else if Filling(s.producer) { FillingTurns(s, a.choice); }
      else { FailingTurns(s, a.choice); }
    } else { ProducerUndisturbed(s, a); }
  }

  lemma ProducerUndisturbed(s: State, a: Action)
    requires Shaped(s) && Enabled(s, a) && !a.ProducerStep? && !a.CallEnqueue?
    ensures Do(s, a).producer == s.producer && Do(s, a).ix.headers == s.ix.headers && Do(s, a).items == s.items
    ensures Do(s, a).tailIndex == s.tailIndex && Do(s, a).tailBlock == s.tailBlock
  {
    if a.ConsumerStep? { assert ConsumerShaped(s.ix, s.mem, s.consumers[a.t]); }
  }

  lemma {:induction false} FailingIffFailed(r: Run, s0: State, vs: seq<Value>)
    requires IsRun(r) && CallSince(r, s0, vs) && !r.last.producer.ProducerIdle?
    ensures Failing(r.last.producer) <==> FailedIn(r, s0, vs)
  {
    if !(r.action == CallEnqueue(vs) && s0 == r.prev.last) {
      FailingIffFailed(r.prev, s0, vs);
      StepTurns(r.prev.last, r.action);
    }
  }

  /** The call has returned: it committed if no allocation failed, and only then. */
  lemma CommittedIffNotFailed(r: Run, s0: State, vs: seq<Value>)
    requires IsRun(r) && CallSince(r, s0, vs) && r.last.producer.ProducerIdle?
    ensures r.prev.last.producer.Commit? <==> !FailedIn(r, s0, vs)
  {
    if !(r.action == CallEnqueue(vs) && s0 == r.prev.last) {
      FailingIffFailed(r.prev, s0, vs);
      StepTurns(r.prev.last, r.action);
    }
  }

  predicate Outcome(s0: State, committed: bool, s: State, vs: seq<Value>) {
    if committed then Appended(s0, s, vs) else BackTo(s0, s)
  }

  lemma RestsAgain(s0: State, before: State, s: State, vs: seq<Value>)
    requires Progress(s0, before, s, vs) && s.producer.ProducerIdle?
    requires AtRest(s0.ix, s0.tailIndex) && AtRest(s.ix, s.tailIndex)
    ensures Outcome(s0, before.producer.Commit?, s, vs)
  {
  }

  /**
   When an enqueue returns, whatever consumers and other producers did meanwhile: if no allocation
   failed, exactly its elements were appended, in order; if one failed, at whatever point, everything
   is as at the call. Both ways every other acquired block has been given back.
   */
  lemma EnqueueIsAllOrNothing(r: Run, s0: State, vs: seq<Value>)
    requires IsRun(r) && CallSince(r, s0, vs) && r.last.producer.ProducerIdle?
    ensures Outcome(s0, !FailedIn(r, s0, vs), r.last, vs) && NothingInHand(r.last)
  {
    CallProgress(r, s0, vs);
    CommittedIffNotFailed(r, s0, vs);
    var q :| IsRun(q) && q.last == s0 && s0.producer.ProducerIdle?;
    IdleIsClean(q);
    IdleIsClean(r);
    RestsAgain(s0, r.prev.last, r.last, vs);
  }

  // ---------------------------------------------------------------------------
  // No block is lost
  // ---------------------------------------------------------------------------

  ghost predicate Claimed(consumers: map<Thread, ConsumerPc>, i: nat) {
    exists t {:trigger consumers[t]} :: t in consumers && Claims(consumers[t], i)
  }

  ghost predicate Freeing(consumers: map<Thread, ConsumerPc>, n: nat) {
    exists t {:trigger consumers[t]} :: t in consumers && consumers[t].NullEntry? && consumers[t].number == n
  }

  /** Every taken index not yet marked is some consumer's, and so is every emptied block still entered. */
  ghost predicate NothingForgotten(s: State) {
    && (forall i {:trigger Claimed(s.consumers, i)} :: 0 <= i < s.headIndex ==>
          i in s.marked || Claimed(s.consumers, i))
    && (forall n {:trigger Freeing(s.consumers, n)} :: n in s.live && AllMarked(s.marked, n) ==>
          Freeing(s.consumers, n))
  }

  lemma ClaimedMoves(consumers: map<Thread, ConsumerPc>, t: Thread, p: ConsumerPc, i: nat)
    requires t in consumers && Claimed(consumers, i) && (Claims(consumers[t], i) ==> Claims(p, i))
    ensures Claimed(consumers[t := p], i)
  {
    var u :| u in consumers && Claims(consumers[u], i);
    assert Claims(consumers[t := p][u], i);
  }

  lemma FreeingMoves(consumers: map<Thread, ConsumerPc>, t: Thread, p: ConsumerPc, n: nat)
    requires t in consumers && Freeing(consumers, n) && !(consumers[t].NullEntry? && consumers[t].number == n)
    ensures Freeing(consumers[t := p], n)
  {
    var u :| u in consumers && consumers[u].NullEntry? && consumers[u].number == n;
    assert consumers[t := p][u].NullEntry?;
  }

  /** A consumer step other than a mark or the removal of an entry keeps the claim. */
  lemma QuietStep(s: State, t: Thread, i: nat)
    requires Inv(s) && t in s.consumers && Enabled(s, ConsumerStep(t)) && Claims(s.consumers[t], i)
    requires s.consumers[t].Reading? ==> s.consumers[t].i < Stop(s.consumers[t].start, s.consumers[t].end)
    ensures Claims(DoConsumer(s, t).consumers[t], i)
  {
    assert ConsumerFine(s, t) && ConsumerShaped(s.ix, s.mem, s.consumers[t]);
  }

  lemma MarkForgetsNothing(s: State, t: Thread)
    requires Inv(s) && NothingForgotten(s) && t in s.consumers && s.consumers[t].Reading?
    requires s.consumers[t].i >= Stop(s.consumers[t].start, s.consumers[t].end)
    ensures NothingForgotten(DoConsumer(s, t))
  {
    var s', p := DoConsumer(s, t), s.consumers[t];
    assert ConsumerFine(s, t) && ConsumerShaped(s.ix, s.mem, p);
    StopInBlock(p.start, p.end);
    forall i: nat | i < s'.headIndex ensures i in s'.marked || Claimed(s'.consumers, i) {
      assert i in s.marked || Claimed(s.consumers, i);
      if i !in s'.marked { ClaimedMoves(s.consumers, t, s'.consumers[t], i); }
    }
    forall n | n in s'.live && AllMarked(s'.marked, n) ensures Freeing(s'.consumers, n) {
      MarkCompletes(s, t, n);
      if AllMarked(s.marked, n) { FreeingMoves(s.consumers, t, s'.consumers[t], n); }
      else { assert Completes(s, ConsumerStep(t), s', n); }
    }
  }

  lemma ConsumerForgetsNothing(s: State, t: Thread)
    requires Inv(s) && NothingForgotten(s) && Enabled(s, ConsumerStep(t))
    ensures NothingForgotten(DoConsumer(s, t))
  {
    var s', p := DoConsumer(s, t), s.consumers[t];
    if IsMark(s, ConsumerStep(t)) { MarkForgetsNothing(s, t); }
    else {
      ConsumerMarksNothing(s, t);
      forall i: nat | i < s'.headIndex ensures i in s'.marked || Claimed(s'.consumers, i) {
        assert i in s.marked || Claimed(s.consumers, i);
        if i !in s.marked {
          if Claims(p, i) { QuietStep(s, t, i); }
          ClaimedMoves(s.consumers, t, s'.consumers[t], i);
        }
      }
      forall n | n in s'.live && AllMarked(s'.marked, n) ensures Freeing(s'.consumers, n) {
        FreeingMoves(s.consumers, t, s'.consumers[t], n);
      }
    }
  }

  lemma ClaimForgetsNothing(s: State, t: Thread, n: nat)
    requires NothingForgotten(s) && Shaped(s) && Enabled(s, Claim(t, n))
    ensures NothingForgotten(Do(s, Claim(t, n)))
  {
    var s' := Do(s, Claim(t, n));
    forall i: nat | i < s'.headIndex ensures i in s'.marked || Claimed(s'.consumers, i) {
      if i < s.headIndex {
        assert i in s.marked || Claimed(s.consumers, i);
        if i !in s.marked { ClaimedMoves(s.consumers, t, s'.consumers[t], i); }
      } else { assert Claims(s'.consumers[t], i); }
    }
    forall m | m in s'.live && AllMarked(s'.marked, m) ensures Freeing(s'.consumers, m) {
      FreeingMoves(s.consumers, t, s'.consumers[t], m);
    }
  }

  /** A number that the producer makes live is past the marks. */
  lemma NewlyLive(s: State, a: Action, n: nat)
    requires Inv(s) && Enabled(s, a) && Ready(s, a) && !a.ConsumerStep? && n in Do(s, a).live && AllMarked(s.marked, n)
    ensures n in s.live
  {
    assert n * BLOCK_SIZE in s.marked;
    if a.ProducerStep? {
      if Placing(s.producer) { PlacingFrame(s, a.choice); }
      else if Acquiring(s.producer) { AcquiringFrame(s, a.choice); }
      else if Filling(s.producer) { FillingFrame(s); }
      else { FailingFrame(s); }
    }
  }

  lemma OtherForgetsNothing(s: State, a: Action)
    requires Inv(s) && NothingForgotten(s) && Enabled(s, a) && Ready(s, a) && !a.ConsumerStep? && !a.Claim?
    ensures NothingForgotten(Do(s, a))
  {
    var s' := Do(s, a);
    OtherFrame(s, a);
    forall i: nat | i < s'.headIndex ensures i in s'.marked || Claimed(s'.consumers, i) {
      assert i in s.marked || Claimed(s.consumers, i);
    }
    forall n | n in s'.live && AllMarked(s'.marked, n) ensures Freeing(s'.consumers, n) {
      NewlyLive(s, a, n);
      assert Freeing(s.consumers, n);
    }
  }

  lemma OtherFrame(s: State, a: Action)
    requires Shaped(s) && Enabled(s, a) && Ready(s, a) && !a.ConsumerStep? && !a.Claim?
    ensures ConsumersAlone(s, Do(s, a))
  {
    if a.ProducerStep? { ProducerFrame(s, a.choice); }
  }

  lemma {:induction false} RunForgetsNothing(r: Run)
    requires IsRun(r)
    ensures NothingForgotten(r.last)
  {
    match r
    case Start(s) =>
    case Then(p, a, s) =>
      RunForgetsNothing(p);
      RunInvariant(p);
      if a.ConsumerStep? { ConsumerForgetsNothing(p.last, a.t); }
      else if a.Claim? { ClaimForgetsNothing(p.last, a.t, a.n); }
      else { OtherForgetsNothing(p.last, a); }
  }

  /**
   When producer and consumers are outside their operations the index holds exactly the blocks with
   an element not yet dequeued; every other block is back in the pool or with another producer.
   */
  lemma QuiescentIndexIsExact(r: Run)
    requires IsRun(r) && r.last.producer.ProducerIdle?
    requires forall t {:trigger r.last.consumers[t]} :: t in r.last.consumers ==> r.last.consumers[t] == ConsumerIdle
    ensures var s := r.last;
            && (forall n :: n in s.live <==> s.headIndex / BLOCK_SIZE <= n <= LastBlock(s.tailIndex))
            && (forall b :: b in s.place ==> s.place[b] != ProducerHand && !s.place[b].ConsumerHand?)
  {
    var s := r.last;
    RunInvariant(r);
    RunForgetsNothing(r);
    IdleIsClean(r);
    forall i: nat | i < s.headIndex ensures i in s.marked { assert i in s.marked || Claimed(s.consumers, i); }
    forall n ensures n in s.live <==> s.headIndex / BLOCK_SIZE <= n <= LastBlock(s.tailIndex) {
      if 0 <= n < s.headIndex / BLOCK_SIZE {
        assert AllMarked(s.marked, n);
        assert !Freeing(s.consumers, n);
      }
      if s.headIndex / BLOCK_SIZE <= n <= LastBlock(s.tailIndex) {
        assert DoneOk(s.live, s.marked, n);
        assert (n + 1) * BLOCK_SIZE - 1 !in s.marked;
      }
    }
    forall b | b in s.place ensures s.place[b] != ProducerHand && !s.place[b].ConsumerHand? {
      assert PlaceOk(s.place, s.live, s.producer, s.consumers, b);
    }
  }

  // ---------------------------------------------------------------------------
  // The pool is a pool
  // ---------------------------------------------------------------------------

  function FreeBlocks(s: State): set<Block> { set b | b in s.place && s.place[b] == Pool }

  /** What a step means to the pool. */
  function EventOf(s: State, a: Action): PoolEvent {
    match a
    case ProducerStep(c) =>
      if s.producer.TakeFree? && c.Succeed? && c.b in s.place && s.place[c.b] == Pool then Took(c.b)
      else if s.producer.Release? && s.producer.j < |s.producer.got| then Gave(s.producer.got[s.producer.j])
      else Quiet
    case ConsumerStep(t) => if t in s.consumers && s.consumers[t].Free? then Gave(s.consumers[t].b) else Quiet
    case Environment(b, taken) =>
      if !taken then Gave(b) else if b in s.place && s.place[b] == Pool then Took(b) else Quiet
    case _ => Quiet
  }

  /** A block that a step gives back is not in the pool. */
  lemma GivenIsOutside(s: State, a: Action)
    requires Inv(s) && Enabled(s, a) && EventOf(s, a).Gave?
    ensures EventOf(s, a).block !in FreeBlocks(s)
  {
    if a.ConsumerStep? { assert ConsumerFine(s, a.t); }
  }

  lemma ProducerPool(s: State, c: Choice)
    requires Inv(s) && Enabled(s, ProducerStep(c)) && KeyReady(s)
    ensures forall b {:trigger b in FreeBlocks(DoProducer(s, c))} :: b in FreeBlocks(DoProducer(s, c)) <==>
              (b in FreeBlocks(s) && EventOf(s, ProducerStep(c)) != Took(b)) || EventOf(s, ProducerStep(c)) == Gave(b)
  {
    if Placing(s.producer) { assert DoPlacing(s, c).place == s.place; }
    else if Acquiring(s.producer) { AcquiringPool(s, c); }
    else if Filling(s.producer) { assert DoFilling(s).place == s.place; }
    else { FailingPool(s, c); }
  }

  lemma AcquiringPool(s: State, c: Choice)
    requires Inv(s) && Acquiring(s.producer) && Enabled(s, ProducerStep(c))
    ensures forall b {:trigger b in FreeBlocks(DoAcquiring(s, c))} :: b in FreeBlocks(DoAcquiring(s, c)) <==>
              b in FreeBlocks(s) && EventOf(s, ProducerStep(c)) != Took(b)
  {
    if s.producer.TakeInitial? && s.poolIndex < |s.initial| {
      assert s.place[s.initial[s.poolIndex]] == Initial(s.poolIndex);
    }
  }

  lemma FailingPool(s: State, c: Choice)
    requires Inv(s) && Failing(s.producer)
    ensures forall b {:trigger b in FreeBlocks(DoFailing(s))} :: b in FreeBlocks(DoFailing(s)) <==>
              b in FreeBlocks(s) || EventOf(s, ProducerStep(c)) == Gave(b)
  {
    if s.producer.Undo? && s.producer.j < |s.producer.got| {
      var p := s.producer;
      UndoIndex(s, p.vs, p.got, p.j);
    }
  }

  lemma ConsumerPool(s: State, t: Thread)
    requires Inv(s) && Enabled(s, ConsumerStep(t))
    ensures forall b {:trigger b in FreeBlocks(DoConsumer(s, t))} :: b in FreeBlocks(DoConsumer(s, t)) <==>
              b in FreeBlocks(s) || EventOf(s, ConsumerStep(t)) == Gave(b)
  {
    var p := s.consumers[t];
    assert ConsumerFine(s, t) && ConsumerShaped(s.ix, s.mem, p);
    if p.NullEntry? { NullEntryKnows(s, t, p.start, p.end, p.h, p.slot, p.b, p.number); }
  }

  /** To its users the pool is one: each step takes a block that is in it, gives one that is not, or leaves it. */
  lemma PoolRefines(r: Run, a: Action)
    requires IsRun(r) && Shaped(r.last) && Enabled(r.last, a)
    ensures PoolFollows(r.last, a)
  {
    RunInvariant(r);
    StepKeeps(r.last, a);
    PoolAt(r.last, a);
  }

  predicate PoolFollows(s: State, a: Action) {
    Shaped(s) && Enabled(s, a) && Ready(s, a) && PoolStep(FreeBlocks(s), EventOf(s, a), FreeBlocks(Do(s, a)))
  }

  lemma EnvironmentPool(s: State, a: Action)
    requires Inv(s) && Enabled(s, a) && !a.ProducerStep? && !a.ConsumerStep?
    ensures forall b {:trigger b in FreeBlocks(Do(s, a))} :: b in FreeBlocks(Do(s, a)) <==>
              (b in FreeBlocks(s) && EventOf(s, a) != Took(b)) || EventOf(s, a) == Gave(b)
  {
    if a == EnvironmentInitial && s.poolIndex < |s.initial| {
      assert s.place[s.initial[s.poolIndex]] == Initial(s.poolIndex);
    }
  }

  lemma PoolStepIs(pool: set<Block>, e: PoolEvent, pool': set<Block>)
    requires e.Took? ==> e.block in pool
    requires e.Gave? ==> e.block !in pool
    requires forall b {:trigger b in pool'} :: b in pool' <==> (b in pool && e != Took(b)) || e == Gave(b)
    ensures PoolStep(pool, e, pool')
  {
  }

  lemma PoolAt(s: State, a: Action)
    requires Inv(s) && Enabled(s, a) && Ready(s, a)
    ensures PoolFollows(s, a)
  {
    if EventOf(s, a).Gave? { GivenIsOutside(s, a); }
    if a.ProducerStep? { ProducerPool(s, a.choice); }
    else if a.ConsumerStep? { ConsumerPool(s, a.t); }
    else { EnvironmentPool(s, a); }
    PoolStepIs(FreeBlocks(s), EventOf(s, a), FreeBlocks(Do(s, a)));
  }
}
