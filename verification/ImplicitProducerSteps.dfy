/** Every step of ImplicitProducer keeps its invariant: one lemma a step, and the arithmetic and frames they share. */
module ImplicitProducerSteps {
  import opened Basics
  import opened BlockPool
  import opened ImplicitProducer
  import opened Modular

  // ---------------------------------------------------------------------------
  // Slots on the circle
  // ---------------------------------------------------------------------------

  /** Moving k slots round the circle is moving k block numbers. */
  lemma SlotMoves(h: Header, n: int, k: int)
    requires h.capacity > 0
    ensures (Slot(h, n) + k) % h.capacity == Slot(h, n + k)
  {
    ModAdd(n + h.off, k, h.capacity);
    assert n + h.off + k == n + k + h.off;
  }

  /** Numbers less than one turn apart have different entries. */
  lemma EntriesDistinct(h: Header, m: int, n: int)
    requires h.capacity > 0 && |h.index| == h.capacity && NoDup(h.index)
    requires m != n && m - n < h.capacity && n - m < h.capacity
    ensures EntryAt(h, m) != EntryAt(h, n)
  {
    if m < n { ModDistinct(m + h.off, n + h.off, h.capacity); }
    else { ModDistinct(n + h.off, m + h.off, h.capacity); }
    var i, j := Slot(h, m), Slot(h, n);
    if i < j { assert h.index[i] != h.index[j]; } else { assert h.index[j] != h.index[i]; }
  }

  // ---------------------------------------------------------------------------
  // Consumer steps keep the invariant
  // ---------------------------------------------------------------------------

  lemma ApartUpdate(consumers: map<Thread, ConsumerPc>, t: Thread, p: ConsumerPc)
    requires t in consumers && AllApart(consumers)
    requires forall u {:trigger Apart(p, consumers[u])} :: u in consumers && u != t ==> Apart(p, consumers[u])
    ensures AllApart(consumers[t := p])
  {
    var c := consumers[t := p];
    forall u, v | u in c && v in c && u != v ensures Apart(c[u], c[v]) {
      if u == t { assert Apart(p, consumers[v]); }
      else if v == t { assert Apart(p, consumers[u]); }
      else { assert Apart(consumers[u], consumers[v]); }
    }
  }

  /** p claims no more than q did, and is not about to release a block. */
  predicate Shrinks(q: ConsumerPc, p: ConsumerPc) {
    && !p.NullEntry?
    && (!p.ConsumerIdle? ==> !q.ConsumerIdle? && q.start <= p.start && p.end == q.end)
  }

  lemma ApartShrinks(consumers: map<Thread, ConsumerPc>, t: Thread, p: ConsumerPc)
    requires t in consumers && AllApart(consumers) && Shrinks(consumers[t], p)
    ensures AllApart(consumers[t := p])
  {
    forall u | u in consumers && u != t ensures Apart(p, consumers[u]) { assert Apart(consumers[t], consumers[u]); }
    ApartUpdate(consumers, t, p);
  }

  lemma PlacesConsumer(s: State, t: Thread, p: ConsumerPc)
    requires t in s.consumers && !s.consumers[t].Free? && PlacesOk(s.place, s.live, s.producer, s.consumers)
    ensures PlacesOk(s.place, s.live, s.producer, s.consumers[t := p])
  {
    forall b | b in s.place ensures PlaceOk(s.place, s.live, s.producer, s.consumers[t := p], b) {
      assert PlaceOk(s.place, s.live, s.producer, s.consumers, b);
    }
  }

  lemma OthersFine(s: State, t: Thread, p: ConsumerPc)
    requires Shaped(s) && t in s.consumers && ConsumersOk(s) && ConsumerShaped(s.ix, s.mem, p)
    requires ConsumerOk(p, t, s.ix, s.mem, s.live, s.marked, s.headIndex, s.place)
    ensures Shaped(Goto(s, t, p)) && ConsumersOk(Goto(s, t, p))
  {
    var s' := Goto(s, t, p);
    forall u | u in s'.consumers ensures ConsumerFine(s', u) {
      if u != t { assert ConsumerFine(s, u); }
    }
  }

  /** A consumer's load: nothing but its own program counter changes. */
  lemma LoadKeeps(s: State, t: Thread, p: ConsumerPc)
    requires Inv(s) && t in s.consumers && !s.consumers[t].Free? && Shrinks(s.consumers[t], p)
    requires ConsumerShaped(s.ix, s.mem, p)
    requires ConsumerOk(p, t, s.ix, s.mem, s.live, s.marked, s.headIndex, s.place)
    ensures Inv(Goto(s, t, p))
  {
    ApartShrinks(s.consumers, t, p);
    PlacesConsumer(s, t, p);
    OthersFine(s, t, p);
  }

  lemma LoadHeaderKeeps(s: State, t: Thread, start: nat, end: nat)
    requires Inv(s) && t in s.consumers && s.consumers[t] == LoadHeader(start, end)
    ensures Inv(DoConsumer(s, t))
  {
    assert ConsumerFine(s, t);
    LoadKeeps(s, t, LoadTail(start, end, |s.ix.headers| - 1));
  }

  lemma LoadTailKeeps(s: State, t: Thread, start: nat, end: nat, h: nat)
    requires Inv(s) && t in s.consumers && s.consumers[t] == LoadTail(start, end, h)
    ensures Inv(DoConsumer(s, t))
  {
    assert ConsumerFine(s, t) && ConsumerShaped(s.ix, s.mem, s.consumers[t]) && HeaderOk(s.ix, h);
    LoadKeeps(s, t, LoadKey(start, end, h, s.ix.headers[h].tail, s.ix.headers[h].last));
  }

  /** An unmarked claimed index lies in a live block. */
  lemma UnmarkedIsLive(s: State, i: nat)
    requires Inv(s) && i < s.headIndex && i !in s.marked
    ensures i / BLOCK_SIZE in s.live
  {
    var n := i / BLOCK_SIZE;
    assert n <= LastBlock(s.tailIndex);
    assert DoneOk(s.live, s.marked, n);
  }

  /** The tail slot a consumer remembers still has the key it had: no live number was overtaken. */
  lemma RememberedTail(s: State, t: Thread, start: nat, end: nat, h: nat, tail: nat, mt: int)
    requires Inv(s) && t in s.consumers && s.consumers[t] == LoadKey(start, end, h, tail, mt)
    ensures h < |s.ix.headers| && tail < s.ix.headers[h].capacity && mt >= 0
    ensures s.ix.entries[s.ix.headers[h].index[tail]].key == mt * BLOCK_SIZE
    ensures start / BLOCK_SIZE in s.live && start / BLOCK_SIZE <= s.ix.headers[h].last
  {
    assert ConsumerFine(s, t) && ConsumerShaped(s.ix, s.mem, s.consumers[t]);
    assert start !in s.marked && end - 1 !in s.marked;
    UnmarkedIsLive(s, end - 1);
    UnmarkedIsLive(s, start);
    var n := (end - 1) / BLOCK_SIZE;
    assert LiveOk(s.live, s.ix.floor, s.ix.high, Keyed(s.producer, s.tailIndex), s.place, n);
    assert NumberOk(s.ix, s.live, Keyed(s.producer, s.tailIndex), mt);
    assert Agrees(s.ix, h, mt);
  }

  lemma LookupFinds(h: Header, t: nat, mt: int, n: int)
    requires h.capacity > 0 && mt >= 0 && t == Slot(h, mt)
    ensures Lookup(h, t, mt * BLOCK_SIZE, n) == Slot(h, n)
  {
    SlotMoves(h, mt, n - mt);
  }

  lemma LoadKeyKeeps(s: State, t: Thread, start: nat, end: nat, h: nat, tail: nat, mt: int)
    requires Inv(s) && t in s.consumers && s.consumers[t] == LoadKey(start, end, h, tail, mt)
    ensures Inv(DoConsumer(s, t))
  {
    assert ConsumerFine(s, t) && ConsumerShaped(s.ix, s.mem, s.consumers[t]);
    RememberedTail(s, t, start, end, h, tail, mt);
    LookupFinds(s.ix.headers[h], tail, mt, start / BLOCK_SIZE);
    LoadKeeps(s, t, LoadValue(start, end, h, Slot(s.ix.headers[h], start / BLOCK_SIZE)));
  }

  /** Whatever header a consumer holds, its slot for a live number leads to the live block. */
  lemma FindsLive(s: State, h: nat, n: nat)
    requires Inv(s) && h < |s.ix.headers| && n in s.live && n <= s.ix.headers[h].last
    ensures var e := s.ix.entries[EntryAt(s.ix.headers[h], n)];
            e.key == n * BLOCK_SIZE && e.value == At(s.live[n]) && s.live[n] in s.mem
    ensures EntryAt(s.ix.headers[h], n) == EntryAt(Current(s.ix), n)
  {
    var keyed := Keyed(s.producer, s.tailIndex);
    assert LiveOk(s.live, s.ix.floor, s.ix.high, keyed, s.place, n);
    assert NumberOk(s.ix, s.live, keyed, n);
    assert Agrees(s.ix, h, n);
  }

  lemma LoadValueKeeps(s: State, t: Thread, start: nat, end: nat, h: nat, slot: nat)
    requires Inv(s) && t in s.consumers && s.consumers[t] == LoadValue(start, end, h, slot)
    ensures Inv(DoConsumer(s, t))
  {
    assert ConsumerFine(s, t) && ConsumerShaped(s.ix, s.mem, s.consumers[t]);
    assert start !in s.marked;
    UnmarkedIsLive(s, start);
    FindsLive(s, h, start / BLOCK_SIZE);
    LoadKeeps(s, t, Reading(start, end, h, slot, At(s.live[start / BLOCK_SIZE]), start));
  }

  /** The record of deliveries is nobody's business. */
  lemma DeliverKeeps(s: State, delivered: seq<Delivery>)
    requires Inv(s)
    ensures Inv(s.(delivered := delivered))
  {
    var s' := s.(delivered := delivered);
    forall t | t in s'.consumers ensures ConsumerFine(s', t) { assert ConsumerFine(s, t); }
  }

  lemma ReadingKeeps(s: State, t: Thread, start: nat, end: nat, h: nat, slot: nat, b: Block, i: nat)
    requires Inv(s) && t in s.consumers && s.consumers[t] == Reading(start, end, h, slot, At(b), i)
    requires i < Stop(start, end) && b in s.mem
    ensures Inv(DoRead(s, t, start, end, h, slot, b, i))
  {
    assert ConsumerFine(s, t) && ConsumerShaped(s.ix, s.mem, s.consumers[t]);
    var p := Reading(start, end, h, slot, At(b), i + 1);
    LoadKeeps(s, t, p);
    DeliverKeeps(Goto(s, t, p), DoRead(s, t, start, end, h, slot, b, i).delivered);
  }

  // Counting marks

  lemma {:induction false} MarksBound(marked: set<nat>, lo: nat, hi: nat)
    requires lo <= hi
    ensures Marks(marked, lo, hi) <= hi - lo
    decreases hi
  {
    if lo < hi { MarksBound(marked, lo, hi - 1); }
  }

  lemma {:induction false} MarksFull(marked: set<nat>, lo: nat, hi: nat)
    requires lo <= hi && Marks(marked, lo, hi) == hi - lo
    ensures forall i {:trigger i in marked} :: lo <= i < hi ==> i in marked
    decreases hi
  {
    if lo < hi {
      MarksBound(marked, lo, hi - 1);
      MarksFull(marked, lo, hi - 1);
    }
  }

  lemma {:induction false} MarksAdd(marked: set<nat>, lo: nat, hi: nat, a: nat, c: nat)
    requires lo <= a <= c <= hi
    requires forall i {:trigger i in marked} :: a <= i < c ==> i !in marked
    ensures Marks(marked + Interval(a, c), lo, hi) == Marks(marked, lo, hi) + (c - a)
    decreases hi
  {
    if lo < hi {
      if c == hi && a < c {
        assert marked + Interval(a, c) == marked + Interval(a, c - 1) + {c - 1};
        MarksAdd(marked, lo, hi - 1, a, c - 1);
        MarksSame(marked + Interval(a, c - 1), marked + Interval(a, c), lo, hi - 1);
      } else if c < hi {
        MarksAdd(marked, lo, hi - 1, a, c);
      } else {
        assert Interval(a, c) == {};
        assert marked + Interval(a, c) == marked;
      }
    }
  }

  lemma {:induction false} MarksSame(m1: set<nat>, m2: set<nat>, lo: nat, hi: nat)
    requires forall i {:trigger i in m1} {:trigger i in m2} :: lo <= i < hi ==> (i in m1 <==> i in m2)
    ensures Marks(m1, lo, hi) == Marks(m2, lo, hi)
    decreases hi
  {
    if lo < hi { MarksSame(m1, m2, lo, hi - 1); }
  }

  /** Marking the part [start, stop) of block n counts for that block only. */
  lemma BlockMarksAdd(marked: set<nat>, n: nat, start: nat, stop: nat, m: nat)
    requires n * BLOCK_SIZE <= start <= stop <= (n + 1) * BLOCK_SIZE
    requires forall i {:trigger i in marked} :: start <= i < stop ==> i !in marked
    ensures BlockMarks(marked + Interval(start, stop), m) == BlockMarks(marked, m) + if m == n then stop - start else 0
  {
    var lo, hi := m * BLOCK_SIZE, (m + 1) * BLOCK_SIZE;
    if m == n { MarksAdd(marked, lo, hi, start, stop); }
    else { MarksSame(marked, marked + Interval(start, stop), lo, hi); }
  }

  lemma StopInBlock(start: nat, end: nat)
    requires start < end
    ensures var n := start / BLOCK_SIZE;
            n * BLOCK_SIZE <= start < Stop(start, end) <= (n + 1) * BLOCK_SIZE && Stop(start, end) <= end &&
            (Stop(start, end) < end ==> Stop(start, end) == (n + 1) * BLOCK_SIZE)
  {
  }

  lemma MarkCounts(s: State, n: nat, start: nat, stop: nat)
    requires CountsOk(s.live, s.count, s.marked)
             && LivesOk(s.live, s.ix.floor, s.ix.high, Keyed(s.producer, s.tailIndex), s.place)
    requires n in s.live && s.live[n] in s.count && n * BLOCK_SIZE <= start <= stop <= (n + 1) * BLOCK_SIZE
    requires forall i {:trigger i in s.marked} :: start <= i < stop ==> i !in s.marked
    ensures var b := s.live[n];
            && CountsOk(s.live, s.count[b := s.count[b] + (stop - start)], s.marked + Interval(start, stop))
            && s.count[b] == BlockMarks(s.marked, n)
  {
    var b := s.live[n];
    var count, marked := s.count[b := s.count[b] + (stop - start)], s.marked + Interval(start, stop);
    assert CountOk(s.live, s.count, s.marked, n);
    forall m | m in s.live ensures CountOk(s.live, count, marked, m) {
      assert CountOk(s.live, s.count, s.marked, m);
      BlockMarksAdd(s.marked, n, start, stop, m);
      assert LiveOk(s.live, s.ix.floor, s.ix.high, Keyed(s.producer, s.tailIndex), s.place, m);
      assert LiveOk(s.live, s.ix.floor, s.ix.high, Keyed(s.producer, s.tailIndex), s.place, n);
    }
  }

  /** Others' claims are not touched by a mark. */
  lemma MarkOthers(s: State, s': State, t: Thread, u: Thread, start: nat, stop: nat)
    requires Shaped(s) && Shaped(s') && AllApart(s.consumers) && t in s.consumers && u in s.consumers && u != t
    requires !s.consumers[t].ConsumerIdle? && s.consumers[t].start == start < stop <= s.consumers[t].end
    requires ConsumerFine(s, u) && u in s'.consumers && s'.consumers[u] == s.consumers[u]
    requires s'.ix == s.ix && s'.mem == s.mem && s'.live == s.live && s'.place == s.place && s'.headIndex == s.headIndex
    requires s'.marked == s.marked + Interval(start, stop)
    ensures ConsumerFine(s', u)
  {
    assert Apart(s.consumers[t], s.consumers[u]);
  }

  /** The counter's new value tells whether the whole block is marked. */
  lemma MarkTells(s: State, n: nat, b: Block, start: nat, stop: nat)
    requires Inv(s) && n in s.live && s.live[n] == b && n * BLOCK_SIZE <= start <= stop <= (n + 1) * BLOCK_SIZE
    requires forall i {:trigger i in s.marked} :: start <= i < stop ==> i !in s.marked
    ensures b in s.count
            && (s.count[b] + (stop - start) == BLOCK_SIZE ==> AllMarked(s.marked + Interval(start, stop), n))
  {
    assert CountOk(s.live, s.count, s.marked, n);
    BlockMarksAdd(s.marked, n, start, stop, n);
    if s.count[b] + (stop - start) == BLOCK_SIZE {
      MarksFull(s.marked + Interval(start, stop), n * BLOCK_SIZE, (n + 1) * BLOCK_SIZE);
    }
  }

  /** On with the next part of the claim, if there is one. */
  lemma NextPartOk(s: State, t: Thread, stop: nat, end: nat, h: nat, slot: nat, n: nat, place: map<Block, Place>)
    requires IndexShaped(s.ix) && h < |s.ix.headers| && Ranged(s.marked, s.headIndex, stop, end)
    requires slot == Slot(s.ix.headers[h], n) && (stop < end ==> stop == (n + 1) * BLOCK_SIZE && Knows(s.ix, h, end))
    ensures var p := NextPart(s.ix, stop, end, h, slot);
            ConsumerShaped(s.ix, s.mem, p) && ConsumerOk(p, t, s.ix, s.mem, s.live, s.marked, s.headIndex, place)
  {
    SlotMoves(s.ix.headers[h], n, 1);
  }

  lemma MarkOwn(s: State, t: Thread, start: nat, end: nat, h: nat, slot: nat, ptr: Ptr, i: nat)
    requires Inv(s) && t in s.consumers && s.consumers[t] == Reading(start, end, h, slot, ptr, i)
    requires ConsumerShaped(s.ix, s.mem, s.consumers[t])
    ensures var s' := DoMark(s, t, start, end, h, slot, ptr.block);
            && ConsumerShaped(s'.ix, s'.mem, s'.consumers[t])
            && ConsumerOk(s'.consumers[t], t, s'.ix, s'.mem, s'.live, s'.marked, s'.headIndex, s'.place)
  {
    var n, stop := start / BLOCK_SIZE, Stop(start, end);
    assert ConsumerFine(s, t);
    StopInBlock(start, end);
    MarkTells(s, n, ptr.block, start, stop);
    NextPartOk(s.(marked := s.marked + Interval(start, stop)), t, stop, end, h, slot, n, s.place);
  }

  lemma MarkApart(s: State, t: Thread, start: nat, end: nat, h: nat, slot: nat, ptr: Ptr, i: nat)
    requires Inv(s) && t in s.consumers && s.consumers[t] == Reading(start, end, h, slot, ptr, i)
    requires ConsumerShaped(s.ix, s.mem, s.consumers[t])
    ensures AllApart(DoMark(s, t, start, end, h, slot, ptr.block).consumers)
  {
    var p := DoMark(s, t, start, end, h, slot, ptr.block).consumers[t];
    assert ConsumerFine(s, t);
    StopInBlock(start, end);
    forall u | u in s.consumers && u != t ensures Apart(p, s.consumers[u]) {
      assert Apart(s.consumers[t], s.consumers[u]) && ConsumerFine(s, u);
      assert start !in s.marked;
    }
    ApartUpdate(s.consumers, t, p);
  }

  lemma MarkDones(s: State, extra: set<nat>)
    requires DonesOk(s.live, s.marked, LastBlock(s.tailIndex))
    ensures DonesOk(s.live, s.marked + extra, LastBlock(s.tailIndex))
  {
    forall n | 0 <= n <= LastBlock(s.tailIndex) ensures DoneOk(s.live, s.marked + extra, n) {
      assert DoneOk(s.live, s.marked, n);
    }
  }

  lemma MarkKnows(s: State, t: Thread, start: nat, end: nat, h: nat, slot: nat, b: Block, i: nat)
    requires Inv(s) && t in s.consumers && s.consumers[t] == Reading(start, end, h, slot, At(b), i)
    ensures h < |s.ix.headers| && b in s.count && start < end && start / BLOCK_SIZE in s.live
            && s.live[start / BLOCK_SIZE] == b
    ensures s.place[b] == InIndex(start / BLOCK_SIZE) && Ranged(s.marked, s.headIndex, start, end)
  {
    assert ConsumerFine(s, t) && ConsumerShaped(s.ix, s.mem, s.consumers[t]);
    assert LiveOk(s.live, s.ix.floor, s.ix.high, Keyed(s.producer, s.tailIndex), s.place, start / BLOCK_SIZE);
  }

  /** The increment stays within the block. */
  lemma MarkFits(s: State, t: Thread, start: nat, end: nat, h: nat, slot: nat, b: Block, i: nat)
    requires Inv(s) && t in s.consumers && s.consumers[t] == Reading(start, end, h, slot, At(b), i)
    ensures b in s.count && s.count[b] + (Stop(start, end) - start) <= BLOCK_SIZE
  {
    var stop, n := Stop(start, end), start / BLOCK_SIZE;
    MarkKnows(s, t, start, end, h, slot, b, i);
    StopInBlock(start, end);
    MarkCounts(s, n, start, stop);
    BlockMarksAdd(s.marked, n, start, stop, n);
    MarksBound(s.marked + Interval(start, stop), n * BLOCK_SIZE, (n + 1) * BLOCK_SIZE);
  }

  lemma MarkConsumers(s: State, t: Thread, start: nat, end: nat, h: nat, slot: nat, b: Block, i: nat)
    requires Inv(s) && t in s.consumers && s.consumers[t] == Reading(start, end, h, slot, At(b), i)
    requires h < |s.ix.headers| && b in s.count && start < Stop(start, end) <= end
    ensures Shaped(DoMark(s, t, start, end, h, slot, b)) && ConsumersOk(DoMark(s, t, start, end, h, slot, b))
  {
    var s' := DoMark(s, t, start, end, h, slot, b);
    assert ConsumerShaped(s.ix, s.mem, s.consumers[t]);
    MarkOwn(s, t, start, end, h, slot, At(b), i);
    assert Shaped(s');
    forall u | u in s'.consumers ensures ConsumerFine(s', u) {
      if u != t {
        assert ConsumerFine(s, u);
        MarkOthers(s, s', t, u, start, Stop(start, end));
      }
    }
  }

  lemma MarkParts(s: State, t: Thread, start: nat, end: nat, h: nat, slot: nat, b: Block, i: nat)
    requires Inv(s) && t in s.consumers && s.consumers[t] == Reading(start, end, h, slot, At(b), i)
    requires h < |s.ix.headers| && b in s.count
    ensures var s' := DoMark(s, t, start, end, h, slot, b);
            && CountsOk(s'.live, s'.count, s'.marked) && DonesOk(s'.live, s'.marked, LastBlock(s.tailIndex))
            && PlacesOk(s'.place, s'.live, s'.producer, s'.consumers) && AllApart(s'.consumers)
  {
    var stop := Stop(start, end);
    MarkKnows(s, t, start, end, h, slot, b, i);
    assert ConsumerShaped(s.ix, s.mem, s.consumers[t]);
    StopInBlock(start, end);
    MarkCounts(s, start / BLOCK_SIZE, start, stop);
    MarkApart(s, t, start, end, h, slot, At(b), i);
    MarkDones(s, Interval(start, stop));
    PlacesConsumer(s, t, DoMark(s, t, start, end, h, slot, b).consumers[t]);
  }

  lemma MarkKeeps(s: State, t: Thread, start: nat, end: nat, h: nat, slot: nat, b: Block, i: nat)
    requires Inv(s) && t in s.consumers && s.consumers[t] == Reading(start, end, h, slot, At(b), i)
    requires i >= Stop(start, end) && h < |s.ix.headers| && b in s.count
    ensures Inv(DoMark(s, t, start, end, h, slot, b))
  {
    MarkKnows(s, t, start, end, h, slot, b, i);
    StopInBlock(start, end);
    MarkParts(s, t, start, end, h, slot, b, i);
    MarkConsumers(s, t, start, end, h, slot, b, i);
  }

  // Taking an emptied block out of the index

  /** Storing null for number n, which stops being live, leaves the rest of the index as it was. */
  lemma NullIndex(ix: Index, live: map<nat, Block>, last: int, keyed: int, n: nat)
    requires IndexShaped(ix) && IndexOk(ix, live, last, keyed) && ix.floor <= n <= ix.high && n != keyed
    ensures var ix' := SetValue(ix, EntryAt(Current(ix), n), Null);
            IndexShaped(ix') && IndexOk(ix', live - {n}, last, keyed)
  {
    var ix' := SetValue(ix, EntryAt(Current(ix), n), Null);
    forall m | ix'.floor <= m <= ix'.high ensures NumberOk(ix', live - {n}, keyed, m) {
      assert NumberOk(ix, live, keyed, m);
      if m != n { EntriesDistinct(Current(ix), m, n); }
    }
    forall m | ix'.high < m < ix'.floor + Current(ix').capacity ensures UnusedOk(ix', m) { assert UnusedOk(ix, m); }
    forall h | 0 <= h < |ix'.headers| ensures HeaderOk(ix', h) { assert HeaderOk(ix, h); }
    forall h, m | 0 <= h < |ix'.headers| ensures Agrees(ix', h, m) { assert Agrees(ix, h, m); }
  }

  /** Number n and its block b leave the index for a hand. */
  predicate Removes(live: map<nat, Block>, place: map<Block, Place>, n: nat, b: Block, to: Place) {
    n in live && live[n] == b && (to == ProducerHand || to.ConsumerHand?)
  }

  lemma RemoveLives(live: map<nat, Block>, floor: nat, high: int, keyed: int, place: map<Block, Place>, n: nat,
                    b: Block, to: Place)
    requires LivesOk(live, floor, high, keyed, place) && Removes(live, place, n, b, to)
    ensures LivesOk(live - {n}, floor, high, keyed, place[b := to])
  {
    assert LiveOk(live, floor, high, keyed, place, n);
    forall m | m in live - {n} ensures LiveOk(live - {n}, floor, high, keyed, place[b := to], m) {
      assert LiveOk(live, floor, high, keyed, place, m);
    }
  }

  lemma RemoveCounts(live: map<nat, Block>, count: map<Block, nat>, marked: set<nat>, n: nat)
    requires CountsOk(live, count, marked)
    ensures CountsOk(live - {n}, count, marked)
  {
    forall m | m in live - {n} ensures CountOk(live - {n}, count, marked, m) { assert CountOk(live, count, marked, m); }
  }

  lemma RemoveData(live: map<nat, Block>, mem: map<Block, seq<Value>>, items: seq<Value>, n: nat)
    requires AllDataOk(live, mem, items)
    ensures AllDataOk(live - {n}, mem, items)
  {
    forall i | 0 <= i < |items| ensures DataOk(live - {n}, mem, items, i) { assert DataOk(live, mem, items, i); }
  }

  lemma RemoveDones(live: map<nat, Block>, marked: set<nat>, last: int, n: nat)
    requires DonesOk(live, marked, last) && (n > last || AllMarked(marked, n))
    ensures DonesOk(live - {n}, marked, last)
  {
    forall m | 0 <= m <= last ensures DoneOk(live - {n}, marked, m) { assert DoneOk(live, marked, m); }
  }

  lemma NullEntryPlaces(s: State, t: Thread, p: ConsumerPc, n: nat, b: Block)
    requires PlacesOk(s.place, s.live, s.producer, s.consumers) && t in s.consumers && !s.consumers[t].Free?
    requires p.Free? && p.b == b && n in s.live && s.live[n] == b
    requires LivesOk(s.live, s.ix.floor, s.ix.high, Keyed(s.producer, s.tailIndex), s.place)
    ensures PlacesOk(s.place[b := ConsumerHand(t)], s.live - {n}, s.producer, s.consumers[t := p])
  {
    assert LiveOk(s.live, s.ix.floor, s.ix.high, Keyed(s.producer, s.tailIndex), s.place, n);
    var place, live, consumers := s.place[b := ConsumerHand(t)], s.live - {n}, s.consumers[t := p];
    forall x | x in place ensures PlaceOk(place, live, s.producer, consumers, x) {
      if x != b { assert PlaceOk(s.place, s.live, s.producer, s.consumers, x); }
    }
  }

  lemma NullEntryOthers(s: State, s': State, t: Thread, u: Thread, n: nat, b: Block)
    requires Shaped(s) && Shaped(s') && t in s.consumers && u in s.consumers && u != t && AllApart(s.consumers)
    requires s.consumers[t].NullEntry? && s.consumers[t].number == n && AllMarked(s.marked, n)
    requires ConsumerFine(s, u) && u in s'.consumers && s'.consumers[u] == s.consumers[u]
    requires s'.ix.headers == s.ix.headers && s'.ix.high == s.ix.high && s'.mem == s.mem
    requires s'.marked == s.marked && s'.headIndex == s.headIndex
    requires s'.live == s.live - {n} && b in s.place && s.place[b] == InIndex(n)
             && s'.place == s.place[b := ConsumerHand(t)]
    ensures ConsumerFine(s', u)
  {
    assert Apart(s.consumers[t], s.consumers[u]);
    assert ConsumerShaped(s'.ix, s'.mem, s'.consumers[u]);
    if s.consumers[u].Reading? { assert s.consumers[u].start !in s.marked; }
  }

  lemma AcquiredRemove(live: map<nat, Block>, last: int, got: seq<Block>, from: nat, n: nat)
    requires Acquired(live, last, got, from) && n <= last
    ensures Acquired(live - {n}, last, got, from)
  {
    forall i | from <= i < |got| ensures Entered(live - {n}, last, got, i) { assert Entered(live, last, got, i); }
  }

  lemma InHandMove(place: map<Block, Place>, got: seq<Block>, from: nat, to: nat, b: Block, p: Place)
    requires InHand(place, got, from, to) && b in place && place[b] != ProducerHand
    ensures InHand(place[b := p], got, from, to)
  {
  }

  lemma NullEntryProducer(s: State, n: nat, b: Block, t: Thread)
    requires |s.ix.headers| > 0 && n <= LastBlock(s.tailIndex) && b in s.place && s.place[b].InIndex?
    requires ProducerOk(s.producer, Current(s.ix), s.ix.floor, s.ix.high, s.live, s.tailIndex, s.place)
    ensures ProducerOk(s.producer, Current(s.ix), s.ix.floor, s.ix.high, s.live - {n}, s.tailIndex,
            s.place[b := ConsumerHand(t)])
  {
    var B, to := LastBlock(s.tailIndex), ConsumerHand(t);
    match s.producer
    case ProducerIdle => AcquiredRemove(s.live, B, [], 0, n);
    case Undo(_, got, j) => AcquiredRemove(s.live, B, got, j, n); InHandMove(s.place, got, 0, j, b, to);
    case UndoRewind(_, got, j) => AcquiredRemove(s.live, B, got, j + 1, n); InHandMove(s.place, got, 0, j + 1, b, to);
    case Release(_, got, j) => AcquiredRemove(s.live, B, got, |got|, n); InHandMove(s.place, got, j, |got|, b, to);
    case _ => AcquiredRemove(s.live, B, s.producer.got, 0, n);
  }

  lemma NullEntryConsumers(s: State, t: Thread, stop: nat, end: nat, h: nat, slot: nat, b: Block, n: nat)
    requires Inv(s) && t in s.consumers && s.consumers[t] == NullEntry(stop, end, h, slot, b, n)
    requires h < |s.ix.headers| && slot < s.ix.headers[h].capacity && b in s.place && s.place[b] == InIndex(n)
    requires AllMarked(s.marked, n)
    ensures Shaped(DoNullEntry(s, t, stop, end, h, slot, b, n))
            && ConsumersOk(DoNullEntry(s, t, stop, end, h, slot, b, n))
  {
    var s' := DoNullEntry(s, t, stop, end, h, slot, b, n);
    assert ConsumerFine(s, t) && ConsumerShaped(s.ix, s.mem, s.consumers[t]);
    assert Shaped(s');
    forall u | u in s'.consumers ensures ConsumerFine(s', u) {
      if u != t {
        assert ConsumerFine(s, u);
        NullEntryOthers(s, s', t, u, n, b);
      }
    }
  }

  lemma NullEntryKnows(s: State, t: Thread, stop: nat, end: nat, h: nat, slot: nat, b: Block, n: nat)
    requires Inv(s) && t in s.consumers && s.consumers[t] == NullEntry(stop, end, h, slot, b, n)
    ensures h < |s.ix.headers| && slot < s.ix.headers[h].capacity && b in s.place && s.place[b] == InIndex(n)
    ensures n in s.live && s.live[n] == b && AllMarked(s.marked, n) && n <= LastBlock(s.tailIndex)
    ensures s.ix.floor <= n <= s.ix.high && n != Keyed(s.producer, s.tailIndex)
    ensures s.ix.headers[h].index[slot] == EntryAt(Current(s.ix), n)
  {
    assert ConsumerFine(s, t) && ConsumerShaped(s.ix, s.mem, s.consumers[t]);
    assert LiveOk(s.live, s.ix.floor, s.ix.high, Keyed(s.producer, s.tailIndex), s.place, n);
    assert n * BLOCK_SIZE in s.marked;
    FindsLive(s, h, n);
  }

  lemma NullEntryKeeps(s: State, t: Thread, stop: nat, end: nat, h: nat, slot: nat, b: Block, n: nat)
    requires Inv(s) && t in s.consumers && s.consumers[t] == NullEntry(stop, end, h, slot, b, n)
    ensures h < |s.ix.headers| && slot < s.ix.headers[h].capacity && Inv(DoNullEntry(s, t, stop, end, h, slot, b, n))
  {
    var keyed, last := Keyed(s.producer, s.tailIndex), LastBlock(s.tailIndex);
    var p := Free(stop, end, h, slot, b, n);
    NullEntryKnows(s, t, stop, end, h, slot, b, n);
    NullIndex(s.ix, s.live, last, keyed, n);
    RemoveLives(s.live, s.ix.floor, s.ix.high, keyed, s.place, n, b, ConsumerHand(t));
    RemoveCounts(s.live, s.count, s.marked, n);
    RemoveData(s.live, s.mem, s.items, n);
    RemoveDones(s.live, s.marked, last, n);
    NullEntryPlaces(s, t, p, n, b);
    InitialKept(s.place, s.initial, s.poolIndex, b, ConsumerHand(t));
    NullEntryProducer(s, n, b, t);
    ApartShrinks(s.consumers, t, p);
    NullEntryConsumers(s, t, stop, end, h, slot, b, n);
    NullEntryBounds(s, t, stop, end, h, slot, b, n);
  }

  /** The tail block is not the one to go while it has room: its last index is not marked. */
  lemma NullEntryBounds(s: State, t: Thread, stop: nat, end: nat, h: nat, slot: nat, b: Block, n: nat)
    requires Shaped(s) && BoundsOk(s) && h < |s.ix.headers| && slot < s.ix.headers[h].capacity && AllMarked(s.marked, n)
    ensures BoundsOk(DoNullEntry(s, t, stop, end, h, slot, b, n))
  {
    assert s.tailIndex !in s.marked;
  }

  // Giving the block back

  /** A block changes hands outside the index. */
  lemma MovePlace(s: State, b: Block, to: Place, p: ProducerPc, consumers: map<Thread, ConsumerPc>)
    requires PlacesOk(s.place, s.live, s.producer, s.consumers)
    requires LivesOk(s.live, s.ix.floor, s.ix.high, Keyed(s.producer, s.tailIndex), s.place)
    requires b in s.place && !s.place[b].InIndex?
             && (to == Pool || to == Elsewhere || (to == ProducerHand && InProducerHand(p, b)))
    requires forall x {:trigger PlaceOk(s.place, s.live, p, consumers, x)} ::
               x in s.place && x != b && PlaceOk(s.place, s.live, s.producer, s.consumers, x) ==>
                 PlaceOk(s.place, s.live, p, consumers, x)
    ensures PlacesOk(s.place[b := to], s.live, p, consumers)
    ensures LivesOk(s.live, s.ix.floor, s.ix.high, Keyed(s.producer, s.tailIndex), s.place[b := to])
  {
    var place := s.place[b := to];
    forall x | x in place ensures PlaceOk(place, s.live, p, consumers, x) {
      if x != b {
        assert PlaceOk(s.place, s.live, s.producer, s.consumers, x) && PlaceOk(s.place, s.live, p, consumers, x);
      }
    }
    forall m | m in s.live ensures LiveOk(s.live, s.ix.floor, s.ix.high, Keyed(s.producer, s.tailIndex),
      s.place[b := to], m) {
      assert LiveOk(s.live, s.ix.floor, s.ix.high, Keyed(s.producer, s.tailIndex), s.place, m);
    }
  }

  lemma FreeConsumers(s: State, t: Thread, stop: nat, end: nat, h: nat, slot: nat, b: Block, n: nat)
    requires Inv(s) && t in s.consumers && s.consumers[t] == Free(stop, end, h, slot, b, n) && h < |s.ix.headers|
    requires b in s.place && s.place[b] == ConsumerHand(t)
    ensures Shaped(DoFree(s, t, stop, end, h, slot, b)) && ConsumersOk(DoFree(s, t, stop, end, h, slot, b))
    ensures Shrinks(s.consumers[t], DoFree(s, t, stop, end, h, slot, b).consumers[t])
  {
    assert ConsumerFine(s, t) && ConsumerShaped(s.ix, s.mem, s.consumers[t]);
    var s' := DoFree(s, t, stop, end, h, slot, b);
    NextPartOk(s, t, stop, end, h, slot, n, s'.place);
    forall u | u in s'.consumers ensures ConsumerFine(s', u) {
      if u != t { assert ConsumerFine(s, u); }
    }
  }

  lemma FreePlaces(s: State, t: Thread, b: Block, p: ConsumerPc)
    requires Inv(s) && t in s.consumers && s.consumers[t].Free? && s.consumers[t].b == b
    requires b in s.place && s.place[b] == ConsumerHand(t)
    ensures PlacesOk(s.place[b := Pool], s.live, s.producer, s.consumers[t := p])
    ensures LivesOk(s.live, s.ix.floor, s.ix.high, Keyed(s.producer, s.tailIndex), s.place[b := Pool])
    ensures InitialOk(s.place[b := Pool], s.initial, s.poolIndex)
  {
    var consumers := s.consumers[t := p];
    forall x | x in s.place && x != b && PlaceOk(s.place, s.live, s.producer, s.consumers, x)
      ensures PlaceOk(s.place, s.live, s.producer, consumers, x) {}
    MovePlace(s, b, Pool, s.producer, consumers);
    InitialKept(s.place, s.initial, s.poolIndex, b, Pool);
  }

  lemma FreeKeeps(s: State, t: Thread, stop: nat, end: nat, h: nat, slot: nat, b: Block, n: nat)
    requires Inv(s) && t in s.consumers && s.consumers[t] == Free(stop, end, h, slot, b, n) && h < |s.ix.headers|
    ensures Inv(DoFree(s, t, stop, end, h, slot, b))
  {
    assert ConsumerFine(s, t);
    var p := DoFree(s, t, stop, end, h, slot, b).consumers[t];
    FreePlaces(s, t, b, p);
    FreeConsumers(s, t, stop, end, h, slot, b, n);
    ApartShrinks(s.consumers, t, p);
    ProducerPlace(s, b, Pool);
  }

  lemma ProducerPlace(s: State, b: Block, to: Place)
    requires |s.ix.headers| > 0 && b in s.place && s.place[b] != ProducerHand
    requires ProducerOk(s.producer, Current(s.ix), s.ix.floor, s.ix.high, s.live, s.tailIndex, s.place)
    ensures ProducerOk(s.producer, Current(s.ix), s.ix.floor, s.ix.high, s.live, s.tailIndex, s.place[b := to])
  {
    match s.producer
    case Undo(_, got, j) => InHandMove(s.place, got, 0, j, b, to);
    case UndoRewind(_, got, j) => InHandMove(s.place, got, 0, j + 1, b, to);
    case Release(_, got, j) => InHandMove(s.place, got, j, |got|, b, to);
    case _ =>
  }

  lemma ClaimKeeps(s: State, t: Thread, n: nat)
    requires Inv(s) && Enabled(s, Claim(t, n))
    ensures Inv(Do(s, Claim(t, n)))
  {
    var s' := Do(s, Claim(t, n));
    var p := s'.consumers[t];
    PlacesConsumer(s, t, p);
    forall u | u in s.consumers && u != t ensures Apart(p, s.consumers[u]) { assert ConsumerFine(s, u); }
    ApartUpdate(s.consumers, t, p);
    forall u | u in s'.consumers ensures ConsumerFine(s', u) {
      if u != t { assert ConsumerFine(s, u); }
    }
  }

  // ---------------------------------------------------------------------------
  // The producer and the consumers' view
  // ---------------------------------------------------------------------------

  /** Header h keeps its slots, and every number a consumer may look up through it. */
  predicate HeaderKept(ix: Index, ix': Index, last: int, h: nat)
    requires h < |ix.headers| <= |ix'.headers|
  {
    var was, now := ix.headers[h], ix'.headers[h];
    && was.capacity == now.capacity && was.off == now.off
    && (now.last >= was.last || (h == |ix'.headers| - 1 && now.last >= last))
    && (h == |ix.headers| - 1 < |ix'.headers| - 1 ==> ix.high <= now.last)
  }

  ghost predicate IndexKept(ix: Index, ix': Index, last: int) {
    && |ix.headers| <= |ix'.headers| && ix.high <= ix'.high
    && forall h {:trigger HeaderKept(ix, ix', last, h)} :: 0 <= h < |ix.headers| ==> HeaderKept(ix, ix', last, h)
  }

  ghost predicate LiveKept(live: map<nat, Block>, live': map<nat, Block>, last: int) {
    forall n {:trigger n in live'} :: n in live && n <= last ==> n in live' && live'[n] == live[n]
  }

  ghost predicate PlaceKept(place: map<Block, Place>, place': map<Block, Place>) {
    forall b {:trigger b in place'} :: b in place && place[b].ConsumerHand? ==> b in place' && place'[b] == place[b]
  }

  /** What a consumer knows of its header stays true: the header still reaches to its claim's end. */
  lemma HeaderStays(ix: Index, ix': Index, last: int, h: nat, end: nat)
    requires IndexShaped(ix) && IndexShaped(ix') && IndexKept(ix, ix', last) && h < |ix.headers|
    ensures h < |ix'.headers| && ix'.headers[h].capacity == ix.headers[h].capacity
            && ix'.headers[h].off == ix.headers[h].off
    ensures Knows(ix, h, end) && (end - 1) / BLOCK_SIZE <= last ==> Knows(ix', h, end)
  {
    assert HeaderKept(ix, ix', last, h);
  }

  lemma NullEntryKept(p: ConsumerPc, t: Thread, marked: set<nat>, head: nat, last: int,
                      ix: Index, mem: map<Block, seq<Value>>, live: map<nat, Block>, place: map<Block, Place>,
                      ix': Index, mem': map<Block, seq<Value>>, live': map<nat, Block>, place': map<Block, Place>)
    requires IndexShaped(ix) && ConsumerShaped(ix, mem, p) && IndexShaped(ix') && mem.Keys <= mem'.Keys && p.NullEntry?
    requires ConsumerOk(p, t, ix, mem, live, marked, head, place)
    requires (head - 1) / BLOCK_SIZE <= last && forall i {:trigger i in marked} :: i in marked ==> i < head
    requires IndexKept(ix, ix', last) && LiveKept(live, live', last) && PlaceKept(place, place')
    ensures ConsumerShaped(ix', mem', p) && ConsumerOk(p, t, ix', mem', live', marked, head, place')
  {
    HeaderStays(ix, ix', last, p.h, p.end);
    assert HeaderKept(ix, ix', last, p.h);
    assert p.number * BLOCK_SIZE in marked;
    assert p.number <= last;
  }

  lemma ConsumerKept(p: ConsumerPc, t: Thread, marked: set<nat>, head: nat, last: int,
                     ix: Index, mem: map<Block, seq<Value>>, live: map<nat, Block>, place: map<Block, Place>,
                     ix': Index, mem': map<Block, seq<Value>>, live': map<nat, Block>, place': map<Block, Place>)
    requires IndexShaped(ix) && ConsumerShaped(ix, mem, p) && IndexShaped(ix') && mem.Keys <= mem'.Keys
    requires ConsumerOk(p, t, ix, mem, live, marked, head, place)
    requires (head - 1) / BLOCK_SIZE <= last && forall i {:trigger i in marked} :: i in marked ==> i < head
    requires IndexKept(ix, ix', last) && LiveKept(live, live', last) && PlaceKept(place, place')
    ensures ConsumerShaped(ix', mem', p)
    ensures ConsumerOk(p, t, ix', mem', live', marked, head, place')
  {
    if p.NullEntry? { NullEntryKept(p, t, marked, head, last, ix, mem, live, place, ix', mem', live', place'); }
    else if !p.ConsumerIdle? && !p.LoadHeader? {
      HeaderStays(ix, ix', last, p.h, p.end);
      if p.LoadKey? { assert HeaderKept(ix, ix', last, p.h); }
    }
  }

  lemma ConsumersKept(s: State, s': State)
    requires Inv(s) && IndexShaped(s'.ix) && s.mem.Keys <= s'.mem.Keys
    requires s'.consumers == s.consumers && s'.marked == s.marked && s'.headIndex == s.headIndex
    requires IndexKept(s.ix, s'.ix, LastBlock(s.tailIndex)) && LiveKept(s.live, s'.live, LastBlock(s.tailIndex))
    requires PlaceKept(s.place, s'.place)
    ensures forall t {:trigger s'.consumers[t]} :: t in s'.consumers ==> ConsumerShaped(s'.ix, s'.mem, s'.consumers[t])
    ensures Shaped(s') ==> ConsumersOk(s')
  {
    forall t | t in s.consumers
      ensures ConsumerShaped(s'.ix, s'.mem, s'.consumers[t])
      ensures ConsumerOk(s.consumers[t], t, s'.ix, s'.mem, s'.live, s.marked, s.headIndex, s'.place)
    {
      assert ConsumerFine(s, t) && ConsumerShaped(s.ix, s.mem, s.consumers[t]);
      ConsumerKept(s.consumers[t], t, s.marked, s.headIndex, LastBlock(s.tailIndex),
                   s.ix, s.mem, s.live, s.place, s'.ix, s'.mem, s'.live, s'.place);
    }
  }

  // ---------------------------------------------------------------------------
  // Producer steps that only move its program counter
  // ---------------------------------------------------------------------------

  lemma HandsKept(place: map<Block, Place>, live: map<nat, Block>, p: ProducerPc, q: ProducerPc,
                  consumers: map<Thread, ConsumerPc>)
    requires PlacesOk(place, live, p, consumers)
    requires forall b {:trigger InProducerHand(q, b)} :: InProducerHand(p, b) ==> InProducerHand(q, b)
    ensures PlacesOk(place, live, q, consumers)
  {
    forall b | b in place ensures PlaceOk(place, live, q, consumers, b) {
      assert PlaceOk(place, live, p, consumers, b);
    }
  }

  lemma PcKeeps(s: State, q: ProducerPc)
    requires Inv(s) && Keyed(q, s.tailIndex) == Keyed(s.producer, s.tailIndex)
    requires forall b {:trigger InProducerHand(q, b)} :: InProducerHand(s.producer, b) ==> InProducerHand(q, b)
    requires ProducerShaped(q, s.tailIndex, s.tailBlock, s.mem)
    requires ProducerOk(q, Current(s.ix), s.ix.floor, s.ix.high, s.live, s.tailIndex, s.place)
    requires PreparedOk(q, s.tailIndex, s.tailBlock, s.mem, s.count)
    ensures Inv(s.(producer := q))
  {
    HandsKept(s.place, s.live, s.producer, q, s.consumers);
    var s' := s.(producer := q);
    assert Shaped(s');
    forall t | t in s'.consumers ensures ConsumerFine(s', t) { assert ConsumerFine(s, t); }
  }

  /** The i-th element of an enqueue that has its blocks goes to the live block of its number. */
  lemma TargetIsLive(s: State, vs: seq<Value>, got: seq<Block>, i: nat)
    requires BoundsOk(s) && Acquired(s.live, LastBlock(s.tailIndex), got, 0)
    requires |got| == Needed(s.tailIndex, |vs|) && i < |vs|
    ensures (s.tailIndex + i) / BLOCK_SIZE in s.live
    ensures WriteTarget(s.tailIndex, s.tailBlock, got, i) == At(s.live[(s.tailIndex + i) / BLOCK_SIZE])
  {
    var B := LastBlock(s.tailIndex);
    var k := (s.tailIndex + i) / BLOCK_SIZE - B - 1;
    if k >= 0 { assert Entered(s.live, B, got, k); }
  }

  lemma LiveBlockKnown(s: State, n: nat)
    requires Inv(s) && n in s.live
    ensures s.live[n] in s.mem && s.place[s.live[n]] == InIndex(n)
  {
    assert LiveOk(s.live, s.ix.floor, s.ix.high, Keyed(s.producer, s.tailIndex), s.place, n);
  }

  /** Entering the acquisition loop, or leaving it for the writes. */
  lemma LoopReady(s: State, vs: seq<Value>, got: seq<Block>)
    requires BoundsOk(s) && |s.ix.headers| > 0 && (s.tailBlock.At? ==> s.tailBlock.block in s.mem)
    requires forall n {:trigger s.live[n]} :: n in s.live ==> s.live[n] in s.mem
    requires Current(s.ix).last == LastBlock(s.tailIndex) + |got| && Acquired(s.live, LastBlock(s.tailIndex), got, 0)
    requires |got| <= Needed(s.tailIndex, |vs|)
    ensures var q := Loop(s.tailIndex, vs, got);
            && ProducerShaped(q, s.tailIndex, s.tailBlock, s.mem)
            && ProducerOk(q, Current(s.ix), s.ix.floor, s.ix.high, s.live, s.tailIndex, s.place)
            && PreparedOk(q, s.tailIndex, s.tailBlock, s.mem, s.count)
  {
    forall i | 0 <= i < |got| ensures got[i] in s.mem { assert Entered(s.live, LastBlock(s.tailIndex), got, i); }
    if |got| == Needed(s.tailIndex, |vs|) && |vs| > 0 { TargetIsLive(s, vs, got, 0); }
  }

  lemma CallKeeps(s: State, vs: seq<Value>)
    requires Inv(s) && Enabled(s, CallEnqueue(vs))
    ensures Inv(Do(s, CallEnqueue(vs)))
  {
    forall n | n in s.live ensures s.live[n] in s.mem { LiveBlockKnown(s, n); }
    LoopReady(s, vs, []);
    PcKeeps(s, Loop(s.tailIndex, vs, []));
  }

  /** The entry after the tail is the one for the next number. */
  lemma NewTailIsNext(ix: Index)
    requires IndexShaped(ix) && HeaderOk(ix, |ix.headers| - 1)
    ensures NewTail(Current(ix)) == Slot(Current(ix), Current(ix).last + 1)
  {
    SlotMoves(Current(ix), Current(ix).last, 1);
  }

  /** One turn round the circle is back at the same slot. */
  lemma SlotTurns(h: Header, n: int)
    requires h.capacity > 0
    ensures Slot(h, n + h.capacity) == Slot(h, n)
  {
    ModTurn(n + h.off, h.capacity);
    assert n + h.off + h.capacity == n + h.capacity + h.off;
  }

  /** What the look at the slot after the tail tells: it is free, or the window fills the whole index. */
  lemma CheckTells(ix: Index, live: map<nat, Block>, last: int)
    requires IndexShaped(ix) && IndexOk(ix, live, last, -1) && Current(ix).last + 1 !in live
    ensures var h := Current(ix);
            var e := ix.entries[h.index[NewTail(h)]];
            var full := h.last == ix.high && ix.floor + h.capacity == ix.high + 1;
            if e.key == INVALID_BLOCK_BASE || e.value == Null then full ==> ix.floor !in live else full
  {
    var h := Current(ix);
    assert HeaderOk(ix, |ix.headers| - 1);
    NewTailIsNext(ix);
    if h.last < ix.high { assert NumberOk(ix, live, -1, h.last + 1); }
    else if ix.floor + h.capacity > ix.high + 1 { assert UnusedOk(ix, h.last + 1); }
    else {
      SlotTurns(h, ix.floor);
      assert NumberOk(ix, live, -1, ix.floor);
    }
  }

  lemma CheckKeeps(s: State, vs: seq<Value>, got: seq<Block>)
    requires Inv(s) && s.producer == Check(vs, got)
    ensures Inv(DoCheck(s, vs, got))
  {
    CheckTells(s.ix, s.live, LastBlock(s.tailIndex));
    PcKeeps(s, DoCheck(s, vs, got).producer);
  }

  lemma GrowFailKeeps(s: State, vs: seq<Value>, got: seq<Block>)
    requires Inv(s) && s.producer == Grow(vs, got)
    ensures Inv(DoGrow(s, vs, got, Fail))
  {
    PcKeeps(s, Undo(vs, got, 0));
  }

  /** On to the next place to look for a block. */
  lemma SeekKeeps(s: State, q: ProducerPc)
    requires Inv(s) && (s.producer.LoadInitial? || s.producer.TakeInitial?) && (q.TakeInitial? || q.TakeFree?)
    requires q.vs == s.producer.vs && q.got == s.producer.got
    ensures Inv(s.(producer := q))
  {
    PcKeeps(s, q);
  }

  lemma NoBlockKeeps(s: State, vs: seq<Value>, got: seq<Block>)
    requires Inv(s) && s.producer == TakeFree(vs, got)
    ensures Inv(DoTakeFree(s, vs, got, Fail))
  {
    PcKeeps(s, Rewind(vs, got));
  }

  lemma UndoEndKeeps(s: State, vs: seq<Value>, got: seq<Block>)
    requires Inv(s) && s.producer == Undo(vs, got, |got|)
    ensures Inv(s.(producer := Release(vs, got, 0)))
  {
    PcKeeps(s, Release(vs, got, 0));
  }

  lemma ReleaseEndKeeps(s: State, vs: seq<Value>, got: seq<Block>)
    requires Inv(s) && s.producer == Release(vs, got, |got|)
    ensures Inv(s.(producer := ProducerIdle))
  {
    PcKeeps(s, ProducerIdle);
  }

  // ---------------------------------------------------------------------------
  // Producer steps on the block index
  // ---------------------------------------------------------------------------

  lemma IndexKeeps(s: State, ix: Index, q: ProducerPc)
    requires Inv(s) && IndexShaped(ix)
    requires IndexOk(ix, s.live, LastBlock(s.tailIndex), Keyed(q, s.tailIndex))
    requires LivesOk(s.live, ix.floor, ix.high, Keyed(q, s.tailIndex), s.place)
    requires IndexKept(s.ix, ix, LastBlock(s.tailIndex))
    requires forall b {:trigger InProducerHand(q, b)} :: InProducerHand(s.producer, b) ==> InProducerHand(q, b)
    requires ProducerShaped(q, s.tailIndex, s.tailBlock, s.mem)
    requires ProducerOk(q, Current(ix), ix.floor, ix.high, s.live, s.tailIndex, s.place)
    requires PreparedOk(q, s.tailIndex, s.tailBlock, s.mem, s.count)
    ensures Inv(s.(ix := ix, producer := q))
  {
    var s' := s.(ix := ix, producer := q);
    HandsKept(s.place, s.live, s.producer, q, s.consumers);
    ConsumersKept(s, s');
    assert Shaped(s');
  }

  lemma LivesMove(live: map<nat, Block>, place: map<Block, Place>, floor: nat, high: int, keyed: int, floor': nat,
                  high': int, keyed': int)
    requires LivesOk(live, floor, high, keyed, place)
    requires high <= high' && keyed' !in live && floor <= floor' <= floor + 1 && (floor' > floor ==> floor !in live)
    ensures LivesOk(live, floor', high', keyed', place)
  {
    forall n | n in live ensures LiveOk(live, floor', high', keyed', place, n) {
      assert LiveOk(live, floor, high, keyed, place, n);
    }
  }

  /** The tail moves by one slot and one number. */
  lemma TailMoves(ix: Index, live: map<nat, Block>, last: int, keyed: int, h: Header)
    requires IndexShaped(ix) && IndexOk(ix, live, last, keyed)
    requires h == Advanced(Current(ix)) || h == Rewound(Current(ix))
    requires last <= h.last <= ix.high
    ensures IndexShaped(SetCurrent(ix, h)) && IndexOk(SetCurrent(ix, h), live, last, keyed)
    ensures IndexKept(ix, SetCurrent(ix, h), last)
  {
    var ix', c := SetCurrent(ix, h), |ix.headers| - 1;
    assert HeaderOk(ix, c);
    SlotMoves(Current(ix), Current(ix).last, h.last - Current(ix).last);
    forall m | ix'.floor <= m <= ix'.high ensures NumberOk(ix', live, keyed, m) { assert NumberOk(ix, live, keyed, m); }
    forall m | ix'.high < m < ix'.floor + Current(ix').capacity ensures UnusedOk(ix', m) { assert UnusedOk(ix, m); }
    forall i | 0 <= i < |ix'.headers| ensures HeaderOk(ix', i) && HeaderKept(ix, ix', last, i) {
      assert HeaderOk(ix, i);
    }
    forall i, m | 0 <= i < |ix'.headers| ensures Agrees(ix', i, m) { assert Agrees(ix, i, m); }
  }

  lemma StoreTailKeeps(s: State, vs: seq<Value>, got: seq<Block>)
    requires Inv(s) && s.producer == StoreTail(vs, got)
    ensures Inv(DoStoreTail(s, vs, got))
  {
    var h := Advanced(Current(s.ix));
    TailMoves(s.ix, s.live, LastBlock(s.tailIndex), Keyed(s.producer, s.tailIndex), h);
    IndexKeeps(s, SetCurrent(s.ix, h), LoadInitial(vs, got));
  }

  lemma RewindKeeps(s: State, vs: seq<Value>, got: seq<Block>)
    requires Inv(s) && s.producer == Rewind(vs, got)
    ensures Inv(DoRewind(s, vs, got))
  {
    var h := Rewound(Current(s.ix));
    TailMoves(s.ix, s.live, LastBlock(s.tailIndex), Keyed(s.producer, s.tailIndex), h);
    IndexKeeps(s, SetCurrent(s.ix, h), NullFresh(vs, got));
  }

  lemma UndoRewindKeeps(s: State, vs: seq<Value>, got: seq<Block>, j: nat)
    requires Inv(s) && s.producer == UndoRewind(vs, got, j)
    ensures Inv(DoUndoRewind(s, vs, got, j))
  {
    var h := Rewound(Current(s.ix));
    TailMoves(s.ix, s.live, LastBlock(s.tailIndex), Keyed(s.producer, s.tailIndex), h);
    IndexKeeps(s, SetCurrent(s.ix, h), Undo(vs, got, j + 1));
  }

  /** Giving the keyed number n a value, which is what `live` then says, touches no other number. */
  lemma ValueIndex(ix: Index, live: map<nat, Block>, live': map<nat, Block>, last: int, n: nat, v: Ptr)
    requires IndexShaped(ix) && IndexOk(ix, live, last, n) && ix.floor <= n <= ix.high
    requires v == (if n in live' then At(live'[n]) else Null) && live' - {n} == live - {n}
    ensures var ix' := SetValue(ix, EntryAt(Current(ix), n), v);
            IndexShaped(ix') && IndexOk(ix', live', last, -1) && IndexKept(ix, ix', last)
  {
    var ix' := SetValue(ix, EntryAt(Current(ix), n), v);
    forall m | ix'.floor <= m <= ix'.high ensures NumberOk(ix', live', -1, m) {
      assert NumberOk(ix, live, n, m);
      if m != n {
        EntriesDistinct(Current(ix), m, n);
        assert m in live <==> m in live - {n};
        assert m in live' <==> m in live' - {n};
      }
    }
    forall m | ix'.high < m < ix'.floor + Current(ix').capacity ensures UnusedOk(ix', m) { assert UnusedOk(ix, m); }
    forall h | 0 <= h < |ix'.headers| ensures HeaderOk(ix', h) && HeaderKept(ix, ix', last, h) {
      assert HeaderOk(ix, h);
    }
    forall h, m | 0 <= h < |ix'.headers| ensures Agrees(ix', h, m) { assert Agrees(ix, h, m); }
  }

  lemma NullFreshKeeps(s: State, vs: seq<Value>, got: seq<Block>)
    requires Inv(s) && s.producer == NullFresh(vs, got)
    ensures Inv(DoNullFresh(s, vs, got))
  {
    var n := Current(s.ix).last + 1;
    assert HeaderOk(s.ix, |s.ix.headers| - 1);
    NewTailIsNext(s.ix);
    ValueIndex(s.ix, s.live, s.live, LastBlock(s.tailIndex), n, Null);
    LivesMove(s.live, s.place, s.ix.floor, s.ix.high, n, s.ix.floor, s.ix.high, -1);
    IndexKeeps(s, SetValue(s.ix, EntryAt(Current(s.ix), n), Null), Undo(vs, got, 0));
  }

  /** The next number gets its key; if the window is full its oldest number, which is not live, goes. */
  lemma KeyIndex(ix: Index, live: map<nat, Block>, last: int, n: nat)
    requires IndexShaped(ix) && IndexOk(ix, live, last, -1) && n == Current(ix).last + 1 && n !in live
    requires n > ix.high && ix.floor + Current(ix).capacity == n ==> ix.floor !in live && ix.floor <= last
    ensures var ix' := KeyedIndex(ix, n);
            && IndexShaped(ix') && IndexOk(ix', live, last, n) && IndexKept(ix, ix', last)
               && ix'.high > Current(ix').last
            && (ix'.floor == ix.floor || (ix'.floor == ix.floor + 1 && ix.floor !in live))
            && Current(ix') == Current(ix)
  {
    var ix', h := KeyedIndex(ix, n), Current(ix);
    assert HeaderOk(ix, |ix.headers| - 1);
    NewTailIsNext(ix);
    forall m | ix'.floor <= m <= ix'.high ensures NumberOk(ix', live, n, m) {
      if m <= ix.high { assert NumberOk(ix, live, -1, m); }
      if m != n { EntriesDistinct(h, m, n); }
    }
    forall m | ix'.high < m < ix'.floor + h.capacity ensures UnusedOk(ix', m) {
      assert UnusedOk(ix, m);
      EntriesDistinct(h, m, n);
    }
    forall i | 0 <= i < |ix'.headers| ensures HeaderOk(ix', i) && HeaderKept(ix, ix', last, i) {
      assert HeaderOk(ix, i);
    }
    forall i, m | 0 <= i < |ix'.headers| ensures Agrees(ix', i, m) { assert Agrees(ix, i, m); }
  }

  /** A full window whose oldest number is not live begins with a committed number. */
  lemma FloorIsCommitted(s: State, vs: seq<Value>, got: seq<Block>)
    requires Inv(s) && s.producer == StoreKey(vs, got)
    ensures var n := LastBlock(s.tailIndex) + |got| + 1;
            && n >= 0 && n == Current(s.ix).last + 1 && n !in s.live
            && (n > s.ix.high && s.ix.floor + Current(s.ix).capacity == n ==>
                  s.ix.floor !in s.live && s.ix.floor <= LastBlock(s.tailIndex))
  {
    if |got| > 0 { assert Entered(s.live, LastBlock(s.tailIndex), got, 0); }
  }

  lemma StoreKeyReady(s: State, vs: seq<Value>, got: seq<Block>, ix: Index)
    requires Inv(s) && s.producer == StoreKey(vs, got)
    requires LastBlock(s.tailIndex) + |got| + 1 >= 0 && ix == KeyedIndex(s.ix, LastBlock(s.tailIndex) + |got| + 1)
    ensures IndexShaped(ix) && IndexKept(s.ix, ix, LastBlock(s.tailIndex))
    ensures IndexOk(ix, s.live, LastBlock(s.tailIndex), LastBlock(s.tailIndex) + |got| + 1)
    ensures LivesOk(s.live, ix.floor, ix.high, LastBlock(s.tailIndex) + |got| + 1, s.place)
    ensures var q := StoreTail(vs, got);
            && ProducerShaped(q, s.tailIndex, s.tailBlock, s.mem)
               && PreparedOk(q, s.tailIndex, s.tailBlock, s.mem, s.count)
            && ProducerOk(q, Current(ix), ix.floor, ix.high, s.live, s.tailIndex, s.place)
  {
    var n := LastBlock(s.tailIndex) + |got| + 1;
    FloorIsCommitted(s, vs, got);
    KeyIndex(s.ix, s.live, LastBlock(s.tailIndex), n);
    LivesMove(s.live, s.place, s.ix.floor, s.ix.high, -1, ix.floor, ix.high, n);
  }

  lemma StoreKeyInv(s: State, vs: seq<Value>, got: seq<Block>, ix: Index)
    requires Inv(s) && s.producer == StoreKey(vs, got)
    requires LastBlock(s.tailIndex) + |got| + 1 >= 0 && ix == KeyedIndex(s.ix, LastBlock(s.tailIndex) + |got| + 1)
    ensures Inv(s.(ix := ix, producer := StoreTail(vs, got)))
  {
    StoreKeyReady(s, vs, got, ix);
    IndexKeeps(s, ix, StoreTail(vs, got));
  }

  lemma StoreKeyKeeps(s: State, vs: seq<Value>, got: seq<Block>)
    requires Inv(s) && s.producer == StoreKey(vs, got)
    ensures LastBlock(s.tailIndex) + |got| + 1 >= 0 && Inv(DoStoreKey(s, vs, got))
  {
    FloorIsCommitted(s, vs, got);
    StoreKeyInv(s, vs, got, KeyedIndex(s.ix, LastBlock(s.tailIndex) + |got| + 1));
  }

  // Doubling the index

  /** The slot that the doubled header gives a number: window numbers in order, then the new entries. */
  lemma GrownSlot(h: Header, entries: nat, n: int)
    requires HeaderShaped(h, entries) && h.tail == Slot(h, h.last)
    requires h.last + 1 - h.capacity <= n <= h.last + h.capacity
    ensures var g := Grown(h, entries);
            EntryAt(g, n) == if n <= h.last then EntryAt(h, n) else entries + (n - h.last - 1)
  {
    var g, c := Grown(h, entries), h.capacity;
    var i := n + c - 1 - h.last;
    ModuloUnique(i, 2 * c, 0, i);
    assert Slot(g, n) == i;
    if n <= h.last {
      SlotMoves(h, h.last, 1 + i);
      assert h.tail + (1 + i) == h.tail + 1 + i;
      SlotTurns(h, n);
      assert h.last + (1 + i) == n + c;
    }
  }

  lemma GrownShape(h: Header, entries: nat)
    requires HeaderShaped(h, entries) && NoDup(h.index)
    ensures HeaderShaped(Grown(h, entries), entries + h.capacity) && NoDup(Grown(h, entries).index)
  {
    var g, c := Grown(h, entries).index, h.capacity;
    forall i, j | 0 <= i < j < |g| ensures g[i] != g[j] {
      if j < c {
        ModDistinct(h.tail + 1 + i, h.tail + 1 + j, c);
        var x, y := (h.tail + 1 + i) % c, (h.tail + 1 + j) % c;
        if x < y { assert h.index[x] != h.index[y]; } else { assert h.index[y] != h.index[x]; }
      } else if i < c {
        assert h.index[(h.tail + 1 + i) % c] < entries;
      }
    }
  }

  lemma GrowWindow(ix: Index, live: map<nat, Block>, last: int, junk: Ptr)
    requires IndexShaped(ix) && IndexOk(ix, live, last, -1)
    requires ix.high == Current(ix).last && ix.floor + Current(ix).capacity == ix.high + 1
    ensures var ix' := GrownIndex(ix, junk);
            && IndexShaped(ix') && Window(ix', last)
            && (forall n {:trigger NumberOk(ix', live, -1, n)} :: ix'.floor <= n <= ix'.high ==>
                  NumberOk(ix', live, -1, n))
            && (forall n {:trigger UnusedOk(ix', n)} :: ix'.high < n < ix'.floor + Current(ix').capacity ==>
                  UnusedOk(ix', n))
  {
    var ix', h := GrownIndex(ix, junk), Current(ix);
    assert HeaderOk(ix, |ix.headers| - 1);
    GrownShape(h, |ix.entries|);
    assert Current(ix') == Grown(h, |ix.entries|);
    forall i | 0 <= i < |ix'.headers| ensures HeaderShaped(ix'.headers[i], |ix'.entries|) {
      if i < |ix.headers| { assert HeaderShaped(ix.headers[i], |ix.entries|); }
    }
    forall n | ix'.floor <= n <= ix'.high ensures NumberOk(ix', live, -1, n) {
      assert NumberOk(ix, live, -1, n);
      GrownSlot(h, |ix.entries|, n);
    }
    forall n | ix'.high < n < ix'.floor + Current(ix').capacity ensures UnusedOk(ix', n) {
      GrownSlot(h, |ix.entries|, n);
    }
  }

  lemma GrowHeaders(ix: Index, live: map<nat, Block>, last: int, junk: Ptr)
    requires IndexShaped(ix) && IndexOk(ix, live, last, -1) && IndexShaped(GrownIndex(ix, junk))
    requires ix.high == Current(ix).last && ix.floor + Current(ix).capacity == ix.high + 1
    ensures var ix' := GrownIndex(ix, junk);
            && (forall h {:trigger HeaderOk(ix', h)} :: 0 <= h < |ix'.headers| ==> HeaderOk(ix', h))
            && (forall h, n {:trigger Agrees(ix', h, n)} :: 0 <= h < |ix'.headers| ==> Agrees(ix', h, n))
            && IndexKept(ix, ix', last)
  {
    var ix', cur := GrownIndex(ix, junk), Current(ix);
    var c := cur.capacity;
    assert HeaderOk(ix, |ix.headers| - 1);
    forall h | 0 <= h < |ix'.headers| ensures HeaderOk(ix', h) {
      if h < |ix.headers| { assert HeaderOk(ix, h); } else { ModuloUnique(c - 1, 2 * c, 0, c - 1); }
    }
    forall h, n | 0 <= h < |ix'.headers| ensures Agrees(ix', h, n) {
      if h < |ix.headers| && ix.floor <= n <= ix.headers[h].last {
        assert Agrees(ix, h, n) && HeaderOk(ix, h);
        GrownSlot(cur, |ix.entries|, n);
      }
    }
  }

  lemma GrowKeeps(s: State, vs: seq<Value>, got: seq<Block>, c: Choice)
    requires Inv(s) && s.producer == Grow(vs, got) && c.Succeed?
    ensures Inv(DoGrow(s, vs, got, c))
  {
    GrowWindow(s.ix, s.live, LastBlock(s.tailIndex), c.junk);
    GrowHeaders(s.ix, s.live, LastBlock(s.tailIndex), c.junk);
    IndexKeeps(s, GrownIndex(s.ix, c.junk), StoreKey(vs, got));
  }

  // ---------------------------------------------------------------------------
  // Blocks changing hands
  // ---------------------------------------------------------------------------

  /** Only `place` changes, and only for a block outside the index and outside consumers' hands. */
  lemma PlaceKeeps(s: State, b: Block, to: Place, q: ProducerPc, poolIndex: nat)
    requires Inv(s) && b in s.place && !s.place[b].InIndex? && !s.place[b].ConsumerHand?
    requires to == Pool || to == Elsewhere || (to == ProducerHand && InProducerHand(q, b))
    requires InitialOk(s.place[b := to], s.initial, poolIndex)
    requires Keyed(q, s.tailIndex) == Keyed(s.producer, s.tailIndex)
    requires forall x {:trigger InProducerHand(q, x)} :: x != b && InProducerHand(s.producer, x) ==>
             InProducerHand(q, x)
    requires ProducerShaped(q, s.tailIndex, s.tailBlock, s.mem)
    requires ProducerOk(q, Current(s.ix), s.ix.floor, s.ix.high, s.live, s.tailIndex, s.place[b := to])
    requires PreparedOk(q, s.tailIndex, s.tailBlock, s.mem, s.count)
    ensures Inv(s.(place := s.place[b := to], producer := q, poolIndex := poolIndex))
  {
    var s' := s.(place := s.place[b := to], producer := q, poolIndex := poolIndex);
    forall x | x in s.place && x != b && PlaceOk(s.place, s.live, s.producer, s.consumers, x)
      ensures PlaceOk(s.place, s.live, q, s.consumers, x) {}
    MovePlace(s, b, to, q, s.consumers);
    ConsumersKept(s, s') by {
      forall h | 0 <= h < |s.ix.headers| ensures HeaderKept(s.ix, s.ix, LastBlock(s.tailIndex), h) {}
    }
    assert Shaped(s');
  }

  /** Past the initial pool its index may go on growing. */
  lemma PoolIndexKeeps(s: State)
    requires Inv(s) && s.poolIndex >= |s.initial|
    ensures Inv(s.(poolIndex := s.poolIndex + 1))
  {
    var s' := s.(poolIndex := s.poolIndex + 1);
    forall t | t in s'.consumers ensures ConsumerFine(s', t) { assert ConsumerFine(s, t); }
  }

  lemma EnvironmentKeeps(s: State, b: Block, taken: bool)
    requires Inv(s) && Enabled(s, Environment(b, taken))
    ensures Inv(Do(s, Environment(b, taken)))
  {
    var to := if taken then Elsewhere else Pool;
    ProducerPlace(s, b, to);
    InitialKept(s.place, s.initial, s.poolIndex, b, to);
    PlaceKeeps(s, b, to, s.producer, s.poolIndex);
  }

  lemma EnvironmentInitialKeeps(s: State)
    requires Inv(s)
    ensures Inv(Do(s, EnvironmentInitial))
  {
    if s.poolIndex < |s.initial| {
      var b := s.initial[s.poolIndex];
      InitialTaken(s.place, s.initial, s.poolIndex, Elsewhere);
      ProducerPlace(s, b, Elsewhere);
      PlaceKeeps(s, b, Elsewhere, s.producer, s.poolIndex + 1);
    } else { PoolIndexKeeps(s); }
  }

  lemma ReleaseReady(s: State, vs: seq<Value>, got: seq<Block>, j: nat)
    requires Inv(s) && s.producer == Release(vs, got, j) && j < |got|
    ensures got[j] in s.place && s.place[got[j]] == ProducerHand
    ensures ProducerOk(Release(vs, got, j + 1), Current(s.ix), s.ix.floor, s.ix.high, s.live, s.tailIndex,
            s.place[got[j] := Pool])
    ensures ProducerShaped(Release(vs, got, j + 1), s.tailIndex, s.tailBlock, s.mem)
    ensures PreparedOk(Release(vs, got, j + 1), s.tailIndex, s.tailBlock, s.mem, s.count)
    ensures Keyed(Release(vs, got, j + 1), s.tailIndex) == Keyed(s.producer, s.tailIndex)
    ensures forall x {:trigger InProducerHand(Release(vs, got, j + 1), x)} ::
              x != got[j] && InProducerHand(s.producer, x) ==> InProducerHand(Release(vs, got, j + 1), x)
    ensures InitialOk(s.place[got[j] := Pool], s.initial, s.poolIndex)
  {
    InitialKept(s.place, s.initial, s.poolIndex, got[j], Pool);
    assert InHand(s.place[got[j] := Pool], got, j + 1, |got|);
  }

  lemma ReleaseKeeps(s: State, vs: seq<Value>, got: seq<Block>, j: nat)
    requires Inv(s) && s.producer == Release(vs, got, j) && j < |got|
    ensures Inv(DoRelease(s, vs, got, j))
  {
    ReleaseInv(s, vs, got, j, got[j], Release(vs, got, j + 1));
  }

  lemma ReleaseInv(s: State, vs: seq<Value>, got: seq<Block>, j: nat, b: Block, q: ProducerPc)
    requires Inv(s) && s.producer == Release(vs, got, j) && j < |got| && b == got[j] && q == Release(vs, got, j + 1)
    ensures Inv(s.(place := s.place[b := Pool], producer := q, poolIndex := s.poolIndex))
  {
    ReleaseReady(s, vs, got, j);
    PlaceKeeps(s, b, Pool, q, s.poolIndex);
  }

  /** The blocks change as a new block's or a reset counter make them. */
  predicate Recounted(s: State, b: Block, mem: map<Block, seq<Value>>, place: map<Block, Place>) {
    && (b in s.place ==> !s.place[b].InIndex? && mem == s.mem && place == s.place)
    && (b !in s.place ==> place == s.place[b := Fresh] && mem == s.mem[b := seq(BLOCK_SIZE, _ => 0)])
    && (!s.producer.StoreValue? || s.producer.b != b)
  }

  lemma RecountedBlocks(s: State, b: Block, mem: map<Block, seq<Value>>, place: map<Block, Place>)
    requires Inv(s) && Recounted(s, b, mem, place)
    ensures CountsOk(s.live, s.count[b := 0], s.marked) && AllDataOk(s.live, mem, s.items)
    ensures LivesOk(s.live, s.ix.floor, s.ix.high, Keyed(s.producer, s.tailIndex), place)
  {
    var count := s.count[b := 0];
    forall n | n in s.live ensures CountOk(s.live, count, s.marked, n) &&
      LiveOk(s.live, s.ix.floor, s.ix.high, Keyed(s.producer, s.tailIndex), place, n)
    {
      LiveBlockKnown(s, n);
      assert CountOk(s.live, s.count, s.marked, n);
      assert LiveOk(s.live, s.ix.floor, s.ix.high, Keyed(s.producer, s.tailIndex), s.place, n);
    }
    forall i | 0 <= i < |s.items| ensures DataOk(s.live, mem, s.items, i) {
      assert DataOk(s.live, s.mem, s.items, i);
      if i / BLOCK_SIZE in s.live { LiveBlockKnown(s, i / BLOCK_SIZE); }
    }
  }

  lemma RecountedPlaces(s: State, b: Block, mem: map<Block, seq<Value>>, place: map<Block, Place>)
    requires Inv(s) && Recounted(s, b, mem, place)
    ensures PlacesOk(place, s.live, s.producer, s.consumers) && InitialOk(place, s.initial, s.poolIndex)
  {
    forall x | x in place ensures PlaceOk(place, s.live, s.producer, s.consumers, x) {
      if x in s.place { assert PlaceOk(s.place, s.live, s.producer, s.consumers, x); }
    }
    if b !in s.place { InitialKept(s.place, s.initial, s.poolIndex, b, Fresh); }
  }

  /** A new block, or one whose counter is reset: the counters of live blocks stay. */
  lemma CountKeeps(s: State, b: Block, mem: map<Block, seq<Value>>, place: map<Block, Place>)
    requires Inv(s) && Recounted(s, b, mem, place)
    ensures Inv(s.(count := s.count[b := 0], mem := mem, place := place))
  {
    var s' := s.(count := s.count[b := 0], mem := mem, place := place);
    RecountedBlocks(s, b, mem, place);
    RecountedPlaces(s, b, mem, place);
    NewBlockProducer(s, b, mem, place);
    ConsumersKept(s, s') by {
      forall h | 0 <= h < |s.ix.headers| ensures HeaderKept(s.ix, s.ix, LastBlock(s.tailIndex), h) {}
    }
    assert Shaped(s');
  }

  lemma NewBlockProducer(s: State, b: Block, mem: map<Block, seq<Value>>, place: map<Block, Place>)
    requires Inv(s) && Recounted(s, b, mem, place)
    ensures ProducerShaped(s.producer, s.tailIndex, s.tailBlock, mem)
    ensures ProducerOk(s.producer, Current(s.ix), s.ix.floor, s.ix.high, s.live, s.tailIndex, place)
    ensures PreparedOk(s.producer, s.tailIndex, s.tailBlock, mem, s.count[b := 0])
  {
    if s.producer.Write? || s.producer.Commit? {
      var p := s.producer;
      forall k | 0 <= k < if p.Write? then p.i else |p.vs|
        ensures ElementWritten(s.tailIndex, s.tailBlock, mem, p.vs, p.got, k)
      {
        var v := p.vs[k];
        assert ElementWritten(s.tailIndex, s.tailBlock, s.mem, p.vs, p.got, k);
      }
    }
  }

  lemma NewBlockKeeps(s: State, b: Block)
    requires Inv(s) && Enabled(s, NewBlock(b))
    ensures Inv(Do(s, NewBlock(b)))
  {
    CountKeeps(s, b, s.mem[b := seq(BLOCK_SIZE, _ => 0)], s.place[b := Fresh]);
  }

  /** The producer takes block b, from wherever it lies ready. */
  lemma AcquireKeeps(s: State, vs: seq<Value>, got: seq<Block>, b: Block, poolIndex: nat)
    requires Inv(s) && (s.producer == TakeInitial(vs, got) || s.producer == TakeFree(vs, got))
    requires b in s.place && (s.place[b] == Pool || s.place[b] == Fresh || s.place[b].Initial?)
    requires InitialOk(s.place[b := ProducerHand], s.initial, poolIndex)
    ensures Inv(Acquire(s, vs, got, b).(poolIndex := poolIndex))
  {
    CountKeeps(s, b, s.mem, s.place);
    var r := s.(count := s.count[b := 0]);
    assert r == s.(count := s.count[b := 0], mem := s.mem, place := s.place);
    AcquireReady(r, vs, got, b);
    PlaceKeeps(r, b, ProducerHand, StoreValue(vs, got, b), poolIndex);
  }

  lemma AcquireReady(s: State, vs: seq<Value>, got: seq<Block>, b: Block)
    requires Inv(s) && (s.producer == TakeInitial(vs, got) || s.producer == TakeFree(vs, got)) && b in s.place
    requires b in s.count && s.count[b] == 0
    ensures var q := StoreValue(vs, got, b);
            && Keyed(q, s.tailIndex) == Keyed(s.producer, s.tailIndex)
               && ProducerShaped(q, s.tailIndex, s.tailBlock, s.mem)
            && ProducerOk(q, Current(s.ix), s.ix.floor, s.ix.high, s.live, s.tailIndex, s.place[b := ProducerHand])
            && PreparedOk(q, s.tailIndex, s.tailBlock, s.mem, s.count)
  {
  }

  lemma TakeInitialKeeps(s: State, vs: seq<Value>, got: seq<Block>)
    requires Inv(s) && s.producer == TakeInitial(vs, got)
    ensures Inv(DoTakeInitial(s, vs, got))
  {
    if s.poolIndex < |s.initial| {
      InitialTaken(s.place, s.initial, s.poolIndex, ProducerHand);
      AcquireKeeps(s, vs, got, s.initial[s.poolIndex], s.poolIndex + 1);
    } else {
      SeekKeeps(s, TakeFree(vs, got));
      PoolIndexKeeps(s.(producer := TakeFree(vs, got)));
    }
  }

  lemma TakeFreeKeeps(s: State, vs: seq<Value>, got: seq<Block>, c: Choice)
    requires Inv(s) && s.producer == TakeFree(vs, got) && c.Succeed? && Enabled(s, ProducerStep(c))
    ensures Inv(DoTakeFree(s, vs, got, c))
  {
    InitialKept(s.place, s.initial, s.poolIndex, c.b, ProducerHand);
    AcquireKeeps(s, vs, got, c.b, s.poolIndex);
  }

  // Entering the acquired block

  lemma {:induction false} MarksNone(marked: set<nat>, lo: nat, hi: nat)
    requires forall i {:trigger i in marked} :: i in marked ==> i < lo
    ensures Marks(marked, lo, hi) == 0
    decreases hi
  {
    if lo < hi { MarksNone(marked, lo, hi - 1); }
  }

  lemma EnterBlock(s: State, n: nat, b: Block)
    requires Inv(s) && n > LastBlock(s.tailIndex) && n == Keyed(s.producer, s.tailIndex) <= s.ix.high
    requires b in s.place && s.place[b] == ProducerHand && s.producer.StoreValue? && s.producer.b == b
    requires b in s.count && s.count[b] == 0
    ensures LivesOk(s.live[n := b], s.ix.floor, s.ix.high, -1, s.place[b := InIndex(n)])
    ensures CountsOk(s.live[n := b], s.count, s.marked)
    ensures DonesOk(s.live[n := b], s.marked, LastBlock(s.tailIndex))
    ensures AllDataOk(s.live[n := b], s.mem, s.items)
  {
    var live, place := s.live[n := b], s.place[b := InIndex(n)];
    forall m | m in live
      ensures LiveOk(live, s.ix.floor, s.ix.high, -1, place, m) && CountOk(live, s.count, s.marked, m)
    {
      if m == n { MarksNone(s.marked, n * BLOCK_SIZE, (n + 1) * BLOCK_SIZE); }
      else {
        assert LiveOk(s.live, s.ix.floor, s.ix.high, n, s.place, m);
        assert CountOk(s.live, s.count, s.marked, m);
      }
    }
    forall m | 0 <= m <= LastBlock(s.tailIndex) ensures DoneOk(live, s.marked, m) {
      assert DoneOk(s.live, s.marked, m);
    }
    forall i | 0 <= i < |s.items| ensures DataOk(live, s.mem, s.items, i) { assert DataOk(s.live, s.mem, s.items, i); }
  }

  lemma EnterPlaces(s: State, n: nat, b: Block, q: ProducerPc)
    requires Inv(s) && n !in s.live && s.producer.StoreValue? && s.producer.b == b
    ensures PlacesOk(s.place[b := InIndex(n)], s.live[n := b], q, s.consumers)
    ensures InitialOk(s.place[b := InIndex(n)], s.initial, s.poolIndex)
  {
    var place := s.place[b := InIndex(n)];
    InitialKept(s.place, s.initial, s.poolIndex, b, InIndex(n));
    forall x | x in place ensures PlaceOk(place, s.live[n := b], q, s.consumers, x) {
      if x != b { assert PlaceOk(s.place, s.live, s.producer, s.consumers, x); }
    }
  }

  lemma EnterAcquired(s: State, got: seq<Block>, b: Block)
    requires Inv(s) && Acquired(s.live, LastBlock(s.tailIndex), got, 0)
    requires b in s.place && s.place[b] == ProducerHand
    ensures Acquired(s.live[LastBlock(s.tailIndex) + 1 + |got| := b], LastBlock(s.tailIndex), got + [b], 0)
  {
    var B := LastBlock(s.tailIndex);
    var live, got' := s.live[B + 1 + |got| := b], got + [b];
    forall i | 0 <= i < |got'| ensures Entered(live, B, got', i) && (i < |got| ==> got'[i] != b) {
      if i < |got| {
        assert Entered(s.live, B, got, i);
        LiveBlockKnown(s, B + 1 + i);
      }
    }
    assert NoDup(got');
  }

  lemma EnterReady(s: State, vs: seq<Value>, got: seq<Block>, b: Block)
    requires Inv(s) && s.producer == StoreValue(vs, got, b)
    ensures var s', q := DoStoreValue(s, vs, got, b), Loop(s.tailIndex, vs, got + [b]);
            && BoundsOk(s')
            && ProducerShaped(q, s.tailIndex, s.tailBlock, s.mem)
            && ProducerOk(q, Current(s'.ix), s'.ix.floor, s'.ix.high, s'.live, s.tailIndex, s'.place)
            && PreparedOk(q, s.tailIndex, s.tailBlock, s.mem, s.count)
  {
    var n, s' := LastBlock(s.tailIndex) + 1 + |got|, DoStoreValue(s, vs, got, b);
    EnterAcquired(s, got, b);
    forall m | m in s'.live ensures s'.live[m] in s.mem { if m != n { LiveBlockKnown(s, m); } }
    assert HeaderOk(s.ix, |s.ix.headers| - 1);
    assert BoundsOk(s');
    assert IndexShaped(s'.ix);
    LoopReady(s'.(producer := ProducerIdle), vs, got + [b]);
  }

  lemma EnterIndex(s: State, vs: seq<Value>, got: seq<Block>, b: Block)
    requires Inv(s) && s.producer == StoreValue(vs, got, b)
    ensures var n, s' := LastBlock(s.tailIndex) + 1 + |got|, DoStoreValue(s, vs, got, b);
            && n == Current(s.ix).last && n !in s.live && n <= s.ix.high && s'.live == s.live[n := b]
               && s'.place == s.place[b := InIndex(n)]
            && IndexShaped(s'.ix) && IndexOk(s'.ix, s'.live, LastBlock(s.tailIndex), -1)
            && IndexKept(s.ix, s'.ix, LastBlock(s.tailIndex)) && s'.ix.floor == s.ix.floor && s'.ix.high == s.ix.high
  {
    assert HeaderOk(s.ix, |s.ix.headers| - 1);
    var n := LastBlock(s.tailIndex) + 1 + |got|;
    ValueIndex(s.ix, s.live, s.live[n := b], LastBlock(s.tailIndex), n, At(b));
  }

  lemma EnterConsumers(s: State, vs: seq<Value>, got: seq<Block>, b: Block)
    requires Inv(s) && s.producer == StoreValue(vs, got, b)
    requires ProducerShaped(Loop(s.tailIndex, vs, got + [b]), s.tailIndex, s.tailBlock, s.mem)
    ensures Shaped(DoStoreValue(s, vs, got, b)) && ConsumersOk(DoStoreValue(s, vs, got, b))
  {
    var s' := DoStoreValue(s, vs, got, b);
    EnterIndex(s, vs, got, b);
    ConsumersKept(s, s');
    assert Shaped(s');
  }

  lemma EnterParts(s: State, vs: seq<Value>, got: seq<Block>, b: Block)
    requires Inv(s) && s.producer == StoreValue(vs, got, b)
    ensures var s' := DoStoreValue(s, vs, got, b);
            && IndexShaped(s'.ix) && IndexOk(s'.ix, s'.live, LastBlock(s.tailIndex), -1)
            && LivesOk(s'.live, s'.ix.floor, s'.ix.high, -1, s'.place) && CountsOk(s'.live, s.count, s.marked)
            && DonesOk(s'.live, s.marked, LastBlock(s.tailIndex)) && AllDataOk(s'.live, s.mem, s.items)
            && PlacesOk(s'.place, s'.live, s'.producer, s.consumers) && InitialOk(s'.place, s.initial, s.poolIndex)
  {
    var n := LastBlock(s.tailIndex) + 1 + |got|;
    EnterIndex(s, vs, got, b);
    EnterBlock(s, n, b);
    EnterPlaces(s, n, b, Loop(s.tailIndex, vs, got + [b]));
  }

  lemma StoreValueKeeps(s: State, vs: seq<Value>, got: seq<Block>, b: Block)
    requires Inv(s) && s.producer == StoreValue(vs, got, b)
    ensures Inv(DoStoreValue(s, vs, got, b))
  {
    EnterParts(s, vs, got, b);
    EnterReady(s, vs, got, b);
    EnterConsumers(s, vs, got, b);
  }

  // Writing and committing

  lemma WriteData(s: State, b: Block, x: nat, v: Value)
    requires Inv(s) && x >= s.tailIndex && x / BLOCK_SIZE in s.live && s.live[x / BLOCK_SIZE] == b && b in s.mem
    ensures |s.mem[b]| == BLOCK_SIZE
    ensures AllDataOk(s.live, s.mem[b := s.mem[b][x % BLOCK_SIZE := v]], s.items)
  {
    var mem := s.mem[b := s.mem[b][x % BLOCK_SIZE := v]];
    forall i | 0 <= i < |s.items| ensures DataOk(s.live, mem, s.items, i) {
      assert DataOk(s.live, s.mem, s.items, i);
      if i / BLOCK_SIZE in s.live {
        LiveBlockKnown(s, i / BLOCK_SIZE);
        LiveBlockKnown(s, x / BLOCK_SIZE);
      }
    }
  }

  lemma WriteWritten(s: State, vs: seq<Value>, got: seq<Block>, i: nat)
    requires Inv(s) && s.producer == Write(vs, got, i)
    ensures WrittenUpTo(s.tailIndex, s.tailBlock, DoWrite(s, vs, got, i).mem, vs, got, i + 1)
  {
    var mem := DoWrite(s, vs, got, i).mem;
    TargetIsLive(s, vs, got, i);
    forall k | 0 <= k < i + 1 ensures ElementWritten(s.tailIndex, s.tailBlock, mem, vs, got, k) {
      if k < i { ElementStays(s, vs, got, i, k); }
    }
  }

  lemma ElementStays(s: State, vs: seq<Value>, got: seq<Block>, i: nat, k: nat)
    requires Inv(s) && s.producer == Write(vs, got, i) && k < i
    ensures ElementWritten(s.tailIndex, s.tailBlock, DoWrite(s, vs, got, i).mem, vs, got, k)
  {
    var v := vs[k];
    assert ElementWritten(s.tailIndex, s.tailBlock, s.mem, vs, got, k);
    TargetIsLive(s, vs, got, i);
    TargetIsLive(s, vs, got, k);
    LiveBlockKnown(s, (s.tailIndex + i) / BLOCK_SIZE);
    LiveBlockKnown(s, (s.tailIndex + k) / BLOCK_SIZE);
  }

  lemma WriteMem(s: State, vs: seq<Value>, got: seq<Block>, i: nat)
    requires Inv(s) && s.producer == Write(vs, got, i)
    ensures var s' := DoWrite(s, vs, got, i);
            s'.mem.Keys == s.mem.Keys && MemShaped(s'.mem, s'.count, s'.place) && AllDataOk(s.live, s'.mem, s.items)
  {
    TargetIsLive(s, vs, got, i);
    LiveBlockKnown(s, (s.tailIndex + i) / BLOCK_SIZE);
    WriteData(s, s.live[(s.tailIndex + i) / BLOCK_SIZE], s.tailIndex + i, vs[i]);
  }

  lemma WriteNext(s: State, vs: seq<Value>, got: seq<Block>, i: nat)
    requires Inv(s) && s.producer == Write(vs, got, i) && DoWrite(s, vs, got, i).mem.Keys == s.mem.Keys
    ensures var s' := DoWrite(s, vs, got, i); ProducerShaped(s'.producer, s.tailIndex, s.tailBlock, s'.mem)
  {
    if i + 1 < |vs| {
      TargetIsLive(s, vs, got, i + 1);
      LiveBlockKnown(s, (s.tailIndex + (i + 1)) / BLOCK_SIZE);
    }
  }

  lemma WriteConsumers(s: State, vs: seq<Value>, got: seq<Block>, i: nat)
    requires Inv(s) && s.producer == Write(vs, got, i)
    ensures Shaped(DoWrite(s, vs, got, i)) && ConsumersOk(DoWrite(s, vs, got, i))
  {
    var s' := DoWrite(s, vs, got, i);
    WriteMem(s, vs, got, i);
    WriteNext(s, vs, got, i);
    ConsumersKept(s, s') by {
      forall h | 0 <= h < |s.ix.headers| ensures HeaderKept(s.ix, s.ix, LastBlock(s.tailIndex), h) {}
    }
    assert Shaped(s');
  }

  lemma WriteRest(s: State, vs: seq<Value>, got: seq<Block>, i: nat)
    requires Inv(s) && s.producer == Write(vs, got, i) && Shaped(DoWrite(s, vs, got, i))
    ensures var s' := DoWrite(s, vs, got, i);
            && BoundsOk(s') && Keyed(s'.producer, s.tailIndex) == Keyed(s.producer, s.tailIndex)
            && ProducerOk(s'.producer, Current(s.ix), s.ix.floor, s.ix.high, s.live, s.tailIndex, s.place)
            && PreparedOk(s'.producer, s.tailIndex, s.tailBlock, s'.mem, s.count)
  {
    WriteWritten(s, vs, got, i);
    WritePlace(s, vs, got, i);
  }

  lemma WritePlace(s: State, vs: seq<Value>, got: seq<Block>, i: nat)
    requires Inv(s) && s.producer == Write(vs, got, i)
    ensures var s' := DoWrite(s, vs, got, i);
            && BoundsOk(s') && Keyed(s'.producer, s.tailIndex) == Keyed(s.producer, s.tailIndex)
            && ProducerOk(s'.producer, Current(s.ix), s.ix.floor, s.ix.high, s.live, s.tailIndex, s.place)
  {
  }

  lemma WriteKeeps(s: State, vs: seq<Value>, got: seq<Block>, i: nat)
    requires Inv(s) && s.producer == Write(vs, got, i)
    ensures Inv(DoWrite(s, vs, got, i))
  {
    WriteMem(s, vs, got, i);
    WriteWritten(s, vs, got, i);
    WriteConsumers(s, vs, got, i);
    WriteRest(s, vs, got, i);
    HandsKept(s.place, s.live, s.producer, DoWrite(s, vs, got, i).producer, s.consumers);
  }

  lemma CommitData(s: State, vs: seq<Value>, got: seq<Block>)
    requires Inv(s) && s.producer == Commit(vs, got)
    ensures AllDataOk(s.live, s.mem, s.items + vs)
    ensures DonesOk(s.live, s.marked, LastBlock(s.tailIndex + |vs|))
  {
    var items, B := s.items + vs, LastBlock(s.tailIndex);
    forall i | 0 <= i < |items| ensures DataOk(s.live, s.mem, items, i) {
      if i < |s.items| { assert DataOk(s.live, s.mem, s.items, i); }
      else {
        var k := i - s.tailIndex;
        var v := vs[k];
        TargetIsLive(s, vs, got, k);
        assert ElementWritten(s.tailIndex, s.tailBlock, s.mem, vs, got, k);
      }
    }
    forall n | 0 <= n <= LastBlock(s.tailIndex + |vs|) ensures DoneOk(s.live, s.marked, n) {
      if n <= B { assert DoneOk(s.live, s.marked, n); } else { assert Entered(s.live, B, got, n - B - 1); }
    }
  }

  lemma CommitBounds(s: State, vs: seq<Value>, got: seq<Block>)
    requires Inv(s) && s.producer == Commit(vs, got)
    ensures BoundsOk(DoCommit(s, vs, got))
    ensures DoCommit(s, vs, got).tailBlock.At? ==> DoCommit(s, vs, got).tailBlock.block in s.mem
  {
    var B := LastBlock(s.tailIndex);
    if got != [] { assert Entered(s.live, B, got, |got| - 1) && got[|got| - 1] in s.mem; }
  }

  lemma CommitIndex(ix: Index, live: map<nat, Block>, last: int, last': int)
    requires IndexShaped(ix) && IndexOk(ix, live, last, -1) && last <= last' <= Current(ix).last
    ensures IndexOk(ix, live, last', -1)
  {
  }

  lemma CommitKeeps(s: State, vs: seq<Value>, got: seq<Block>)
    requires Inv(s) && s.producer == Commit(vs, got)
    ensures Inv(DoCommit(s, vs, got))
  {
    var s' := DoCommit(s, vs, got);
    CommitData(s, vs, got);
    CommitBounds(s, vs, got);
    CommitIndex(s.ix, s.live, LastBlock(s.tailIndex), LastBlock(s'.tailIndex));
    HandsKept(s.place, s.live, s.producer, ProducerIdle, s.consumers);
    ConsumersKept(s, s') by {
      forall h | 0 <= h < |s.ix.headers| ensures HeaderKept(s.ix, s.ix, LastBlock(s.tailIndex), h) {}
    }
    assert Shaped(s');
  }

  // Taking an acquired block out again

  /** The producer's own lookup for number n finds the entry for n. */
  lemma UndoLookup(s: State, vs: seq<Value>, got: seq<Block>, j: nat)
    requires Inv(s) && s.producer == Undo(vs, got, j) && j < |got|
    ensures var h, n := Current(s.ix), LastBlock(s.tailIndex) + 1 + j;
            && Lookup(h, h.tail, s.ix.entries[h.index[h.tail]].key, n) == Slot(h, n)
            && n in s.live && s.live[n] == got[j] && s.ix.floor <= n <= s.ix.high
  {
    var B, h := LastBlock(s.tailIndex), Current(s.ix);
    assert Entered(s.live, B, got, j);
    assert LiveOk(s.live, s.ix.floor, s.ix.high, -1, s.place, B + 1 + j);
    assert HeaderOk(s.ix, |s.ix.headers| - 1) && NumberOk(s.ix, s.live, -1, h.last);
    LookupFinds(h, h.tail, h.last, B + 1 + j);
  }

  lemma UndoProducer(s: State, vs: seq<Value>, got: seq<Block>, j: nat)
    requires Inv(s) && s.producer == Undo(vs, got, j) && j < |got|
    ensures var live, place := s.live - {LastBlock(s.tailIndex) + 1 + j}, s.place[got[j] := ProducerHand];
            && Acquired(live, LastBlock(s.tailIndex), got, j + 1) && InHand(place, got, 0, j + 1)
            && PlacesOk(place, live, UndoRewind(vs, got, j), s.consumers)
  {
    var B, q := LastBlock(s.tailIndex), UndoRewind(vs, got, j);
    var n := B + 1 + j;
    var live, place := s.live - {n}, s.place[got[j] := ProducerHand];
    assert Entered(s.live, B, got, j);
    LiveBlockKnown(s, n);
    forall i | j + 1 <= i < |got| ensures Entered(live, B, got, i) { assert Entered(s.live, B, got, i); }
    forall x | x in place ensures PlaceOk(place, live, q, s.consumers, x) {
      if x != got[j] { assert PlaceOk(s.place, s.live, s.producer, s.consumers, x); }
    }
  }

  lemma UndoIndex(s: State, vs: seq<Value>, got: seq<Block>, j: nat)
    requires Inv(s) && s.producer == Undo(vs, got, j) && j < |got| && got[j] in s.place
    ensures var n, s' := LastBlock(s.tailIndex) + 1 + j, DoUndo(s, vs, got, j);
            && n in s.live && s.live[n] == got[j] && s.place[got[j]] == InIndex(n)
            && s'.live == s.live - {n} && s'.ix.headers == s.ix.headers && s'.ix.floor == s.ix.floor
               && s'.ix.high == s.ix.high
            && IndexShaped(s'.ix) && IndexOk(s'.ix, s'.live, LastBlock(s.tailIndex), -1)
  {
    UndoLookup(s, vs, got, j);
    NullIndex(s.ix, s.live, LastBlock(s.tailIndex), -1, LastBlock(s.tailIndex) + 1 + j);
    LiveBlockKnown(s, LastBlock(s.tailIndex) + 1 + j);
  }

  lemma UndoConsumers(s: State, vs: seq<Value>, got: seq<Block>, j: nat)
    requires Inv(s) && s.producer == Undo(vs, got, j) && j < |got| && got[j] in s.place
    ensures Shaped(DoUndo(s, vs, got, j)) && ConsumersOk(DoUndo(s, vs, got, j))
  {
    var s' := DoUndo(s, vs, got, j);
    UndoIndex(s, vs, got, j);
    ConsumersKept(s, s') by {
      forall h | 0 <= h < |s.ix.headers| ensures HeaderKept(s.ix, s'.ix, LastBlock(s.tailIndex), h) {}
    }
    assert Shaped(s');
  }

  lemma UndoParts(s: State, vs: seq<Value>, got: seq<Block>, j: nat)
    requires Inv(s) && s.producer == Undo(vs, got, j) && j < |got| && got[j] in s.place
    ensures var s' := DoUndo(s, vs, got, j);
            && LivesOk(s'.live, s.ix.floor, s.ix.high, -1, s'.place) && CountsOk(s'.live, s.count, s.marked)
            && DonesOk(s'.live, s.marked, LastBlock(s.tailIndex)) && AllDataOk(s'.live, s.mem, s.items)
            && InitialOk(s'.place, s.initial, s.poolIndex)
  {
    var n := LastBlock(s.tailIndex) + 1 + j;
    UndoIndex(s, vs, got, j);
    RemoveLives(s.live, s.ix.floor, s.ix.high, -1, s.place, n, got[j], ProducerHand);
    RemoveCounts(s.live, s.count, s.marked, n);
    RemoveData(s.live, s.mem, s.items, n);
    RemoveDones(s.live, s.marked, LastBlock(s.tailIndex), n);
    InitialKept(s.place, s.initial, s.poolIndex, got[j], ProducerHand);
  }

  lemma UndoRest(s: State, vs: seq<Value>, got: seq<Block>, j: nat)
    requires Inv(s) && s.producer == Undo(vs, got, j) && j < |got| && got[j] in s.place && Shaped(DoUndo(s, vs, got, j))
    ensures var s' := DoUndo(s, vs, got, j);
            && BoundsOk(s') && PreparedOk(s'.producer, s.tailIndex, s.tailBlock, s.mem, s.count)
            && ProducerOk(s'.producer, Current(s'.ix), s'.ix.floor, s'.ix.high, s'.live, s.tailIndex, s'.place)
  {
    UndoIndex(s, vs, got, j);
    UndoProducer(s, vs, got, j);
    UndoBounds(s, vs, got, j);
  }

  lemma UndoBounds(s: State, vs: seq<Value>, got: seq<Block>, j: nat)
    requires Inv(s) && s.producer == Undo(vs, got, j) && j < |got| && got[j] in s.place
    ensures BoundsOk(DoUndo(s, vs, got, j))
  {
  }

  lemma UndoKeeps(s: State, vs: seq<Value>, got: seq<Block>, j: nat)
    requires Inv(s) && s.producer == Undo(vs, got, j) && j < |got| && got[j] in s.place
    ensures Inv(DoUndo(s, vs, got, j))
  {
    UndoIndex(s, vs, got, j);
    UndoProducer(s, vs, got, j);
    UndoParts(s, vs, got, j);
    UndoConsumers(s, vs, got, j);
    UndoRest(s, vs, got, j);
  }

  // ---------------------------------------------------------------------------
  // Every step, every run
  // ---------------------------------------------------------------------------

  lemma PlacingKeeps(s: State, c: Choice)
    requires Inv(s) && Placing(s.producer)
    ensures KeyReady(s) && Inv(DoPlacing(s, c))
  {
    match s.producer
    case Check(vs, got) => CheckKeeps(s, vs, got);
    case Grow(vs, got) => if c.Fail? { GrowFailKeeps(s, vs, got); } else { GrowKeeps(s, vs, got, c); }
    case StoreKey(vs, got) => StoreKeyKeeps(s, vs, got);
    case StoreTail(vs, got) => StoreTailKeeps(s, vs, got);
  }

  lemma AcquiringKeeps(s: State, c: Choice)
    requires Inv(s) && Acquiring(s.producer) && Enabled(s, ProducerStep(c))
    ensures Inv(DoAcquiring(s, c))
  {
    match s.producer
    case LoadInitial(vs, got) =>
      SeekKeeps(s, if s.poolIndex >= |s.initial| then TakeFree(vs, got) else TakeInitial(vs, got));
    case TakeInitial(vs, got) => TakeInitialKeeps(s, vs, got);
    case TakeFree(vs, got) => if c.Fail? { NoBlockKeeps(s, vs, got); } else { TakeFreeKeeps(s, vs, got, c); }
    case StoreValue(vs, got, b) => StoreValueKeeps(s, vs, got, b);
  }

  lemma FillingKeeps(s: State)
    requires Inv(s) && Filling(s.producer)
    ensures Inv(DoFilling(s))
  {
    match s.producer
    case Write(vs, got, i) => WriteKeeps(s, vs, got, i);
    case Commit(vs, got) => CommitKeeps(s, vs, got);
  }

  lemma FailingKeeps(s: State)
    requires Inv(s) && Failing(s.producer)
    ensures Inv(DoFailing(s))
  {
    if s.producer.Release? { ReleasingKeeps(s); }
    else if s.producer.Undo? || s.producer.UndoRewind? { UndoingKeeps(s); }
    else {
      match s.producer
      case Rewind(vs, got) => RewindKeeps(s, vs, got);
      case NullFresh(vs, got) => NullFreshKeeps(s, vs, got);
    }
  }

  lemma UndoingKeeps(s: State)
    requires Inv(s) && (s.producer.Undo? || s.producer.UndoRewind?)
    ensures Inv(DoFailing(s))
  {
    match s.producer
    case Undo(vs, got, j) => if j < |got| { UndoKeeps(s, vs, got, j); } else { UndoEndKeeps(s, vs, got); }
    case UndoRewind(vs, got, j) => UndoRewindKeeps(s, vs, got, j);
  }

  lemma ReleasingKeeps(s: State)
    requires Inv(s) && s.producer.Release?
    ensures Inv(DoFailing(s))
  {
    var p := s.producer;
    if p.j < |p.got| { ReleaseKeeps(s, p.vs, p.got, p.j); } else { ReleaseEndKeeps(s, p.vs, p.got); }
  }

  lemma ProducerKeeps(s: State, c: Choice)
    requires Inv(s) && Enabled(s, ProducerStep(c))
    ensures KeyReady(s) && Inv(DoProducer(s, c))
  {
    if Placing(s.producer) { PlacingKeeps(s, c); }
    else if Acquiring(s.producer) { AcquiringKeeps(s, c); }
    else if Filling(s.producer) { FillingKeeps(s); }
    else { FailingKeeps(s); }
  }

  predicate Looking(p: ConsumerPc) { p.LoadHeader? || p.LoadTail? || p.LoadKey? || p.LoadValue? }

  lemma LookingKeeps(s: State, t: Thread)
    requires Inv(s) && t in s.consumers && Looking(s.consumers[t])
    ensures Inv(DoConsumer(s, t))
  {
    match s.consumers[t]
    case LoadHeader(start, end) => LoadHeaderKeeps(s, t, start, end);
    case LoadTail(start, end, h) => LoadTailKeeps(s, t, start, end, h);
    case LoadKey(start, end, h, tail, mt) => LoadKeyKeeps(s, t, start, end, h, tail, mt);
    case LoadValue(start, end, h, slot) => LoadValueKeeps(s, t, start, end, h, slot);
  }

  lemma ConsumerKeeps(s: State, t: Thread)
    requires Inv(s) && Enabled(s, ConsumerStep(t))
    ensures Inv(DoConsumer(s, t))
  {
    if Looking(s.consumers[t]) { LookingKeeps(s, t); }
    else if s.consumers[t].Reading? { EmptyingKeeps(s, t); }
    else { FreeingKeeps(s, t); }
  }

  lemma EmptyingKeeps(s: State, t: Thread)
    requires Inv(s) && Enabled(s, ConsumerStep(t)) && s.consumers[t].Reading?
    ensures Inv(DoConsumer(s, t))
  {
    assert ConsumerShaped(s.ix, s.mem, s.consumers[t]);
    var p := s.consumers[t];
    if p.i < Stop(p.start, p.end) { ReadingKeeps(s, t, p.start, p.end, p.h, p.slot, p.ptr.block, p.i); }
    else { MarkKeeps(s, t, p.start, p.end, p.h, p.slot, p.ptr.block, p.i); }
  }

  lemma FreeingKeeps(s: State, t: Thread)
    requires Inv(s) && Enabled(s, ConsumerStep(t)) && (s.consumers[t].NullEntry? || s.consumers[t].Free?)
    ensures Inv(DoConsumer(s, t))
  {
    var p := s.consumers[t];
    if p.Free? { FreeKeeps(s, t, p.start, p.end, p.h, p.slot, p.b, p.number); } else { NullingKeeps(s, t); }
  }

  lemma NullingKeeps(s: State, t: Thread)
    requires Inv(s) && Enabled(s, ConsumerStep(t)) && s.consumers[t].NullEntry?
    ensures Inv(DoConsumer(s, t))
  {
    var p := s.consumers[t];
    NullEntryKeeps(s, t, p.start, p.end, p.h, p.slot, p.b, p.number);
  }

  /** Where Do is defined. */
  predicate Ready(s: State, a: Action) { a.ProducerStep? ==> KeyReady(s) }

  lemma StepKeeps(s: State, a: Action)
    requires Inv(s) && Enabled(s, a)
    ensures Ready(s, a) && Inv(Do(s, a))
  {
    match a
    case CallEnqueue(vs) => CallKeeps(s, vs);
    case ProducerStep(c) => ProducerKeeps(s, c);
    case Claim(t, n) => ClaimKeeps(s, t, n);
    case ConsumerStep(t) => ConsumerKeeps(s, t);
    case Environment(b, taken) => EnvironmentKeeps(s, b, taken);
    case EnvironmentInitial => EnvironmentInitialKeeps(s);
    case NewBlock(b) => NewBlockKeeps(s, b);
  }
}
