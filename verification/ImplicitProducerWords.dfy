/**
 ImplicitProducer in 64-bit words: the capacities are powers of two in every run, so the masks and the
 unsigned division with which the code steps round its block index and looks blocks up come to the
 slots that the model computes with integers.
 */
module ImplicitProducerWords {
  import opened BlockPool
  import opened PowersOfTwo
  import opened ImplicitProducer
  import opened ImplicitProducerSteps
  import opened ImplicitProducerRuns
  import Words = SlotArithmetic

  // ---------------------------------------------------------------------------
  // Capacities
  // ---------------------------------------------------------------------------

  const BLOCK_BITS: nat := 5

  lemma BlockSizeIsPow2(k: nat)
    requires k == BLOCK_BITS
    ensures BLOCK_SIZE == IMPLICIT_INITIAL_INDEX_SIZE == Pow2(k)
  {
    assert Pow2(k) == 2 * Pow2(k - 1) == 4 * Pow2(k - 2) == 8 * Pow2(k - 3) == 16 * Pow2(k - 4) == 32 * Pow2(k - 5);
  }

  /** Each header has twice the capacity of the one before, the first 32. */
  predicate Doubled(ix: Index) {
    forall h {:trigger ix.headers[h]} :: 0 <= h < |ix.headers| ==> ix.headers[h].capacity == Pow2(BLOCK_BITS + h)
  }

  /** The headers stay, but for their tails, or one of twice the capacity is added. */
  predicate Extends(ix: Index, ix': Index) {
    && 0 < |ix.headers| <= |ix'.headers| <= |ix.headers| + 1
    && (forall h {:trigger ix'.headers[h]} :: 0 <= h < |ix.headers| ==>
          ix'.headers[h].capacity == ix.headers[h].capacity)
    && (|ix.headers| < |ix'.headers| ==> Current(ix').capacity == 2 * Current(ix).capacity)
  }

  lemma ExtendsDoubled(ix: Index, ix': Index)
    requires Doubled(ix) && Extends(ix, ix')
    ensures Doubled(ix')
  {
  }

  lemma PlacingExtends(s: State, c: Choice)
    requires Shaped(s) && Placing(s.producer) && KeyReady(s)
    ensures Extends(s.ix, DoPlacing(s, c).ix)
  {
  }

  lemma AcquiringExtends(s: State, c: Choice)
    requires Shaped(s) && Acquiring(s.producer)
    ensures Extends(s.ix, DoAcquiring(s, c).ix)
  {
  }

  lemma FailingExtends(s: State)
    requires Shaped(s) && Failing(s.producer)
    ensures Extends(s.ix, DoFailing(s).ix)
  {
  }

  lemma StepExtends(s: State, a: Action)
    requires Shaped(s) && Enabled(s, a) && Ready(s, a)
    ensures Extends(s.ix, Do(s, a).ix)
  {
    if a.ProducerStep? {
      if Placing(s.producer) { PlacingExtends(s, a.choice); }
      else if Acquiring(s.producer) { AcquiringExtends(s, a.choice); }
      else if Failing(s.producer) { FailingExtends(s); }
    } else if !a.CallEnqueue? { ProducerUndisturbed(s, a); }
  }

  /** The capacity of the h-th header is 32 doubled h times, in every state of every run. */
  lemma {:induction false} CapacitiesDouble(r: Run)
    requires IsRun(r)
    ensures Doubled(r.last.ix)
  {
    match r
    case Start(s) => BlockSizeIsPow2(BLOCK_BITS);
    case Then(p, a, s) =>
      CapacitiesDouble(p);
      StepExtends(p.last, a);
      ExtendsDoubled(p.last.ix, s.ix);
  }

  // ---------------------------------------------------------------------------
  // Masks
  // ---------------------------------------------------------------------------

  lemma FitsWord(c: nat, bits: nat)
    requires Pow2(c) <= WORD64 && bits == 64
    ensures c <= bits
  {
    Word64IsPow2(bits);
    if c > bits { Words.Pow2Less(bits, c); }
  }

  predicate NextAgrees(slot: nat, capacity: nat)
    requires capacity > 0
  {
    BitAnd(Words.Wrap(slot + 1), capacity - 1) == (slot + 1) % capacity
  }

  /** One slot on, one slot back and the tail of a doubled header, as the code masks them (2810, 2836, 2774, 2899). */
  predicate MasksAgree(h: Header, entries: nat)
    requires h.capacity > 0 && h.tail < h.capacity && |h.index| == h.capacity
  {
    && BitAnd(Words.Wrap(h.tail + 1), h.capacity - 1) == NewTail(h)
    && BitAnd(Words.Wrap(h.tail - 1), h.capacity - 1) == Rewound(h).tail
    && (forall slot: nat {:trigger NextAgrees(slot, h.capacity)} :: slot < h.capacity ==> NextAgrees(slot, h.capacity))
    && BitAnd(h.capacity - 1, 2 * h.capacity - 1) == Grown(h, entries).tail
  }

  /** Masking a wrapped sum reduces the sum. */
  lemma MaskOfWrap(x: int, capacity: nat, c: nat, bits: nat)
    requires capacity == Pow2(c) <= WORD64 && bits == 64
    ensures BitAnd(Words.Wrap(x), capacity - 1) == x % capacity
  {
    FitsWord(c, bits);
    Words.WordSplits(c, bits);
    MaskIsModulo(Words.Wrap(x), c);
    Words.ModOfMod(x, capacity, Pow2(bits - c));
  }

  lemma GrownMask(capacity: nat, c: nat)
    requires capacity == Pow2(c)
    ensures BitAnd(capacity - 1, 2 * capacity - 1) == capacity - 1
  {
    assert Pow2(c + 1) == 2 * capacity;
    MaskIsModulo(capacity - 1, c + 1);
    SmallModulo(capacity - 1, 2 * capacity);
  }

  lemma SmallModulo(x: nat, d: nat)
    requires x < d
    ensures x % d == x
  {
  }

  lemma HeaderMasks(h: Header, entries: nat, c: nat, bits: nat)
    requires h.capacity == Pow2(c) <= WORD64 && h.tail < h.capacity && |h.index| == h.capacity && bits == 64
    ensures MasksAgree(h, entries)
  {
    MaskOfWrap(h.tail + 1, h.capacity, c, bits);
    MaskOfWrap(h.tail - 1, h.capacity, c, bits);
    GrownMask(h.capacity, c);
    forall slot: nat | slot < h.capacity ensures NextAgrees(slot, h.capacity) {
      MaskOfWrap(slot + 1, h.capacity, c, bits);
    }
  }

  /** In every run the masked steps of every header whose capacity is a word's are the model's. */
  lemma MasksAreRight(r: Run, h: nat)
    requires IsRun(r) && h < |r.last.ix.headers| && r.last.ix.headers[h].capacity <= WORD64
    ensures HeaderShaped(r.last.ix.headers[h], |r.last.ix.entries|)
            && MasksAgree(r.last.ix.headers[h], |r.last.ix.entries|)
  {
    RunInvariant(r);
    CapacitiesDouble(r);
    HeaderMasks(r.last.ix.headers[h], |r.last.ix.entries|, BLOCK_BITS + h, 64);
  }

  // ---------------------------------------------------------------------------
  // Lookups
  // ---------------------------------------------------------------------------

  /** get_block_index_index_for_index on words: the element index is rounded down to its block's first. */
  function WordLookup(h: Header, tail: nat, tailKey: nat, index: nat): nat
    requires h.capacity > 0
  {
    Words.Slot(Words.Base(Words.Wrap(index), BLOCK_SIZE), Words.Wrap(tailKey), tail, BLOCK_SIZE, h.capacity)
  }

  lemma SlotOfIndex(index: nat, m: nat, tail: nat, bs: nat, capacity: nat, k: nat, c: nat, bits: nat)
    requires bs == Pow2(k) && capacity == Pow2(c) && c + k <= bits == 64
    ensures Words.Slot(Words.Base(Words.Wrap(index), bs), Words.Wrap(m * bs), tail, bs, capacity)
         == (tail + index / bs - m) % capacity
  {
    Words.WordSplits(k, bits);
    Words.BaseOfWrap(index, bs, Pow2(bits - k));
    Words.SlotIsRight(k, c, index / bs, m, tail);
  }

  lemma BitsFit(c: nat, k: nat, bits: nat)
    requires Pow2(c) * Pow2(k) <= WORD64 && bits == 64
    ensures c + k <= bits
  {
    Pow2Add(c, k);
    FitsWord(c + k, bits);
  }

  lemma LookupIs(h: Header, tail: nat, m: nat, n: int)
    requires h.capacity > 0
    ensures Lookup(h, tail, m * BLOCK_SIZE, n) == (tail + n - m) % h.capacity
  {
    assert m * BLOCK_SIZE / BLOCK_SIZE == m;
    assert tail + (n - m * BLOCK_SIZE / BLOCK_SIZE) == tail + n - m;
  }

  /** In words, from a tail slot with key m * BLOCK_SIZE, an index has the slot that its block number has. */
  lemma WordLookupAgrees(h: Header, c: nat, tail: nat, m: nat, index: nat, k: nat, bits: nat)
    requires h.capacity == Pow2(c) && h.capacity * BLOCK_SIZE <= WORD64 && k == BLOCK_BITS && bits == 64
    ensures WordLookup(h, tail, m * BLOCK_SIZE, index) == Lookup(h, tail, m * BLOCK_SIZE, index / BLOCK_SIZE)
  {
    BlockSizeIsPow2(k);
    BitsFit(c, k, bits);
    SlotOfIndex(index, m, tail, BLOCK_SIZE, h.capacity, k, c, bits);
    LookupIs(h, tail, m, index / BLOCK_SIZE);
  }

  /**
   So it is for every lookup of every run, the consumers' and the producer's, in a header that covers no
   more indices than there are words. SlotArithmetic.SlotsRightIff shows that it is not in a larger one.
   */
  lemma LookupsAgree(r: Run, h: nat, tail: nat, m: nat, index: nat)
    requires IsRun(r) && h < |r.last.ix.headers| && r.last.ix.headers[h].capacity * BLOCK_SIZE <= WORD64
    ensures var header := r.last.ix.headers[h];
            && header.capacity > 0
            && WordLookup(header, tail, m * BLOCK_SIZE, index)
               == Lookup(header, tail, m * BLOCK_SIZE, index / BLOCK_SIZE)
  {
    CapacitiesDouble(r);
    WordLookupAgrees(r.last.ix.headers[h], BLOCK_BITS + h, tail, m, index, BLOCK_BITS, 64);
  }

  /** Looking an index up in words finds its block's entry. */
  predicate WordsFindBlock(ix: Index, h: nat, tail: nat, index: nat) {
    && IndexShaped(ix) && h < |ix.headers| && tail < ix.headers[h].capacity
    && var header := ix.headers[h];
    && var slot := WordLookup(header, tail, ix.entries[header.index[tail]].key, index);
    && slot < header.capacity
    && var e := ix.entries[header.index[slot]];
    && e.key == index / BLOCK_SIZE * BLOCK_SIZE && e.value != Null
  }

  lemma WordsFind(r: Run, h: nat, tail: nat, m: nat, index: nat)
    requires IsRun(r) && FindsBlock(r.last.ix, h, tail, index / BLOCK_SIZE)
    requires r.last.ix.headers[h].capacity * BLOCK_SIZE <= WORD64
    requires r.last.ix.entries[r.last.ix.headers[h].index[tail]].key == m * BLOCK_SIZE
    ensures WordsFindBlock(r.last.ix, h, tail, index)
  {
    LookupsAgree(r, h, tail, m, index);
  }

  /**
   A consumer's lookup as the code computes it, in words, finds the block of its claim in every run, as
   long as the header it loaded covers no more indices than there are words.
   */
  lemma WordLookupIsRight(r: Run, t: Thread, start: nat, end: nat, h: nat, tail: nat, mt: int)
    requires IsRun(r) && t in r.last.consumers && r.last.consumers[t] == LoadKey(start, end, h, tail, mt)
    requires h < |r.last.ix.headers| && r.last.ix.headers[h].capacity * BLOCK_SIZE <= WORD64
    ensures WordsFindBlock(r.last.ix, h, tail, start)
  {
    RunInvariant(r);
    RememberedTail(r.last, t, start, end, h, tail, mt);
    LookupIsRight(r, t, start, end, h, tail, mt);
    WordsFind(r, h, tail, mt, start);
  }
}
