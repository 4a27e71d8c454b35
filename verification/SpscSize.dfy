/**
 size_approx of the SPSC queue (readerwriterqueue.h, 394-407): one of the two threads walks round the
 ring and adds up the blocks' lengths, one load a step, while the other thread goes on working.

 Auxiliary: `deq` in the walker, the unbounded form of the index it loaded.
 */
module SpscSize {
  import opened Modular
  import opened SpscQueue

  /** Where the walk is: `front` is the block it began with, `block` the one it looks at. */
  datatype Walker =
    | AtFront(front: Id, block: Id, result: nat)                              // 401
    | AtTail(front: Id, block: Id, result: nat, blockFront: nat, deq: nat)    // 402-403
    | AtNext(front: Id, block: Id, result: nat)                               // 404-405
    | Finished(result: nat)

  /** A walk, with what the other thread does meanwhile. */
  datatype Walk =
    | Began(now: State, at: Walker)
    | Acted(prev: Walk, action: Action, now: State, at: Walker)
    | Walked(prev: Walk, now: State, at: Walker)

  predicate CanWalk(s: State, w: Walker) { !w.Finished? && w.block < |s.blocks| }

  /** What the load of the tail adds. */
  function Adds(b: Block, blockFront: nat): nat
    requires b.size > 0
  {
    (Tail(b) - blockFront) % b.size
  }

  function WalkStep(s: State, w: Walker): Walker
    requires Shaped(s) && CanWalk(s, w)
  {
    var b := s.blocks[w.block];
    match w
    case AtFront(front, block, result) => AtTail(front, block, result, Front(b), b.deq)
    case AtTail(front, block, result, blockFront, _) => AtNext(front, block, result + Adds(b, blockFront))
    case AtNext(front, block, result) => if b.next == front then Finished(result) else AtFront(front, b.next, result)
  }

  predicate ByProducer(a: Action) { a.CallEnqueue? || a.ProducerStep? }

  /** The walk starts in s0; only the thread that does not walk acts. */
  ghost predicate IsWalk(w: Walk, s0: State, consumerWalks: bool) {
    match w
    case Began(s, at) => s == s0 && at == AtFront(s0.frontBlock, s0.frontBlock, 0)
    case Acted(p, a, s, at) =>
      && IsWalk(p, s0, consumerWalks) && Shaped(p.now) && Enabled(p.now, a) && s == Do(p.now, a) && at == p.at
      && (ByProducer(a) <==> consumerWalks)
    case Walked(p, s, at) =>
      IsWalk(p, s0, consumerWalks) && Shaped(p.now) && CanWalk(p.now, p.at) && s == p.now && at == WalkStep(p.now, p.at)
  }

  function Held(s: State, ids: seq<Id>): nat { |Cat(s.blocks, ids)| }

  function Amount(s: State, id: Id): nat { |Part(s.blocks, id)| }

  lemma HeldConcat(s: State, a: seq<Id>, b: seq<Id>)
    ensures Held(s, a + b) == Held(s, a) + Held(s, b)
  {
    CatConcat(s.blocks, a, b);
  }

  lemma HeldOne(s: State, id: Id)
    ensures Held(s, [id]) == Amount(s, id)
  {
    CatStep(s.blocks, id, []);
    assert [id] + [] == [id];
  }

  lemma HeldSnoc(s: State, ids: seq<Id>, i: nat)
    requires i < |ids|
    ensures Held(s, ids[..i + 1]) == Held(s, ids[..i]) + Amount(s, ids[i])
    ensures Held(s, ids[i..]) == Amount(s, ids[i]) + Held(s, ids[i + 1..])
  {
    assert ids[..i + 1] == ids[..i] + [ids[i]] && ids[i..] == [ids[i]] + ids[i + 1..];
    HeldConcat(s, ids[..i], [ids[i]]);
    HeldConcat(s, [ids[i]], ids[i + 1..]);
    HeldOne(s, ids[i]);
  }

  lemma {:induction false} HeldMono(s: State, s': State, ids: seq<Id>)
    requires forall id {:trigger Amount(s, id)} :: id in ids ==> Amount(s, id) <= Amount(s', id)
    ensures Held(s, ids) <= Held(s', ids)
    decreases |ids|
  {
    if ids != [] {
      var id, rest := ids[0], ids[1..];
      assert ids == [id] + rest;
      HeldMono(s, s', rest);
      HeldConcat(s, [id], rest);
      HeldConcat(s', [id], rest);
      HeldOne(s, id);
      HeldOne(s', id);
      assert id in ids;
    }
  }

  /** The whole ring holds the queue, and an element that is published but not handed over yet. */
  lemma RingHolds(s: State)
    requires Inv(s)
    ensures Held(s, s.ring) == |Queue(s)| + if s.producer.SetTailBlock? then 1 else 0
  {
    assert s.ring == s.ring[..|s.ring|];
    if s.producer.SetTailBlock? { Beyond(s, |s.ring|); } else { WholeRing(s, |s.ring|); }
  }

  lemma {:induction false} Beyond(s: State, i: nat)
    requires Inv(s) && s.producer.SetTailBlock? && s.k + 2 <= i <= |s.ring|
    ensures Held(s, s.ring[..i]) == |Queue(s)| + 1
  {
    assert PositionOk(s, i - 1);
    HeldSnoc(s, s.ring, i - 1);
    if i > s.k + 2 { Beyond(s, i - 1); }
  }

  /** The difference of the indices, reduced, is what is in the block when the tail is loaded. */
  lemma CountIs(b: Block, smallest: nat, deq: nat)
    requires BlockOk(b, smallest) && b.seenDeq <= deq <= |b.log|
    ensures (Tail(b) - deq % b.size) % b.size == |b.log| - deq
  {
    var d, q := |b.log| - deq, deq / b.size - |b.log| / b.size;
    assert Tail(b) - deq % b.size == q * b.size + d;
    ModuloUnique(Tail(b) - deq % b.size, b.size, q, d);
  }

  // ---------------------------------------------------------------------------
  // The consumer walks, the producer works
  // ---------------------------------------------------------------------------

  /** No element goes; a block may come, after the tail block. */
  predicate Grows(s: State, s': State) {
    && s'.frontBlock == s.frontBlock && |s.blocks| <= |s'.blocks|
    && (forall id {:trigger s'.blocks[id]} :: 0 <= id < |s.blocks| ==>
          s'.blocks[id].deq == s.blocks[id].deq && |s.blocks[id].log| <= |s'.blocks[id].log|
            && s'.blocks[id].size == s.blocks[id].size)
    && (s'.ring == s.ring ||
        (s.k + 1 <= |s.ring| && s'.ring == s.ring[..s.k + 1] + [|s.blocks|] + s.ring[s.k + 1..]))
  }

  lemma ProducerGrows(s: State, a: Action)
    requires Shaped(s) && Enabled(s, a) && ByProducer(a)
    ensures Grows(s, Do(s, a)) && Do(s, a).consumer == s.consumer
  {
  }

  /** How many blocks of the ring have been counted when the walker is at position i. */
  function Counted(at: Walker, i: nat): nat { if at.AtNext? then i + 1 else i }

  /**
   The walker is at position i of the ring; it has at least what was there at the start, and at most
   what is there now.
   */
  ghost predicate Upwards(s0: State, s: State, at: Walker, i: nat) {
    && Inv(s) && Inv(s0) && |s0.blocks| <= |s.blocks|
    && (forall id {:trigger Amount(s0, id)} :: Amount(s0, id) <= Amount(s, id))
    && Held(s0, s.ring) == Held(s0, s0.ring)
    && if at.Finished? then Held(s0, s0.ring) <= at.result <= Held(s, s.ring)
       else
         && i < |s.ring| && at.front == s.ring[0] && at.block == s.ring[i]
         && at.result <= Held(s, s.ring[..Counted(at, i)])
         && at.result + Held(s0, s.ring[Counted(at, i)..]) >= Held(s0, s0.ring)
         && (at.AtTail? ==> at.deq == s.blocks[at.block].deq && at.blockFront == Front(s.blocks[at.block]))
  }

  lemma AmountGrows(s: State, s': State, id: Id)
    requires Shaped(s) && Shaped(s') && Grows(s, s')
    ensures Amount(s, id) <= Amount(s', id)
  {
    if id < |s.blocks| { var b := s'.blocks[id]; }
  }

  /** Where position i of the ring is after a block came in behind the tail block. */
  function Shifted(s: State, s': State, i: nat): nat { if s'.ring == s.ring || i <= s.k then i else i + 1 }

  lemma HeldThree(s: State, a: seq<Id>, n: seq<Id>, c: seq<Id>)
    ensures Held(s, a + n + c) == Held(s, a) + Held(s, n) + Held(s, c)
    ensures Held(s, a + c) == Held(s, a) + Held(s, c)
  {
    HeldConcat(s, a + n, c);
    HeldConcat(s, a, n);
    HeldConcat(s, a, c);
  }

  /** The new block holds nothing of s0. */
  lemma NewBlockHolds(s0: State, id: Id)
    requires id >= |s0.blocks|
    ensures Held(s0, [id]) == 0
  {
    HeldOne(s0, id);
  }

  lemma ShiftedParts(s: State, s': State, i: nat)
    requires Grows(s, s') && s'.ring != s.ring && i < |s.ring| && s.k < |s.ring|
    ensures if i <= s.k
            then s'.ring[..i] == s.ring[..i] && s'.ring[i..] == s.ring[i..s.k + 1] + [|s.blocks|] + s.ring[s.k + 1..] &&
                 s.ring[i..] == s.ring[i..s.k + 1] + s.ring[s.k + 1..]
            else
              && s'.ring[i + 1..] == s.ring[i..]
              && s'.ring[..i + 1] == s.ring[..s.k + 1] + [|s.blocks|] + s.ring[s.k + 1..i]
              && s.ring[..i] == s.ring[..s.k + 1] + s.ring[s.k + 1..i]
  {
  }

  lemma ShiftedRing(s0: State, s: State, s': State, i: nat)
    requires Inv(s) && Inv(s') && Grows(s, s') && |s0.blocks| <= |s.blocks| && i < |s.ring|
    ensures var j := Shifted(s, s', i);
            && j < |s'.ring| && s'.ring[j] == s.ring[i] && s'.ring[0] == s.ring[0]
            && Held(s0, s'.ring) == Held(s0, s.ring) && Held(s0, s'.ring[j..]) == Held(s0, s.ring[i..])
            && Held(s', s.ring[..i]) <= Held(s', s'.ring[..j])
  {
    if s'.ring != s.ring {
      var n := [|s.blocks|];
      NewBlockHolds(s0, |s.blocks|);
      ShiftedParts(s, s', i);
      assert s.ring == s.ring[..s.k + 1] + s.ring[s.k + 1..];
      HeldThree(s0, s.ring[..s.k + 1], n, s.ring[s.k + 1..]);
      if i <= s.k { HeldThree(s0, s.ring[i..s.k + 1], n, s.ring[s.k + 1..]); }
      else { HeldThree(s', s.ring[..s.k + 1], n, s.ring[s.k + 1..i]); }
    }
  }

  /** The counted part, one further than the position when the next block is to be loaded. */
  lemma UpwardsCounted(s0: State, s: State, s': State, at: Walker, i: nat)
    requires Upwards(s0, s, at, i) && !at.Finished? && Inv(s') && Grows(s, s')
    ensures var j := Shifted(s, s', i);
            && j < |s'.ring| && s'.ring[j] == s.ring[i] && s'.ring[0] == s.ring[0]
            && at.result <= Held(s', s'.ring[..Counted(at, j)])
            && at.result + Held(s0, s'.ring[Counted(at, j)..]) >= Held(s0, s0.ring)
  {
    ShiftedRing(s0, s, s', i);
    forall id ensures Amount(s, id) <= Amount(s', id) { AmountGrows(s, s', id); }
    HeldMono(s, s', s.ring[..Counted(at, i)]);
    if at.AtNext? { ShiftedSnoc(s0, s, s', i); }
  }

  /** The same one position further. */
  lemma ShiftedSnoc(s0: State, s: State, s': State, i: nat)
    requires Inv(s) && Inv(s') && Grows(s, s') && |s0.blocks| <= |s.blocks| && i < |s.ring|
    ensures var j := Shifted(s, s', i);
            && j < |s'.ring| && Held(s', s.ring[..i + 1]) <= Held(s', s'.ring[..j + 1])
            && Held(s0, s'.ring[j + 1..]) == Held(s0, s.ring[i + 1..])
  {
    var j := Shifted(s, s', i);
    ShiftedRing(s0, s, s', i);
    HeldSnoc(s', s.ring, i);
    HeldSnoc(s', s'.ring, j);
    HeldSnoc(s0, s.ring, i);
    HeldSnoc(s0, s'.ring, j);
  }

  lemma UpwardsActs(s0: State, s: State, at: Walker, a: Action, i: nat)
    requires Upwards(s0, s, at, i) && Enabled(s, a) && ByProducer(a)
    ensures Upwards(s0, Do(s, a), at, Shifted(s, Do(s, a), i))
  {
    var s' := Do(s, a);
    StepKeeps(s, a);
    ProducerGrows(s, a);
    forall id ensures Amount(s0, id) <= Amount(s', id) {
      AmountGrows(s, s', id);
      assert Amount(s0, id) <= Amount(s, id);
    }
    ShiftedRing(s0, s, s', 0);
    if at.Finished? {
      forall id ensures Amount(s, id) <= Amount(s', id) { AmountGrows(s, s', id); }
      HeldMono(s, s', s.ring);
      RingGrows(s, s');
    } else { UpwardsCounted(s0, s, s', at, i); }
  }

  lemma RingGrows(s: State, s': State)
    requires Inv(s) && Inv(s') && Grows(s, s')
    ensures Held(s', s.ring) <= Held(s', s'.ring)
  {
    if s'.ring != s.ring {
      var a, n, c := s.ring[..s.k + 1], [|s.blocks|], s.ring[s.k + 1..];
      assert s.ring == a + c;
      HeldConcat(s', a + n, c);
      HeldConcat(s', a, n);
      HeldConcat(s', a, c);
    }
  }

  lemma AddsContents(b: Block, smallest: nat, blockFront: nat)
    requires BlockOk(b, smallest) && blockFront == Front(b)
    ensures Adds(b, blockFront) == |Contents(b)|
  {
    CountIs(b, smallest, b.deq);
  }

  lemma UpwardsCounts(s0: State, s: State, at: Walker, i: nat)
    requires Upwards(s0, s, at, i) && at.AtTail? && CanWalk(s, at)
    ensures Upwards(s0, s, WalkStep(s, at), i)
  {
    assert BlockOk(s.blocks[at.block], s.smallestBlock);
    AddsContents(s.blocks[at.block], s.smallestBlock, at.blockFront);
    HeldSnoc(s, s.ring, i);
    HeldSnoc(s0, s.ring, i);
    assert Amount(s0, at.block) <= Amount(s, at.block);
  }

  lemma UpwardsMovesOn(s0: State, s: State, at: Walker, i: nat)
    requires Upwards(s0, s, at, i) && at.AtNext? && CanWalk(s, at)
    ensures var at' := WalkStep(s, at); Upwards(s0, s, at', if at'.AtFront? then i + 1 else i)
  {
    NextInRing(s, i);
    if i + 1 == |s.ring| { assert s.ring[..i + 1] == s.ring && s.ring[i + 1..] == []; }
  }

  lemma UpwardsWalks(s0: State, s: State, at: Walker, i: nat)
    requires Upwards(s0, s, at, i) && CanWalk(s, at)
    ensures var at' := WalkStep(s, at); Upwards(s0, s, at', if at.AtNext? && at'.AtFront? then i + 1 else i)
  {
    if at.AtTail? { UpwardsCounts(s0, s, at, i); } else if at.AtNext? { UpwardsMovesOn(s0, s, at, i); }
  }

  lemma NextInRing(s: State, i: nat)
    requires RingOk(s) && i < |s.ring|
    ensures s.ring[i] < |s.blocks|
    ensures if i + 1 < |s.ring| then s.blocks[s.ring[i]].next == s.ring[i + 1] != s.ring[0]
            else s.blocks[s.ring[i]].next == s.ring[0]
  {
    assert LinkOk(s, i);
  }

  lemma {:induction false} UpwardsAlways(w: Walk, s0: State) returns (i: nat)
    requires IsWalk(w, s0, true) && Inv(s0)
    ensures Upwards(s0, w.now, w.at, i)
  {
    match w
    case Began(s, at) => i := 0;
    case Acted(p, a, s, at) =>
      var j := UpwardsAlways(p, s0);
      UpwardsActs(s0, p.now, p.at, a, j);
      i := Shifted(p.now, s, j);
    case Walked(p, s, at) =>
      var j := UpwardsAlways(p, s0);
      UpwardsWalks(s0, p.now, p.at, j);
      i := if p.at.AtNext? && at.AtFront? then j + 1 else j;
  }

  /**
   Called by the consumer: at least the length the queue had when the walk began, and at most the
   length it has when it ends, an element about to be handed over included.
   */
  lemma ConsumerSeesBetween(r: Run, maxSize: nat, w: Walk)
    requires IsRun(r, maxSize) && IsWalk(w, r.last, true) && w.at.Finished?
    ensures |Queue(r.last)| <= w.at.result <= |Queue(w.now)| + if w.now.producer.SetTailBlock? then 1 else 0
  {
    RunInvariant(r, maxSize);
    var i := UpwardsAlways(w, r.last);
    RingHolds(r.last);
    RingHolds(w.now);
  }

  // ---------------------------------------------------------------------------
  // The producer walks, the consumer works
  // ---------------------------------------------------------------------------

  /** No element comes, and the blocks stay linked as they are; the ring may turn. */
  predicate Shrinks(s: State, s': State) {
    && |s'.blocks| == |s.blocks| && s'.producer == s.producer
    && (forall id {:trigger s'.blocks[id]} :: 0 <= id < |s.blocks| ==>
          && s'.blocks[id].next == s.blocks[id].next && s'.blocks[id].size == s.blocks[id].size
          && s'.blocks[id].log == s.blocks[id].log && s.blocks[id].deq <= s'.blocks[id].deq)
    && (s'.ring == s.ring || (s.ring != [] && s'.ring == s.ring[1..] + [s.ring[0]]))
  }

  lemma ConsumerShrinks(s: State, a: Action)
    requires Shaped(s) && Enabled(s, a) && !ByProducer(a)
    ensures Shrinks(s, Do(s, a))
  {
  }

  /** All through, the blocks are those of the start, with fewer elements; the walker follows the ring of the start. */
  ghost predicate Downwards(s0: State, s: State, at: Walker, i: nat) {
    && Inv(s) && Inv(s0) && |s.blocks| == |s0.blocks| && s.producer == s0.producer
    && (forall id {:trigger s.blocks[id]} :: 0 <= id < |s0.blocks| ==>
          && s.blocks[id].next == s0.blocks[id].next && s.blocks[id].size == s0.blocks[id].size
          && s.blocks[id].log == s0.blocks[id].log && s0.blocks[id].deq <= s.blocks[id].deq)
    && Held(s, s.ring) == Held(s, s0.ring)
    && if at.Finished? then Held(s, s0.ring) <= at.result <= Held(s0, s0.ring)
       else
         && i < |s0.ring| && at.front == s0.ring[0] && at.block == s0.ring[i]
         && Held(s, s0.ring[..Counted(at, i)]) <= at.result <= Held(s0, s0.ring[..Counted(at, i)])
         && (at.AtTail? ==>
               s0.blocks[at.block].deq <= at.deq <= s.blocks[at.block].deq
                 && at.blockFront == at.deq % s.blocks[at.block].size)
  }

  lemma AmountShrinks(s: State, s': State, id: Id)
    requires Inv(s) && Inv(s') && Shrinks(s, s')
    ensures Amount(s', id) <= Amount(s, id)
  {
    if id < |s.blocks| {
      var b := s'.blocks[id];
      assert BlockOk(b, s'.smallestBlock) && BlockOk(s.blocks[id], s.smallestBlock);
    }
  }

  /** Turning the ring does not change what it holds, of any state's blocks. */
  lemma TurnedHolds(x: State, s: State, s': State)
    requires Shrinks(s, s')
    ensures Held(x, s'.ring) == Held(x, s.ring)
  {
    if s'.ring != s.ring {
      var a, c := [s.ring[0]], s.ring[1..];
      assert s.ring == a + c;
      HeldConcat(x, a, c);
      HeldConcat(x, c, a);
    }
  }

  /** The ring of s is that of s0, turned: it holds the same, of any state's blocks. */
  ghost predicate Turned(s0: State, s: State) {
    forall x: State {:trigger Held(x, s.ring)} :: Held(x, s.ring) == Held(x, s0.ring)
  }

  lemma DownwardsActs(s0: State, s: State, at: Walker, a: Action, i: nat)
    requires Downwards(s0, s, at, i) && Turned(s0, s) && Enabled(s, a) && !ByProducer(a)
    ensures Downwards(s0, Do(s, a), at, i) && Turned(s0, Do(s, a))
  {
    var s' := Do(s, a);
    StepKeeps(s, a);
    ConsumerShrinks(s, a);
    forall x: State ensures Held(x, s'.ring) == Held(x, s0.ring) {
      TurnedHolds(x, s, s');
      assert Held(x, s.ring) == Held(x, s0.ring);
    }
    forall id ensures Amount(s', id) <= Amount(s, id) { AmountShrinks(s, s', id); }
    if at.Finished? { HeldMono(s', s, s0.ring); } else { HeldMono(s', s, s0.ring[..Counted(at, i)]); }
    forall id | 0 <= id < |s0.blocks|
      ensures s'.blocks[id].next == s0.blocks[id].next && s'.blocks[id].size == s0.blocks[id].size
      ensures s'.blocks[id].log == s0.blocks[id].log && s0.blocks[id].deq <= s'.blocks[id].deq
              && s.blocks[id].deq <= s'.blocks[id].deq
    {
      assert s.blocks[id].next == s0.blocks[id].next && s'.blocks[id].next == s.blocks[id].next;
    }
  }

  /** A count taken with an index from between is between the amounts. */
  lemma CountBetween(b0: Block, b: Block, smallest: nat, blockFront: nat, deq: nat)
    requires BlockOk(b0, smallest) && BlockOk(b, smallest) && b.size == b0.size && b.log == b0.log
             && b0.deq <= deq <= b.deq
    requires blockFront == deq % b.size
    ensures |Contents(b)| <= Adds(b, blockFront) <= |Contents(b0)|
  {
    assert Tail(b) == Tail(b0);
    CountIs(b0, smallest, deq);
  }

  lemma DownwardsCounts(s0: State, s: State, at: Walker, i: nat)
    requires Downwards(s0, s, at, i) && at.AtTail? && CanWalk(s, at)
    ensures Downwards(s0, s, WalkStep(s, at), i)
  {
    var b, b0 := s.blocks[at.block], s0.blocks[at.block];
    var smallest := if s.smallestBlock < s0.smallestBlock then s.smallestBlock else s0.smallestBlock;
    assert BlockOk(b, s.smallestBlock) && BlockOk(b0, s0.smallestBlock);
    LessOk(b, s.smallestBlock, smallest);
    LessOk(b0, s0.smallestBlock, smallest);
    CountBetween(b0, b, smallest, at.blockFront, at.deq);
    HeldSnoc(s, s0.ring, i);
    HeldSnoc(s0, s0.ring, i);
  }

  lemma LessOk(b: Block, smallest: nat, less: nat)
    requires BlockOk(b, smallest) && less <= smallest
    ensures BlockOk(b, less)
  {
  }

  lemma DownwardsMovesOn(s0: State, s: State, at: Walker, i: nat)
    requires Downwards(s0, s, at, i) && at.AtNext? && CanWalk(s, at)
    ensures var at' := WalkStep(s, at); Downwards(s0, s, at', if at'.AtFront? then i + 1 else i)
  {
    NextInRing(s0, i);
    assert s.blocks[at.block].next == s0.blocks[at.block].next;
    if i + 1 == |s0.ring| { assert s0.ring[..i + 1] == s0.ring; }
  }

  lemma DownwardsWalks(s0: State, s: State, at: Walker, i: nat)
    requires Downwards(s0, s, at, i) && CanWalk(s, at)
    ensures var at' := WalkStep(s, at); Downwards(s0, s, at', if at.AtNext? && at'.AtFront? then i + 1 else i)
  {
    if at.AtTail? { DownwardsCounts(s0, s, at, i); } else if at.AtNext? { DownwardsMovesOn(s0, s, at, i); }
  }

  lemma {:induction false} DownwardsAlways(w: Walk, s0: State) returns (i: nat)
    requires IsWalk(w, s0, false) && Inv(s0)
    ensures Downwards(s0, w.now, w.at, i) && Turned(s0, w.now)
  {
    match w
    case Began(s, at) => i := 0;
    case Acted(p, a, s, at) =>
      i := DownwardsAlways(p, s0);
      DownwardsActs(s0, p.now, p.at, a, i);
    case Walked(p, s, at) =>
      var j := DownwardsAlways(p, s0);
      DownwardsWalks(s0, p.now, p.at, j);
      i := if p.at.AtNext? && at.AtFront? then j + 1 else j;
  }

  /**
   Called by the producer, outside its own operations: at most the length the queue had when the
   walk began, and at least the length it has when it ends.
   */
  lemma ProducerSeesBetween(r: Run, maxSize: nat, w: Walk)
    requires IsRun(r, maxSize) && r.last.producer.ProducerIdle? && IsWalk(w, r.last, false) && w.at.Finished?
    ensures |Queue(w.now)| <= w.at.result <= |Queue(r.last)|
  {
    RunInvariant(r, maxSize);
    var i := DownwardsAlways(w, r.last);
    RingHolds(r.last);
    RingHolds(w.now);
  }

  /** With nobody else at work, and no hand-over pending, the walk counts the queue exactly. */
  lemma StillIsExact(r: Run, maxSize: nat, w: Walk)
    requires IsRun(r, maxSize) && IsWalk(w, r.last, true) && w.at.Finished? && w.now == r.last
             && !r.last.producer.SetTailBlock?
    ensures w.at.result == |Queue(r.last)|
  {
    ConsumerSeesBetween(r, maxSize, w);
  }
}
