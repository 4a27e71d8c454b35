/** Whole runs of ImplicitProducer, as its consumers see them: every element is delivered once, in order. */
module ImplicitProducerDelivery {
  import opened BlockPool
  import opened ImplicitProducer
  import opened ImplicitProducerSteps
  import opened ImplicitProducerRuns

  // ---------------------------------------------------------------------------
  // Every element is delivered once
  // ---------------------------------------------------------------------------

  /** Index i is claimed by p and not read yet. */
  predicate Unread(p: ConsumerPc, i: nat) { Claims(p, i) && (p.Reading? ==> p.i <= i) }

  ghost predicate Outstanding(consumers: map<Thread, ConsumerPc>, i: nat) {
    exists t {:trigger consumers[t]} :: t in consumers && Unread(consumers[t], i)
  }

  predicate IsDelivered(delivered: seq<Delivery>, i: nat) {
    exists k {:trigger delivered[k]} :: 0 <= k < |delivered| && delivered[k].index == i
  }

  predicate DeliveryOk(d: Delivery, items: seq<Value>, head: nat, consumers: map<Thread, ConsumerPc>) {
    && d.index < head && d.index < |items| && d.value == items[d.index]
    && (d.to in consumers ==> forall i {:trigger Unread(consumers[d.to], i)} :: Unread(consumers[d.to], i) ==>
          d.index < i)
  }

  /** The record so far: right values, no index twice, each consumer's indices increasing. */
  predicate RecordOk(delivered: seq<Delivery>) {
    forall j, k {:trigger delivered[j], delivered[k]} :: 0 <= j < k < |delivered| ==>
      delivered[j].index != delivered[k].index
        && (delivered[j].to == delivered[k].to ==> delivered[j].index < delivered[k].index)
  }

  ghost predicate Delivering(s: State) {
    && (forall k {:trigger s.delivered[k]} :: 0 <= k < |s.delivered| ==>
          DeliveryOk(s.delivered[k], s.items, s.headIndex, s.consumers))
    && RecordOk(s.delivered)
    && (forall i {:trigger Outstanding(s.consumers, i)} :: 0 <= i < s.headIndex ==>
          (IsDelivered(s.delivered, i) <==> !Outstanding(s.consumers, i)))
  }

  lemma OutstandingMoves(consumers: map<Thread, ConsumerPc>, t: Thread, p: ConsumerPc, i: nat)
    requires t in consumers && (Unread(p, i) <==> Unread(consumers[t], i))
    ensures Outstanding(consumers[t := p], i) <==> Outstanding(consumers, i)
  {
    var c := consumers[t := p];
    if Outstanding(consumers, i) {
      var u :| u in consumers && Unread(consumers[u], i);
      assert Unread(c[u], i);
    }
    if Outstanding(c, i) {
      var u :| u in c && Unread(c[u], i);
      assert Unread(consumers[u], i);
    }
  }

  /** Steps that neither read nor claim: every consumer has the same indices left to read. */
  lemma SameUnread(s: State, s': State)
    requires Delivering(s) && s'.delivered == s.delivered && s.items <= s'.items && s'.headIndex == s.headIndex
    requires s'.consumers.Keys == s.consumers.Keys
    requires forall t, i {:trigger Unread(s'.consumers[t], i)} :: t in s.consumers ==>
             (Unread(s'.consumers[t], i) <==> Unread(s.consumers[t], i))
    ensures Delivering(s')
  {
    forall k | 0 <= k < |s.delivered| ensures DeliveryOk(s'.delivered[k], s'.items, s'.headIndex, s'.consumers) {
      assert DeliveryOk(s.delivered[k], s.items, s.headIndex, s.consumers);
    }
    forall i | 0 <= i < s'.headIndex ensures Outstanding(s'.consumers, i) <==> Outstanding(s.consumers, i) {
      if Outstanding(s.consumers, i) {
        var u :| u in s.consumers && Unread(s.consumers[u], i);
        assert Unread(s'.consumers[u], i);
      }
      if Outstanding(s'.consumers, i) {
        var u :| u in s'.consumers && Unread(s'.consumers[u], i);
        assert Unread(s.consumers[u], i);
      }
    }
  }

  /** A mark comes when the whole part has been read; the other steps leave the part alone. */
  lemma UnreadStays(s: State, t: Thread, i: nat)
    requires Inv(s) && Enabled(s, ConsumerStep(t)) && !IsRead(s, t)
    ensures t in DoConsumer(s, t).consumers && (Unread(DoConsumer(s, t).consumers[t], i) <==> Unread(s.consumers[t], i))
  {
    if s.consumers[t].Reading? { MarkedStays(s, t, i); } else { OtherStays(s, t, i); }
  }

  lemma MarkedStays(s: State, t: Thread, i: nat)
    requires Inv(s) && Enabled(s, ConsumerStep(t)) && !IsRead(s, t) && s.consumers[t].Reading?
    ensures t in DoConsumer(s, t).consumers && (Unread(DoConsumer(s, t).consumers[t], i) <==> Unread(s.consumers[t], i))
  {
    assert ConsumerFine(s, t) && ConsumerShaped(s.ix, s.mem, s.consumers[t]);
    var p := s.consumers[t];
    StopInBlock(p.start, p.end);
    MarkLeaves(s, t, p.start, p.end, p.h, p.slot, p.ptr.block, p.i, i);
  }

  lemma OtherStays(s: State, t: Thread, i: nat)
    requires Inv(s) && Enabled(s, ConsumerStep(t)) && !s.consumers[t].Reading?
    ensures t in DoConsumer(s, t).consumers && (Unread(DoConsumer(s, t).consumers[t], i) <==> Unread(s.consumers[t], i))
  {
    assert ConsumerFine(s, t) && ConsumerShaped(s.ix, s.mem, s.consumers[t]);
  }

  lemma MarkLeaves(s: State, t: Thread, start: nat, end: nat, h: nat, slot: nat, b: Block, k: nat, i: nat)
    requires Shaped(s) && t in s.consumers && s.consumers[t] == Reading(start, end, h, slot, At(b), k)
             && k == Stop(start, end) <= end
    requires h < |s.ix.headers| && b in s.count
    ensures Unread(DoMark(s, t, start, end, h, slot, b).consumers[t], i) <==> Unread(s.consumers[t], i)
  {
  }

  predicate IsRead(s: State, t: Thread) {
    t in s.consumers && s.consumers[t].Reading? && s.consumers[t].i < Stop(s.consumers[t].start, s.consumers[t].end)
  }

  lemma ConsumerFrame(s: State, t: Thread)
    requires Shaped(s) && Enabled(s, ConsumerStep(t)) && !IsRead(s, t)
    ensures var s' := DoConsumer(s, t);
            && s'.delivered == s.delivered && s'.items == s.items && s'.headIndex == s.headIndex
            && t in s'.consumers && s'.consumers == s.consumers[t := s'.consumers[t]]
  {
    assert ConsumerShaped(s.ix, s.mem, s.consumers[t]);
  }

  lemma QuietDelivers(s: State, t: Thread)
    requires Inv(s) && Delivering(s) && Enabled(s, ConsumerStep(t)) && !IsRead(s, t)
    ensures Delivering(DoConsumer(s, t))
  {
    var s' := DoConsumer(s, t);
    ConsumerFrame(s, t);
    forall u, i | u in s.consumers ensures Unread(s'.consumers[u], i) <==> Unread(s.consumers[u], i) {
      if u == t { UnreadStays(s, t, i); }
    }
    SameUnread(s, s');
  }

  /** What a read takes is the first index its consumer has left, and nobody else has it. */
  lemma ReadIsFirst(s: State, t: Thread, start: nat, end: nat, h: nat, slot: nat, b: Block, i: nat)
    requires Inv(s) && t in s.consumers && s.consumers[t] == Reading(start, end, h, slot, At(b), i)
             && i < Stop(start, end)
    ensures b in s.mem && |s.mem[b]| == BLOCK_SIZE && i < s.headIndex && i < |s.items|
            && s.mem[b][i % BLOCK_SIZE] == s.items[i]
    ensures Unread(s.consumers[t], i) && forall u {:trigger s.consumers[u]} :: u in s.consumers && u != t ==>
            !Unread(s.consumers[u], i)
    ensures forall j {:trigger Unread(Reading(start, end, h, slot, At(b), i + 1), j)} ::
              Unread(Reading(start, end, h, slot, At(b), i + 1), j) <==> Unread(s.consumers[t], j) && j != i
  {
    ElementAt(s, t, start, end, h, slot, At(b), i);
    assert ConsumerFine(s, t);
    StopInBlock(start, end);
    forall u | u in s.consumers && u != t ensures !Unread(s.consumers[u], i) {
      assert Apart(s.consumers[t], s.consumers[u]);
    }
  }

  lemma ReadRecord(s: State, t: Thread, start: nat, end: nat, h: nat, slot: nat, b: Block, i: nat)
    requires Inv(s) && Delivering(s) && t in s.consumers && s.consumers[t] == Reading(start, end, h, slot, At(b), i)
             && i < Stop(start, end)
    ensures b in s.mem && RecordOk(DoRead(s, t, start, end, h, slot, b, i).delivered)
  {
    ReadIsFirst(s, t, start, end, h, slot, b, i);
    var d := s.delivered;
    assert Outstanding(s.consumers, i) && !IsDelivered(d, i);
    forall k | 0 <= k < |d| ensures d[k].index != i && (d[k].to == t ==> d[k].index < i) {
      assert DeliveryOk(d[k], s.items, s.headIndex, s.consumers);
    }
  }

  lemma ReadDeliveries(s: State, t: Thread, start: nat, end: nat, h: nat, slot: nat, b: Block, i: nat, k: nat)
    requires Inv(s) && Delivering(s) && t in s.consumers && s.consumers[t] == Reading(start, end, h, slot, At(b), i)
             && i < Stop(start, end)
    requires b in s.mem && k < |DoRead(s, t, start, end, h, slot, b, i).delivered|
    ensures var s' := DoRead(s, t, start, end, h, slot, b, i); DeliveryOk(s'.delivered[k], s'.items, s'.headIndex,
            s'.consumers)
  {
    ReadIsFirst(s, t, start, end, h, slot, b, i);
    var s' := DoRead(s, t, start, end, h, slot, b, i);
    if k < |s.delivered| { assert DeliveryOk(s.delivered[k], s.items, s.headIndex, s.consumers); }
    var d := s'.delivered[k];
    if d.to in s.consumers {
      forall j | Unread(s'.consumers[d.to], j) ensures d.index < j {
        if d.to == t { assert Unread(s.consumers[t], j) && j != i; } else { assert Unread(s.consumers[d.to], j); }
      }
    }
  }

  lemma ReadOutstanding(s: State, t: Thread, start: nat, end: nat, h: nat, slot: nat, b: Block, i: nat, j: nat)
    requires Inv(s) && Delivering(s) && t in s.consumers && s.consumers[t] == Reading(start, end, h, slot, At(b), i)
             && i < Stop(start, end)
    requires b in s.mem && j < s.headIndex
    ensures var s' := DoRead(s, t, start, end, h, slot, b, i);
            IsDelivered(s'.delivered, j) <==> !Outstanding(s'.consumers, j)
  {
    ReadIsFirst(s, t, start, end, h, slot, b, i);
    var s', p := DoRead(s, t, start, end, h, slot, b, i), Reading(start, end, h, slot, At(b), i + 1);
    var n := |s.delivered|;
    assert s'.delivered[n].index == i;
    if j == i {
      forall u | u in s'.consumers ensures !Unread(s'.consumers[u], i) {
        if u == t { assert !Unread(p, i); } else { assert !Unread(s.consumers[u], i); }
      }
    } else {
      assert Unread(p, j) <==> Unread(s.consumers[t], j);
      OutstandingMoves(s.consumers, t, p, j);
      assert IsDelivered(s'.delivered, j) <==> IsDelivered(s.delivered, j) by {
        if IsDelivered(s.delivered, j) {
          var k :| 0 <= k < n && s.delivered[k].index == j;
          assert s'.delivered[k].index == j;
        }
        if IsDelivered(s'.delivered, j) {
          var k :| 0 <= k <= n && s'.delivered[k].index == j;
          assert k < n && s.delivered[k].index == j;
        }
      }
    }
  }

  lemma ReadDelivers(s: State, t: Thread, start: nat, end: nat, h: nat, slot: nat, b: Block, i: nat)
    requires Inv(s) && Delivering(s) && t in s.consumers && s.consumers[t] == Reading(start, end, h, slot, At(b), i)
             && i < Stop(start, end)
    ensures b in s.mem && Delivering(DoRead(s, t, start, end, h, slot, b, i))
  {
    ReadRecord(s, t, start, end, h, slot, b, i);
    var s' := DoRead(s, t, start, end, h, slot, b, i);
    forall k | 0 <= k < |s'.delivered| ensures DeliveryOk(s'.delivered[k], s'.items, s'.headIndex, s'.consumers) {
      ReadDeliveries(s, t, start, end, h, slot, b, i, k);
    }
    forall j | 0 <= j < s'.headIndex ensures IsDelivered(s'.delivered, j) <==> !Outstanding(s'.consumers, j) {
      ReadOutstanding(s, t, start, end, h, slot, b, i, j);
    }
  }

  lemma ClaimDelivers(s: State, t: Thread, n: nat)
    requires Inv(s) && Delivering(s) && Enabled(s, Claim(t, n))
    ensures Delivering(Do(s, Claim(t, n)))
  {
    var s' := Do(s, Claim(t, n));
    forall k | 0 <= k < |s.delivered| ensures DeliveryOk(s'.delivered[k], s'.items, s'.headIndex, s'.consumers) {
      assert DeliveryOk(s.delivered[k], s.items, s.headIndex, s.consumers);
    }
    forall i: nat | i < s'.headIndex ensures IsDelivered(s'.delivered, i) <==> !Outstanding(s'.consumers, i) {
      if i < s.headIndex { OutstandingMoves(s.consumers, t, s'.consumers[t], i); }
      else {
        assert Unread(s'.consumers[t], i);
        forall k | 0 <= k < |s.delivered| ensures s.delivered[k].index != i {
          assert DeliveryOk(s.delivered[k], s.items, s.headIndex, s.consumers);
        }
      }
    }
  }

  lemma StepDelivers(s: State, a: Action)
    requires Inv(s) && Delivering(s) && Enabled(s, a) && Ready(s, a)
    ensures Delivering(Do(s, a))
  {
    match a
    case Claim(t, n) => ClaimDelivers(s, t, n);
    case ConsumerStep(t) =>
      assert ConsumerShaped(s.ix, s.mem, s.consumers[t]);
      if IsRead(s, t) {
        var p := s.consumers[t];
        ReadDelivers(s, t, p.start, p.end, p.h, p.slot, p.ptr.block, p.i);
      } else { QuietDelivers(s, t); }
    case _ =>
      OtherFrame(s, a);
      SameUnread(s, Do(s, a));
  }

  /**
   Over every run: an index is delivered at most once, with the element enqueued at it, and to each
   consumer in order.
   */
  lemma {:induction false} DeliveredOnce(r: Run)
    requires IsRun(r)
    ensures Delivering(r.last)
  {
    match r
    case Start(s) =>
    case Then(p, a, s) =>
      DeliveredOnce(p);
      RunInvariant(p);
      StepDelivers(p.last, a);
  }

  function Values(ds: seq<Delivery>): seq<Value> { seq(|ds|, k requires 0 <= k < |ds| => ds[k].value) }

  function Dropped(ds: seq<Delivery>, p: nat): seq<Delivery>
    requires p < |ds|
  {
    ds[..p] + ds[p + 1..]
  }

  lemma DroppedAt(ds: seq<Delivery>, p: nat, k: nat)
    requires p < |ds| && k < |ds| - 1
    ensures Dropped(ds, p)[k] == ds[if k < p then k else k + 1]
  {
  }

  lemma DroppedValues(ds: seq<Delivery>, p: nat)
    requires p < |ds|
    ensures multiset(Values(ds)) == multiset(Values(Dropped(ds, p))) + multiset{ds[p].value}
  {
    var a, b := Values(ds[..p]), Values(ds[p + 1..]);
    assert Values(ds) == a + [ds[p].value] + b;
    assert Values(Dropped(ds, p)) == a + b;
  }

  /** No index twice, all below n, each with its element. */
  predicate ProperRecord(ds: seq<Delivery>, items: seq<Value>, n: nat)
    requires n <= |items|
  {
    && (forall j, k {:trigger ds[j], ds[k]} :: 0 <= j < k < |ds| ==> ds[j].index != ds[k].index)
    && (forall k {:trigger ds[k]} :: 0 <= k < |ds| ==> ds[k].index < n && ds[k].value == items[ds[k].index])
  }

  predicate CoversAll(ds: seq<Delivery>, n: nat) {
    forall i {:trigger IsDelivered(ds, i)} :: 0 <= i < n ==> IsDelivered(ds, i)
  }

  lemma DroppedIsProper(ds: seq<Delivery>, items: seq<Value>, n: nat, p: nat)
    requires 0 < n <= |items| && ProperRecord(ds, items, n) && CoversAll(ds, n) && p < |ds| && ds[p].index == n - 1
    ensures ProperRecord(Dropped(ds, p), items, n - 1) && CoversAll(Dropped(ds, p), n - 1)
  {
    var rest := Dropped(ds, p);
    forall k | 0 <= k < |rest| ensures rest[k].index < n - 1 && rest[k].value == items[rest[k].index] {
      DroppedAt(ds, p, k);
      assert ds[if k < p then k else k + 1].index != ds[p].index;
    }
    forall j, k | 0 <= j < k < |rest| ensures rest[j].index != rest[k].index {
      DroppedAt(ds, p, j);
      DroppedAt(ds, p, k);
    }
    forall i | 0 <= i < n - 1 ensures IsDelivered(rest, i) {
      assert IsDelivered(ds, i);
      var k :| 0 <= k < |ds| && ds[k].index == i;
      var k' := if k < p then k else k - 1;
      DroppedAt(ds, p, k');
      assert rest[k'].index == i;
    }
  }

  lemma SomeIndex(ds: seq<Delivery>)
    requires ds != []
    ensures exists k {:trigger ds[k]} :: 0 <= k < |ds| && ds[k].index >= 0
  {
    assert ds[0].index >= 0;
  }

  lemma OneMore(items: seq<Value>, n: nat)
    requires 0 < n <= |items|
    ensures multiset(items[..n]) == multiset(items[..n - 1]) + multiset{items[n - 1]}
  {
    assert items[..n] == items[..n - 1] + [items[n - 1]];
  }

  /** A record without repetition of exactly the indices below n holds the first n elements. */
  lemma {:induction false} RecordIsPermutation(ds: seq<Delivery>, items: seq<Value>, n: nat)
    requires n <= |items| && ProperRecord(ds, items, n) && CoversAll(ds, n)
    ensures |ds| == n && multiset(Values(ds)) == multiset(items[..n])
    decreases n
  {
    if n == 0 {
      if ds != [] { SomeIndex(ds); }
    } else {
      var p := PlaceOf(ds, n - 1);
      DroppedIsProper(ds, items, n, p);
      RecordIsPermutation(Dropped(ds, p), items, n - 1);
      DroppedValues(ds, p);
      OneMore(items, n);
    }
  }

  ghost function PlaceOf(ds: seq<Delivery>, i: nat): (p: nat)
    requires IsDelivered(ds, i)
    ensures p < |ds| && ds[p].index == i
  {
    var p :| 0 <= p < |ds| && ds[p].index == i; p
  }

  /** What the blocks in the index hold from headIndex to tailIndex. */
  function Remaining(s: State): seq<Value>
    requires s.headIndex <= s.tailIndex
    requires forall i {:trigger InBlock(s, i)} :: s.headIndex <= i < s.tailIndex ==> InBlock(s, i)
  {
    seq(s.tailIndex - s.headIndex, k requires 0 <= k < s.tailIndex - s.headIndex =>
      assert InBlock(s, s.headIndex + k); s.mem[s.live[(s.headIndex + k) / BLOCK_SIZE]][(s.headIndex + k) % BLOCK_SIZE])
  }

  predicate InBlock(s: State, i: nat) {
    i / BLOCK_SIZE in s.live && s.live[i / BLOCK_SIZE] in s.mem && |s.mem[s.live[i / BLOCK_SIZE]]| == BLOCK_SIZE
  }

  predicate AllInBlocks(s: State) {
    s.headIndex <= s.tailIndex && forall i {:trigger InBlock(s, i)} :: s.headIndex <= i < s.tailIndex ==> InBlock(s, i)
  }

  lemma UnclaimedIsInBlock(s: State, i: nat)
    requires Inv(s) && s.headIndex <= i < s.tailIndex
    ensures InBlock(s, i) && s.mem[s.live[i / BLOCK_SIZE]][i % BLOCK_SIZE] == s.items[i]
  {
    assert i !in s.marked;
    assert DoneOk(s.live, s.marked, i / BLOCK_SIZE);
    LiveBlockKnown(s, i / BLOCK_SIZE);
    assert DataOk(s.live, s.mem, s.items, i);
  }

  lemma RemainingIs(s: State)
    requires Inv(s)
    ensures AllInBlocks(s) && Remaining(s) == s.items[s.headIndex..]
  {
    forall i | s.headIndex <= i < s.tailIndex ensures InBlock(s, i) { UnclaimedIsInBlock(s, i); }
    forall k | 0 <= k < s.tailIndex - s.headIndex ensures Remaining(s)[k] == s.items[s.headIndex..][k] {
      UnclaimedIsInBlock(s, s.headIndex + k);
    }
  }

  predicate AllConsumersIdle(consumers: map<Thread, ConsumerPc>) {
    forall t {:trigger consumers[t]} :: t in consumers ==> consumers[t] == ConsumerIdle
  }

  lemma RecordComplete(s: State)
    requires Delivering(s) && AllConsumersIdle(s.consumers) && s.headIndex <= |s.items|
    ensures |s.delivered| == s.headIndex && multiset(Values(s.delivered)) == multiset(s.items[..s.headIndex])
    ensures forall i: nat {:trigger IsDelivered(s.delivered, i)} :: IsDelivered(s.delivered, i) <==> i < s.headIndex
  {
    forall k | 0 <= k < |s.delivered| ensures s.delivered[k].index < s.headIndex
      && s.delivered[k].value == s.items[s.delivered[k].index] {
      assert DeliveryOk(s.delivered[k], s.items, s.headIndex, s.consumers);
    }
    forall i: nat | i < s.headIndex ensures IsDelivered(s.delivered, i) { assert !Outstanding(s.consumers, i); }
    RecordIsPermutation(s.delivered, s.items, s.headIndex);
  }

  /** What was delivered and what the blocks still hold is what was enqueued. */
  predicate Conserved(s: State) {
    && AllInBlocks(s) && s.tailIndex == |s.items|
    && |s.delivered| == s.headIndex && |Remaining(s)| == s.tailIndex - s.headIndex
    && multiset(Values(s.delivered)) + multiset(Remaining(s)) == multiset(s.items)
  }

  /**
   With no dequeue in progress nothing is lost and nothing duplicated: the delivered indices are
   exactly those below headIndex, and the delivered values together with those that the blocks in the
   index hold from headIndex to tailIndex are the values enqueued. So tail minus head, which is
   size_approx, is the number of elements not delivered.
   */
  lemma NothingLostNorDoubled(r: Run)
    requires IsRun(r) && AllConsumersIdle(r.last.consumers)
    ensures Conserved(r.last)
    ensures forall i: nat {:trigger IsDelivered(r.last.delivered, i)} ::
              IsDelivered(r.last.delivered, i) <==> i < r.last.headIndex
  {
    RunInvariant(r);
    DeliveredOnce(r);
    ConservedAt(r.last);
  }

  lemma ConservedAt(s: State)
    requires Inv(s) && Delivering(s) && AllConsumersIdle(s.consumers)
    ensures Conserved(s)
    ensures forall i: nat {:trigger IsDelivered(s.delivered, i)} :: IsDelivered(s.delivered, i) <==> i < s.headIndex
  {
    RecordComplete(s);
    RemainingIs(s);
    assert s.items == s.items[..s.headIndex] + s.items[s.headIndex..];
  }
}
