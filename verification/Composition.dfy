/**
 One producer's sub-queue as a whole: the counters of OptimisticDequeue, at which consumers settle who
 takes what, together with the blocks of ImplicitProducer, from which they take it. There is one
 tailIndex and one headIndex; each machine has its copy, and that the copies agree is proved. A claim
 in the blocks is now the consumer's own addition to headIndex: that it is one that ImplicitProducer
 allows is proved too, so what holds in its runs holds of claims that the counters decide.
 */
module Composition {
  import opened Basics
  import D = OptimisticDequeue
  import P = ImplicitProducer
  import Steps = ImplicitProducerSteps
  import Runs = ImplicitProducerRuns
  import Delivery = ImplicitProducerDelivery

  type Thread = P.Thread

  /** The counters and the blocks. */
  datatype State = State(d: D.State, p: P.State)

  datatype Action =
    | Around(a: P.Action)                  // the producer, other producers and the allocator
    | CallDequeue(t: Thread, max: nat)
    | Counters(t: Thread)                  // a consumer's next access up to its addition to headIndex
    | Elements(t: Thread)                  // its next access after that
    | Return(t: Thread)

  ghost predicate Init(s: State) {
    D.Init(s.d) && Runs.Init(s.p) && s.d.pc.Keys == s.p.consumers.Keys
  }

  predicate Enabled(s: State, a: Action)
    requires P.Shaped(s.p)
  {
    match a
    case Around(b) => !b.Claim? && !b.ConsumerStep? && P.Enabled(s.p, b)
    case CallDequeue(t, max) => max > 0 && D.Enabled(s.d, D.CallDequeue(t, max))
    case Counters(t) => D.Enabled(s.d, D.Step(t)) && !s.d.pc[t].Got?
    case Elements(t) => P.Enabled(s.p, P.ConsumerStep(t))
    case Return(t) => t in s.d.pc && s.d.pc[t].Got? && t in s.p.consumers && s.p.consumers[t].ConsumerIdle?
  }

  /** The addition to headIndex, as far as the blocks know of it, whether ImplicitProducer allows it or not. */
  function Take(p: P.State, t: Thread, n: nat): P.State {
    P.Goto(p, t, P.LoadHeader(p.headIndex, p.headIndex + n)).(headIndex := p.headIndex + n)
  }

  predicate Commits(p: P.State, a: P.Action) { a.ProducerStep? && p.producer.Commit? }

  function Do(s: State, a: Action): State
    requires P.Shaped(s.p) && Enabled(s, a) && (a.Around? ==> Steps.Ready(s.p, a.a))
  {
    match a
    case Around(b) =>
      State(if Commits(s.p, b) then D.Do(s.d, D.Enqueue(s.p.producer.vs)) else s.d, P.Do(s.p, b))
    case CallDequeue(t, max) => State(D.Do(s.d, D.CallDequeue(t, max)), s.p)
    case Counters(t) =>
      State(D.Do(s.d, D.Step(t)), if s.d.pc[t].Claim? then Take(s.p, t, s.d.pc[t].actual) else s.p)
    case Elements(t) => State(s.d, P.Do(s.p, P.ConsumerStep(t)))
    case Return(t) => State(D.Do(s.d, D.Step(t)), s.p)
  }

  datatype Run = Start(last: State) | Then(prev: Run, action: Action, last: State)

  ghost predicate IsStep(s: State, a: Action, s': State) {
    P.Shaped(s.p) && Enabled(s, a) && (a.Around? ==> Steps.Ready(s.p, a.a)) && s' == Do(s, a)
  }

  ghost predicate IsRun(r: Run) {
    match r
    case Start(s) => Init(s)
    case Then(p, a, s) => IsRun(p) && IsStep(p.last, a, s)
  }

  // ---------------------------------------------------------------------------
  // What each machine sees
  // ---------------------------------------------------------------------------

  /** A step as the counters see it. */
  function ForCounters(s: State, a: Action): Option<D.Action> {
    match a
    case Around(b) => if Commits(s.p, b) then Some(D.Enqueue(s.p.producer.vs)) else None
    case CallDequeue(t, max) => Some(D.CallDequeue(t, max))
    case Counters(t) => Some(D.Step(t))
    case Elements(t) => None
    case Return(t) => Some(D.Step(t))
  }

  /** A step as the blocks see it. */
  function ForBlocks(s: State, a: Action): Option<P.Action> {
    match a
    case Around(b) => Some(b)
    case Counters(t) => if t in s.d.pc && s.d.pc[t].Claim? then Some(P.Claim(t, s.d.pc[t].actual)) else None
    case Elements(t) => Some(P.ConsumerStep(t))
    case _ => None
  }

  function CountersRun(r: Run): D.Run {
    match r
    case Start(s) => D.Start(s.d)
    case Then(p, a, s) =>
      var b := ForCounters(p.last, a);
      if b.Some? then D.Then(CountersRun(p), b.value, s.d) else CountersRun(p)
  }

  function BlocksRun(r: Run): Runs.Run {
    match r
    case Start(s) => Runs.Start(s.p)
    case Then(p, a, s) =>
      var b := ForBlocks(p.last, a);
      if b.Some? then Runs.Then(BlocksRun(p), b.value, s.p) else BlocksRun(p)
  }

  /** The counters have a run of their own. */
  lemma {:induction false} CountersProject(r: Run)
    requires IsRun(r)
    ensures D.IsRun(CountersRun(r)) && CountersRun(r).last == r.last.d
  {
    if r.Then? { CountersProject(r.prev); }
  }

  // ---------------------------------------------------------------------------
  // How the two are coupled
  // ---------------------------------------------------------------------------

  /** Nobody asks for nothing. */
  predicate Positive(p: D.Pc) {
    match p
    case ReadTail(max) => max > 0
    case ReadOvercommit(max, _) => max > 0
    case ReadOptimistic(max, _, _) => max > 0
    case Reserve(want, _) => want > 0
    case Recheck(want, _, _) => want > 0
    case GiveBackPart(_, actual) => actual > 0
    case Claim(actual) => actual > 0
    case Got(_, count) => count > 0
    case _ => true
  }

  predicate DeliveredTo(delivered: seq<P.Delivery>, i: nat, t: Thread) {
    exists k {:trigger delivered[k]} :: 0 <= k < |delivered| && delivered[k].index == i && delivered[k].to == t
  }

  predicate DeliveredUpTo(delivered: seq<P.Delivery>, t: Thread, lo: nat, hi: nat) {
    forall i {:trigger DeliveredTo(delivered, i, t)} :: lo <= i < hi ==> DeliveredTo(delivered, i, t)
  }

  /** Up to where a consumer that took the indices below `end` has read. */
  function ReadTo(c: P.ConsumerPc, end: nat): nat {
    if c.ConsumerIdle? then end else if c.Reading? then c.i else c.start
  }

  /** A consumer works on the blocks only with a claim, on its indices, which it has received as far as it has read. */
  predicate WorkOk(pc: D.Pc, c: P.ConsumerPc, delivered: seq<P.Delivery>, t: Thread) {
    if pc.Got? then
      && (!c.ConsumerIdle? ==> c.end == pc.first + pc.count && pc.first <= c.start)
      && DeliveredUpTo(delivered, t, pc.first, ReadTo(c, pc.first + pc.count))
    else c.ConsumerIdle?
  }

  predicate ThreadOk(s: State, t: Thread)
    requires t in s.d.pc && t in s.p.consumers
  {
    Positive(s.d.pc[t]) && WorkOk(s.d.pc[t], s.p.consumers[t], s.p.delivered, t)
  }

  ghost predicate Coupled(s: State) {
    && s.d.headIndex == s.p.headIndex && s.d.items == s.p.items && s.d.pc.Keys == s.p.consumers.Keys
    && forall t {:trigger ThreadOk(s, t)} :: t in s.d.pc ==> ThreadOk(s, t)
  }

  lemma InitCoupled(s: State)
    requires Init(s)
    ensures Coupled(s)
  {
    forall t | t in s.d.pc ensures ThreadOk(s, t) { assert s.d.pc[t] == D.Idle; }
  }

  // ---------------------------------------------------------------------------
  // Every step keeps them coupled
  // ---------------------------------------------------------------------------

  lemma ProducerItems(p: P.State, c: P.Choice)
    requires P.Shaped(p) && !p.producer.ProducerIdle? && P.KeyReady(p)
    ensures P.DoProducer(p, c).items == if p.producer.Commit? then p.items + p.producer.vs else p.items
  {
    if P.Placing(p.producer) { assert P.DoPlacing(p, c).items == p.items; }
    else if P.Acquiring(p.producer) { assert P.DoAcquiring(p, c).items == p.items; }
    else if P.Failing(p.producer) { assert P.DoFailing(p).items == p.items; }
  }

  lemma AroundItems(p: P.State, a: P.Action)
    requires P.Shaped(p) && P.Enabled(p, a) && Steps.Ready(p, a) && !a.Claim? && !a.ConsumerStep?
    ensures P.Do(p, a).items == if Commits(p, a) then p.items + p.producer.vs else p.items
  {
    if a.ProducerStep? { ProducerItems(p, a.choice); }
  }

  lemma AroundCoupled(s: State, b: P.Action)
    requires Coupled(s) && P.Shaped(s.p) && Enabled(s, Around(b)) && Steps.Ready(s.p, b)
    ensures Coupled(Do(s, Around(b)))
  {
    var s' := Do(s, Around(b));
    AroundItems(s.p, b);
    Runs.OtherFrame(s.p, b);
    forall t | t in s'.d.pc ensures ThreadOk(s', t) { assert ThreadOk(s, t); }
  }

  /** One thread moves, and the record of deliveries grows at most. */
  lemma OneMoves(s: State, s': State, t: Thread)
    requires Coupled(s) && t in s.d.pc && t in s'.d.pc && t in s'.p.consumers
    requires s'.d.pc == s.d.pc[t := s'.d.pc[t]] && s'.p.consumers == s.p.consumers[t := s'.p.consumers[t]]
    requires s.p.delivered <= s'.p.delivered && ThreadOk(s', t)
    requires s'.d.headIndex == s'.p.headIndex && s'.d.items == s'.p.items
    ensures Coupled(s')
  {
    forall u | u in s'.d.pc ensures ThreadOk(s', u) {
      if u != t {
        assert ThreadOk(s, u);
        DeliveredGrows(s.p.delivered, s'.p.delivered, u);
      }
    }
  }

  lemma DeliveredGrows(ds: seq<P.Delivery>, ds': seq<P.Delivery>, t: Thread)
    requires ds <= ds'
    ensures forall i {:trigger DeliveredTo(ds', i, t)} :: DeliveredTo(ds, i, t) ==> DeliveredTo(ds', i, t)
  {
    forall i | DeliveredTo(ds, i, t) ensures DeliveredTo(ds', i, t) {
      var k :| 0 <= k < |ds| && ds[k].index == i && ds[k].to == t;
      assert ds'[k] == ds[k];
    }
  }

  lemma CountersPc(d: D.State, t: Thread)
    requires D.Enabled(d, D.Step(t)) && Positive(d.pc[t]) && !d.pc[t].Got? && !d.pc[t].Claim?
    ensures var d' := D.Do(d, D.Step(t));
            && t in d'.pc && d'.pc == d.pc[t := d'.pc[t]] && Positive(d'.pc[t]) && !d'.pc[t].Got?
            && d'.headIndex == d.headIndex && d'.items == d.items
  {
  }

  lemma CountersCoupled(s: State, t: Thread)
    requires Coupled(s) && P.Shaped(s.p) && Enabled(s, Counters(t))
    ensures Coupled(Do(s, Counters(t)))
  {
    assert ThreadOk(s, t);
    if !s.d.pc[t].Claim? { CountersPc(s.d, t); }
    OneMoves(s, Do(s, Counters(t)), t);
  }

  lemma CallCoupled(s: State, t: Thread, max: nat)
    requires Coupled(s) && P.Shaped(s.p) && Enabled(s, CallDequeue(t, max))
    ensures Coupled(Do(s, CallDequeue(t, max)))
  {
    assert ThreadOk(s, t);
    OneMoves(s, Do(s, CallDequeue(t, max)), t);
  }

  lemma ReturnCoupled(s: State, t: Thread)
    requires Coupled(s) && P.Shaped(s.p) && Enabled(s, Return(t))
    ensures Coupled(Do(s, Return(t)))
  {
    assert ThreadOk(s, t);
    OneMoves(s, Do(s, Return(t)), t);
  }

  /** What an access to the blocks does to how far a consumer has read. */
  predicate Reads(p: P.State, p': P.State, t: Thread, end: nat)
    requires t in p.consumers && t in p'.consumers && !p.consumers[t].ConsumerIdle?
  {
    var c, c' := p.consumers[t], p'.consumers[t];
    && (!c'.ConsumerIdle? ==> c'.end == c.end && c.start <= c'.start)
    && if Delivery.IsRead(p, t) then
         && ReadTo(c', end) == ReadTo(c, end) + 1
         && |p'.delivered| == |p.delivered| + 1 && p.delivered <= p'.delivered
         && p'.delivered[|p.delivered|].index == ReadTo(c, end) && p'.delivered[|p.delivered|].to == t
       else ReadTo(c', end) == ReadTo(c, end) && p'.delivered == p.delivered
  }

  lemma ReadReads(p: P.State, t: Thread)
    requires P.Shaped(p) && P.Enabled(p, P.ConsumerStep(t)) && Delivery.IsRead(p, t)
    ensures var p' := P.DoConsumer(p, t);
            && t in p'.consumers && p'.consumers == p.consumers[t := p'.consumers[t]]
            && p'.headIndex == p.headIndex && p'.items == p.items && Reads(p, p', t, p.consumers[t].end)
  {
    assert P.ConsumerShaped(p.ix, p.mem, p.consumers[t]);
  }

  /** A part that has been read is marked up to where it was read, and no further. */
  lemma MarkReads(p: P.State, t: Thread)
    requires P.Inv(p) && t in p.consumers && p.consumers[t].Reading? && !Delivery.IsRead(p, t)
    ensures P.Enabled(p, P.ConsumerStep(t)) && t in P.DoConsumer(p, t).consumers
    ensures Reads(p, P.DoConsumer(p, t), t, p.consumers[t].end)
  {
    var c := p.consumers[t];
    assert P.ConsumerFine(p, t) && P.ConsumerShaped(p.ix, p.mem, c);
    Steps.StopInBlock(c.start, c.end);
  }

  lemma OtherReads(p: P.State, t: Thread)
    requires P.Inv(p) && P.Enabled(p, P.ConsumerStep(t)) && !p.consumers[t].Reading?
    ensures t in P.DoConsumer(p, t).consumers && Reads(p, P.DoConsumer(p, t), t, p.consumers[t].end)
  {
    assert P.ConsumerFine(p, t) && P.ConsumerShaped(p.ix, p.mem, p.consumers[t]);
  }

  lemma ConsumerReads(p: P.State, t: Thread)
    requires P.Inv(p) && P.Enabled(p, P.ConsumerStep(t))
    ensures var p' := P.DoConsumer(p, t);
            && t in p'.consumers && p'.consumers == p.consumers[t := p'.consumers[t]]
            && p'.headIndex == p.headIndex && p'.items == p.items && Reads(p, p', t, p.consumers[t].end)
  {
    if Delivery.IsRead(p, t) { ReadReads(p, t); }
    else {
      Delivery.ConsumerFrame(p, t);
      if p.consumers[t].Reading? { MarkReads(p, t); } else { OtherReads(p, t); }
    }
  }

  lemma WorkGoesOn(p: P.State, p': P.State, t: Thread, pc: D.Pc)
    requires t in p.consumers && t in p'.consumers && !p.consumers[t].ConsumerIdle?
    requires WorkOk(pc, p.consumers[t], p.delivered, t) && Reads(p, p', t, p.consumers[t].end)
    ensures WorkOk(pc, p'.consumers[t], p'.delivered, t) && p.delivered <= p'.delivered
  {
    DeliveredGrows(p.delivered, p'.delivered, t);
    var end := p.consumers[t].end;
    forall i: nat | pc.first <= i < ReadTo(p'.consumers[t], end) ensures DeliveredTo(p'.delivered, i, t) {
      if i < ReadTo(p.consumers[t], end) { assert DeliveredTo(p.delivered, i, t); }
      else { assert p'.delivered[|p.delivered|].index == i; }
    }
  }

  lemma ElementsCoupled(s: State, t: Thread)
    requires Coupled(s) && P.Inv(s.p) && Enabled(s, Elements(t))
    ensures Coupled(Do(s, Elements(t)))
  {
    assert ThreadOk(s, t);
    ConsumerReads(s.p, t);
    WorkGoesOn(s.p, P.DoConsumer(s.p, t), t, s.d.pc[t]);
    OneMoves(s, Do(s, Elements(t)), t);
  }

  lemma StepCoupled(s: State, a: Action)
    requires Coupled(s) && P.Inv(s.p) && Enabled(s, a) && (a.Around? ==> Steps.Ready(s.p, a.a))
    ensures Coupled(Do(s, a))
  {
    match a
    case Around(b) => AroundCoupled(s, b);
    case CallDequeue(t, max) => CallCoupled(s, t, max);
    case Counters(t) => CountersCoupled(s, t);
    case Elements(t) => ElementsCoupled(s, t);
    case Return(t) => ReturnCoupled(s, t);
  }

  // ---------------------------------------------------------------------------
  // Theorems over every run
  // ---------------------------------------------------------------------------

  lemma ClaimAt(s: State, t: Thread)
    requires Coupled(s) && P.Inv(s.p) && t in s.d.pc && s.d.pc[t].Claim?
    requires s.d.headIndex + s.d.pc[t].actual <= |s.d.items|
    ensures P.Enabled(s.p, P.Claim(t, s.d.pc[t].actual))
    ensures Take(s.p, t, s.d.pc[t].actual) == P.Do(s.p, P.Claim(t, s.d.pc[t].actual))
  {
    assert ThreadOk(s, t);
  }

  /** A step of the whole is a step of the blocks, or leaves them alone. */
  predicate BlocksFollow(s: State, a: Action, s': State) {
    var b := ForBlocks(s, a);
    && P.Shaped(s.p)
    && if b.None? then s'.p == s.p
       else P.Enabled(s.p, b.value) && Steps.Ready(s.p, b.value) && s'.p == P.Do(s.p, b.value)
  }

  lemma StepFollows(s: State, a: Action)
    requires Coupled(s) && P.Inv(s.p) && Enabled(s, a) && (a.Around? ==> Steps.Ready(s.p, a.a))
    requires a.Counters? && s.d.pc[a.t].Claim? ==> s.d.headIndex + s.d.pc[a.t].actual <= |s.d.items|
    ensures BlocksFollow(s, a, Do(s, a))
  {
    if a.Counters? && s.d.pc[a.t].Claim? { ClaimAt(s, a.t); }
  }

  lemma ClaimFits(r: Run, t: Thread)
    requires IsRun(r) && t in r.last.d.pc && r.last.d.pc[t].Claim?
    ensures r.last.d.headIndex + r.last.d.pc[t].actual <= |r.last.d.items|
  {
    CountersProject(r);
    D.ClaimIsAllowed(CountersRun(r), t);
  }

  /** The blocks have a run of their own, and the two machines' indices and elements agree. */
  lemma {:induction false} BlocksProject(r: Run)
    requires IsRun(r)
    ensures Runs.IsRun(BlocksRun(r)) && BlocksRun(r).last == r.last.p && Coupled(r.last)
  {
    match r
    case Start(s) => InitCoupled(s);
    case Then(q, a, s) =>
      BlocksProject(q);
      Runs.RunInvariant(BlocksRun(q));
      if a.Counters? && q.last.d.pc[a.t].Claim? { ClaimFits(q, a.t); }
      StepFollows(q.last, a);
      StepCoupled(q.last, a);
  }

  /**
   In every run of the whole, each consumer that is about to add to headIndex makes a claim that
   ImplicitProducer allows, from the same headIndex and below the same tailIndex.
   */
  lemma ClaimIsEnabled(r: Run, t: Thread)
    requires IsRun(r) && t in r.last.d.pc && r.last.d.pc[t].Claim?
    ensures var s, n := r.last, r.last.d.pc[t].actual;
            && s.d.headIndex == s.p.headIndex && |s.d.items| == s.p.tailIndex && s.d.items == s.p.items
            && P.Shaped(s.p) && P.Enabled(s.p, P.Claim(t, n)) && Take(s.p, t, n) == P.Do(s.p, P.Claim(t, n))
  {
    BlocksProject(r);
    Runs.RunInvariant(BlocksRun(r));
    ClaimFits(r, t);
    ClaimAt(r.last, t);
  }

  /** No run of the whole comes to a state in which a pointer or slot cannot be followed. */
  lemma NeverStuck(r: Run, a: Action)
    requires IsRun(r)
    ensures P.Shaped(r.last.p) && (Enabled(r.last, a) ==> (a.Around? ==> Steps.Ready(r.last.p, a.a)))
  {
    BlocksProject(r);
    Runs.RunInvariant(BlocksRun(r));
    if a.Around? { Runs.NeverStuck(BlocksRun(r), a.a); }
  }

  predicate ReceivedAll(s: State, t: Thread, first: nat, count: nat) {
    forall i {:trigger Received(s, i, t)} :: first <= i < first + count ==> Received(s, i, t)
  }

  /** Index i was delivered to t, with the element enqueued at it. */
  predicate Received(s: State, i: nat, t: Thread) {
    i < |s.p.items| && P.Delivery(i, s.p.items[i], t) in s.p.delivered
  }

  lemma ReceivedOne(s: State, i: nat, t: Thread)
    requires Delivery.Delivering(s.p) && DeliveredTo(s.p.delivered, i, t)
    ensures Received(s, i, t)
  {
    var k :| 0 <= k < |s.p.delivered| && s.p.delivered[k].index == i && s.p.delivered[k].to == t;
    assert Delivery.DeliveryOk(s.p.delivered[k], s.p.items, s.p.headIndex, s.p.consumers);
    assert s.p.delivered[k] == P.Delivery(i, s.p.items[i], t);
  }

  /**
   A dequeue that claimed `count` indices from `first` on, and has come to its end, has delivered to
   its caller exactly the elements enqueued there; nobody else has received or will receive them.
   */
  lemma ReturnDelivers(r: Run, t: Thread, first: nat, count: nat)
    requires IsRun(r) && t in r.last.d.pc && r.last.d.pc[t] == D.Got(first, count)
    requires t in r.last.p.consumers && r.last.p.consumers[t].ConsumerIdle?
    ensures count > 0 && ReceivedAll(r.last, t, first, count) && Delivery.RecordOk(r.last.p.delivered)
  {
    BlocksProject(r);
    Delivery.DeliveredOnce(BlocksRun(r));
    var s := r.last;
    assert ThreadOk(s, t);
    forall i: nat | first <= i < first + count ensures Received(s, i, t) {
      assert DeliveredTo(s.p.delivered, i, t);
      ReceivedOne(s, i, t);
    }
  }

  predicate AllIdle(d: D.State) { forall t <- d.pc :: d.pc[t] == D.Idle }

  /**
   With no dequeue in progress the counters count deliveries: dequeueOptimisticCount less
   dequeueOvercommit is headIndex, which is the number of elements delivered; and delivered and
   remaining elements are the elements enqueued.
   */
  lemma CountersCountDeliveries(r: Run)
    requires IsRun(r) && AllIdle(r.last.d)
    ensures var s := r.last;
            && s.d.optimistic - s.d.overcommit == s.p.headIndex == |s.p.delivered|
            && D.SizeApprox(s.d) == s.p.tailIndex - s.p.headIndex
            && Delivery.Conserved(s.p)
  {
    BlocksProject(r);
    CountersProject(r);
    D.QuiescentCountsAreExact(CountersRun(r));
    var s := r.last;
    forall t | t in s.p.consumers ensures s.p.consumers[t] == P.ConsumerIdle { assert ThreadOk(s, t); }
    Delivery.NothingLostNorDoubled(BlocksRun(r));
  }
}
