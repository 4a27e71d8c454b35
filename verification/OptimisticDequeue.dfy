/**
 The optimistic dequeue of one producer's sub-queue (concurrentqueue.h, `ImplicitProducer::dequeue`
 and `dequeue_bulk`): how any number of consumers share out the element indices.

 A single dequeue is the bulk one with max == 1: the same loads, the same additions, one element.
 Each atomic access is one step. Indices are unbounded here; SlotArithmetic shows that the 64-bit
 comparisons of the code agree.

 Auxiliary: `axis` labels each unit ever reserved on dequeueOptimisticCount with its fate, and
 `claims` names the consumer of each index. No step reads them.
 */
module OptimisticDequeue {
  import opened Basics

  type Thread = nat
  type Value = int

  datatype Fate = Open | Committed | Failed

  datatype Pc =
    | Idle
    | ReadTail(max: nat)                                // 2466, 2687
    | ReadOvercommit(max: nat, tail: nat)               // 2467, 2688
    | ReadOptimistic(max: nat, tail: nat, over: nat)    // 2468, 2689
    | Reserve(want: nat, over: nat)                     // 2471, 2694
    | Recheck(want: nat, mine: nat, over: nat)          // 2473, 2697
    | GiveBack(excess: nat)                             // 2527, 2780
    | GiveBackPart(excess: nat, actual: nat)            // 2702
    | Claim(actual: nat)                                // 2475, 2707
    | Got(first: nat, count: nat)

  datatype State = State(
    items: seq<Value>,        // everything enqueued; tailIndex is |items|
    headIndex: nat,
    optimistic: nat,
    overcommit: nat,
    pc: map<Thread, Pc>,
    axis: seq<Fate>,
    claims: seq<Thread>)

  datatype Action =
    | Enqueue(values: seq<Value>)             // the producer's store to tailIndex
    | CallDequeue(t: Thread, max: nat)
    | Step(t: Thread)

  predicate Init(s: State) {
    && s.items == [] && s.headIndex == s.optimistic == s.overcommit == 0
    && s.axis == [] && s.claims == []
    && forall t <- s.pc :: s.pc[t] == Idle
  }

  predicate Enabled(s: State, a: Action) {
    match a
    case Enqueue(_) => true
    case CallDequeue(t, max) => t in s.pc && s.pc[t] == Idle
    case Step(t) => t in s.pc && s.pc[t] != Idle
  }

  function Goto(s: State, t: Thread, p: Pc): State { s.(pc := s.pc[t := p]) }

  /** The reservation [lo, lo + want) is settled: its first `won` units are claimed, the rest failed. */
  function Settle(axis: seq<Fate>, lo: nat, want: nat, won: nat): seq<Fate> {
    if won <= want && lo + want <= |axis| then
      axis[..lo] + Repeat(Committed, won) + Repeat(Failed, want - won) + axis[lo + want..]
    else axis
  }

  function Do(s: State, a: Action): State
    requires Enabled(s, a)
  {
    match a
    case Enqueue(values) => s.(items := s.items + values)
    case CallDequeue(t, max) => Goto(s, t, ReadTail(max))
    case Step(t) =>
      match s.pc[t]
      case Idle => s
      case ReadTail(max) => Goto(s, t, ReadOvercommit(max, |s.items|))
      case ReadOvercommit(max, tail) => Goto(s, t, ReadOptimistic(max, tail, s.overcommit))
      case ReadOptimistic(max, tail, over) =>
        var desired := tail - (s.optimistic - over);
        Goto(s, t, if 0 < desired then Reserve(Min(desired, max), over) else Idle)
      case Reserve(want, over) => DoReserve(s, t, want, over)
      case Recheck(want, mine, over) => DoRecheck(s, t, want, mine, over)
      case GiveBack(excess) => Goto(s, t, Idle).(overcommit := s.overcommit + excess)
      case GiveBackPart(excess, actual) => Goto(s, t, Claim(actual)).(overcommit := s.overcommit + excess)
      case Claim(actual) => DoClaim(s, t, actual)
      case Got(_, _) => Goto(s, t, Idle)
  }

  function DoReserve(s: State, t: Thread, want: nat, over: nat): State {
    Goto(s, t, Recheck(want, s.optimistic, over))
      .(optimistic := s.optimistic + want, axis := s.axis + Repeat(Open, want))
  }

  /** The units the recheck grants to a reservation of `want` units that starts at `mine`. */
  function Won(tail: nat, want: nat, mine: nat, over: nat): nat {
    var actual := tail - (mine - over);
    if actual <= 0 then 0 else Min(want, actual)
  }

  function AfterRecheck(tail: nat, want: nat, mine: nat, over: nat): Pc {
    var won := Won(tail, want, mine, over);
    if tail - (mine - over) <= 0 then GiveBack(want)
    else if won < want then GiveBackPart(want - won, won) else Claim(won)
  }

  function DoRecheck(s: State, t: Thread, want: nat, mine: nat, over: nat): State {
    Goto(s, t, AfterRecheck(|s.items|, want, mine, over))
      .(axis := Settle(s.axis, mine, want, Won(|s.items|, want, mine, over)))
  }

  function DoClaim(s: State, t: Thread, actual: nat): State {
    Goto(s, t, Got(s.headIndex, actual))
      .(headIndex := s.headIndex + actual, claims := s.claims + Repeat(t, actual))
  }

  // ---------------------------------------------------------------------------
  // Counting fates, and summing over threads
  // ---------------------------------------------------------------------------

  function Count(axis: seq<Fate>, f: Fate): nat {
    if axis == [] then 0
    else Count(axis[..|axis| - 1], f) + (if axis[|axis| - 1] == f then 1 else 0)
  }

  lemma {:induction false} CountConcat(a: seq<Fate>, b: seq<Fate>, f: Fate)
    ensures Count(a + b, f) == Count(a, f) + Count(b, f)
  {
    if b == [] {
      assert a + b == a;
    } else {
      var n := |b| - 1;
      CountConcat(a, b[..n], f);
      assert (a + b)[..|a + b| - 1] == a + b[..n];
    }
  }

  lemma {:induction false} CountRepeat(x: Fate, n: nat, f: Fate)
    ensures Count(Repeat(x, n), f) == if x == f then n else 0
  {
    if n > 0 {
      CountRepeat(x, n - 1, f);
      assert Repeat(x, n)[..n - 1] == Repeat(x, n - 1);
    }
  }

  lemma {:induction false} CountUniform(a: seq<Fate>, x: Fate, f: Fate)
    requires forall i :: 0 <= i < |a| ==> a[i] == x
    ensures Count(a, f) == if x == f then |a| else 0
  {
    assert a == Repeat(x, |a|);
    CountRepeat(x, |a|, f);
  }

  lemma {:induction false} CountSplit(a: seq<Fate>)
    ensures Count(a, Committed) + Count(a, Failed) <= |a|
  {
    if a != [] { CountSplit(a[..|a| - 1]); }
  }

  lemma {:induction false} CountMonotone(a: seq<Fate>, b: seq<Fate>)
    requires |a| == |b| && forall i :: 0 <= i < |a| && a[i] == Failed ==> b[i] == Failed
    ensures Count(a, Failed) <= Count(b, Failed)
  {
    if a != [] { CountMonotone(a[..|a| - 1], b[..|b| - 1]); }
  }

  lemma CountThree(a: seq<Fate>, b: seq<Fate>, c: seq<Fate>, f: Fate)
    ensures Count(a + b + c, f) == Count(a, f) + Count(b, f) + Count(c, f)
  {
    CountConcat(a + b, c, f);
    CountConcat(a, b, f);
  }

  lemma SettleParts(axis: seq<Fate>, lo: nat, want: nat, won: nat)
    requires won <= want && lo + want <= |axis|
    ensures axis == axis[..lo] + axis[lo..lo + want] + axis[lo + want..]
    ensures Settle(axis, lo, want, won)
            == axis[..lo] + (Repeat(Committed, won) + Repeat(Failed, want - won)) + axis[lo + want..]
  {
  }

  /** Settling a reservation adds exactly its claimed and its failed units. */
  lemma SettleCounts(axis: seq<Fate>, lo: nat, want: nat, won: nat, f: Fate)
    requires won <= want && lo + want <= |axis| && f != Open
    requires forall i :: lo <= i < lo + want ==> axis[i] == Open
    ensures Count(Settle(axis, lo, want, won), f) == Count(axis, f) + if f == Committed then won else want - won
  {
    SettleParts(axis, lo, want, won);
    CountThree(axis[..lo], axis[lo..lo + want], axis[lo + want..], f);
    CountUniform(axis[lo..lo + want], Open, f);
    CountThree(axis[..lo], Repeat(Committed, won) + Repeat(Failed, want - won), axis[lo + want..], f);
    CountConcat(Repeat(Committed, won), Repeat(Failed, want - won), f);
    CountRepeat(Committed, won, f);
    CountRepeat(Failed, want - won, f);
  }

  ghost function Total(pc: map<Thread, Pc>, w: Pc -> nat): nat {
    if pc == map[] then 0
    else
      var t :| t in pc;
      w(pc[t]) + Total(pc - {t}, w)
  }

  lemma {:induction false} TotalSplit(pc: map<Thread, Pc>, w: Pc -> nat, t: Thread)
    requires t in pc
    ensures Total(pc, w) == w(pc[t]) + Total(pc - {t}, w)
    decreases |pc|
  {
    var u :| u in pc && Total(pc, w) == w(pc[u]) + Total(pc - {u}, w);
    if u != t {
      TotalSplit(pc - {u}, w, t);
      TotalSplit(pc - {t}, w, u);
      assert pc - {u} - {t} == pc - {t} - {u};
    }
  }

  lemma TotalUpdate(pc: map<Thread, Pc>, w: Pc -> nat, t: Thread, p: Pc)
    requires t in pc
    ensures Total(pc[t := p], w) == Total(pc, w) - w(pc[t]) + w(p)
    ensures w(pc[t]) <= Total(pc, w)
  {
    TotalSplit(pc, w, t);
    TotalSplit(pc[t := p], w, t);
    assert pc[t := p] - {t} == pc - {t};
  }

  lemma {:induction false} TotalZero(pc: map<Thread, Pc>, w: Pc -> nat)
    requires forall t <- pc :: w(pc[t]) == 0
    ensures Total(pc, w) == 0
    decreases |pc|
  {
    if pc != map[] {
      var t :| t in pc && Total(pc, w) == w(pc[t]) + Total(pc - {t}, w);
      TotalZero(pc - {t}, w);
    }
  }

  // ---------------------------------------------------------------------------
  // The invariant
  // ---------------------------------------------------------------------------

  /** Units reserved on dequeueOptimisticCount and not yet added to headIndex or dequeueOvercommit. */
  function Unresolved(p: Pc): nat {
    match p
    case Recheck(want, _, _) => want
    case GiveBack(excess) => excess
    case GiveBackPart(excess, actual) => excess + actual
    case Claim(actual) => actual
    case _ => 0
  }

  /** Units that will be added to headIndex. */
  function Claiming(p: Pc): nat {
    match p
    case GiveBackPart(_, actual) => actual
    case Claim(actual) => actual
    case _ => 0
  }

  /** Units that will be added to dequeueOvercommit. */
  function Failing(p: Pc): nat {
    match p
    case GiveBack(excess) => excess
    case GiveBackPart(excess, _) => excess
    case _ => 0
  }

  ghost predicate CountersOk(s: State) {
    && s.optimistic == |s.axis| && s.headIndex == |s.claims|
    && s.optimistic == s.headIndex + s.overcommit + Total(s.pc, Unresolved)
    && Count(s.axis, Committed) == s.headIndex + Total(s.pc, Claiming)
    && Count(s.axis, Failed) == s.overcommit + Total(s.pc, Failing)
  }

  /** A claimed unit x has at most tailIndex units at or before it that did not fail. */
  predicate UnitOk(s: State, x: nat)
    requires x < |s.axis|
  {
    s.axis[x] == Committed ==> x + 1 - Count(s.axis[..x], Failed) <= |s.items|
  }

  predicate ThreadOk(s: State, t: Thread)
    requires t in s.pc
  {
    match s.pc[t]
    case ReadOptimistic(_, _, over) => over <= s.overcommit
    case Reserve(_, over) => over <= s.overcommit
    case Recheck(want, mine, over) =>
      && mine + want <= |s.axis|
      && (forall i :: mine <= i < mine + want ==> s.axis[i] == Open)
      && over <= Count(s.axis[..mine], Failed)
    case Got(first, count) =>
      first + count <= |s.claims| && forall i :: first <= i < first + count ==> s.claims[i] == t
    case _ => true
  }

  /** Two reservations in flight never overlap. */
  predicate Apart(p: Pc, q: Pc) {
    p.Recheck? && q.Recheck? ==> p.mine + p.want <= q.mine || q.mine + q.want <= p.mine
  }

  ghost predicate Inv(s: State) {
    && CountersOk(s)
    && (forall x {:trigger UnitOk(s, x)} :: 0 <= x < |s.axis| ==> UnitOk(s, x))
    && (forall t {:trigger ThreadOk(s, t)} :: t in s.pc ==> ThreadOk(s, t))
    && (forall t, u {:trigger Apart(s.pc[t], s.pc[u])} ::
          t in s.pc && u in s.pc && t != u ==> Apart(s.pc[t], s.pc[u]))
  }

  // ---------------------------------------------------------------------------
  // The bound: everything claimed fits below tailIndex
  // ---------------------------------------------------------------------------

  /** The last claimed unit bounds the number of all claimed units. */
  lemma {:induction false} CommittedBound(axis: seq<Fate>, tail: nat)
    requires forall x {:trigger axis[x]} :: 0 <= x < |axis| && axis[x] == Committed ==>
               x + 1 - Count(axis[..x], Failed) <= tail
    ensures Count(axis, Committed) <= tail
  {
    if axis != [] {
      var n := |axis| - 1;
      if axis[n] == Committed {
        CountSplit(axis[..n]);
      } else {
        forall x | 0 <= x < n && axis[..n][x] == Committed
          ensures x + 1 - Count(axis[..n][..x], Failed) <= tail
        {
          assert axis[..n][..x] == axis[..x];
          assert axis[x] == Committed;
        }
        CommittedBound(axis[..n], tail);
      }
    }
  }

  lemma ClaimsFit(s: State)
    requires Inv(s)
    ensures s.headIndex + Total(s.pc, Claiming) <= |s.items|
  {
    forall x | 0 <= x < |s.axis| && s.axis[x] == Committed
      ensures x + 1 - Count(s.axis[..x], Failed) <= |s.items|
    {
      assert UnitOk(s, x);
    }
    CommittedBound(s.axis, |s.items|);
  }

  // ---------------------------------------------------------------------------
  // Every step keeps the invariant
  // ---------------------------------------------------------------------------

  /** The axis only grows at its end, and only its open units change. */
  predicate AxisGrows(a: seq<Fate>, b: seq<Fate>) {
    |a| <= |b| && forall i :: 0 <= i < |a| && a[i] != Open ==> b[i] == a[i]
  }

  lemma PrefixFails(a: seq<Fate>, b: seq<Fate>, x: nat)
    requires AxisGrows(a, b) && x <= |a|
    ensures Count(a[..x], Failed) <= Count(b[..x], Failed)
  {
    CountMonotone(a[..x], b[..x]);
  }

  /** Everything thread t does not touch survives its step. */
  ghost predicate Moves(s: State, s': State, t: Thread) {
    && t in s.pc && t in s'.pc && s'.pc == s.pc[t := s'.pc[t]]
    && AxisGrows(s.axis, s'.axis)
    && s.claims <= s'.claims && |s.items| <= |s'.items| && s.overcommit <= s'.overcommit
    && forall u {:trigger s.pc[u]} :: u in s.pc && u != t && s.pc[u].Recheck? ==>
         s.pc[u].mine + s.pc[u].want <= |s'.axis| &&
         forall i :: s.pc[u].mine <= i < s.pc[u].mine + s.pc[u].want && i < |s.axis| ==> s'.axis[i] == s.axis[i]
  }

  lemma OtherThread(s: State, s': State, t: Thread, u: Thread)
    requires Moves(s, s', t) && u in s.pc && u != t && ThreadOk(s, u)
    ensures u in s'.pc && ThreadOk(s', u)
  {
    if s.pc[u].Recheck? { PrefixFails(s.axis, s'.axis, s.pc[u].mine); }
  }

  lemma OldUnit(s: State, s': State, x: nat)
    requires AxisGrows(s.axis, s'.axis) && |s.items| <= |s'.items| && x < |s.axis|
    requires UnitOk(s, x) && (s'.axis[x] == Committed ==> s.axis[x] == Committed)
    ensures UnitOk(s', x)
  {
    PrefixFails(s.axis, s'.axis, x);
  }

  lemma TotalsUpdate(pc: map<Thread, Pc>, t: Thread, p: Pc)
    requires t in pc
    ensures Total(pc[t := p], Unresolved) == Total(pc, Unresolved) - Unresolved(pc[t]) + Unresolved(p)
    ensures Total(pc[t := p], Claiming) == Total(pc, Claiming) - Claiming(pc[t]) + Claiming(p)
    ensures Total(pc[t := p], Failing) == Total(pc, Failing) - Failing(pc[t]) + Failing(p)
    ensures Claiming(pc[t]) <= Total(pc, Claiming)
  {
    TotalUpdate(pc, Unresolved, t, p);
    TotalUpdate(pc, Claiming, t, p);
    TotalUpdate(pc, Failing, t, p);
  }

  lemma Assemble(s: State, s': State, t: Thread)
    requires Inv(s) && Moves(s, s', t) && CountersOk(s') && ThreadOk(s', t)
    requires forall x {:trigger UnitOk(s', x)} :: 0 <= x < |s'.axis| ==> UnitOk(s', x)
    requires forall u {:trigger Apart(s'.pc[t], s.pc[u])} :: u in s.pc && u != t ==>
               Apart(s'.pc[t], s.pc[u])
    ensures Inv(s')
  {
    forall u | u in s'.pc ensures ThreadOk(s', u) {
      if u != t {
        assert ThreadOk(s, u);
        OtherThread(s, s', t, u);
      }
    }
    forall u, v | u in s'.pc && v in s'.pc && u != v ensures Apart(s'.pc[u], s'.pc[v]) {
      if u == t { assert Apart(s'.pc[t], s.pc[v]); }
      else if v == t { assert Apart(s'.pc[t], s.pc[u]); }
      else { assert Apart(s.pc[u], s.pc[v]); }
    }
  }

  /** A step that neither reserves nor settles. */
  lemma SameAxis(s: State, s': State, t: Thread)
    requires Inv(s) && t in s.pc && t in s'.pc && !s'.pc[t].Recheck?
    requires s'.pc == s.pc[t := s'.pc[t]]
    requires s'.axis == s.axis && s'.items == s.items && s.claims <= s'.claims && s.overcommit <= s'.overcommit
    requires CountersOk(s') && ThreadOk(s', t)
    ensures Inv(s')
  {
    forall u | u in s.pc && s.pc[u].Recheck? ensures s.pc[u].mine + s.pc[u].want <= |s.axis| {
      assert ThreadOk(s, u);
    }
    forall x | 0 <= x < |s'.axis| ensures UnitOk(s', x) { assert UnitOk(s, x); }
    Assemble(s, s', t);
  }

  lemma ReserveCounts(axis: seq<Fate>, want: nat, f: Fate)
    requires f != Open
    ensures Count(axis + Repeat(Open, want), f) == Count(axis, f)
  {
    CountConcat(axis, Repeat(Open, want), f);
    CountRepeat(Open, want, f);
  }

  lemma ReserveUnits(s: State, s': State, want: nat)
    requires Inv(s) && s'.axis == s.axis + Repeat(Open, want) && s'.items == s.items
    ensures forall x {:trigger UnitOk(s', x)} :: 0 <= x < |s'.axis| ==> UnitOk(s', x)
  {
    forall x | 0 <= x < |s'.axis| ensures UnitOk(s', x) {
      if x < |s.axis| {
        assert UnitOk(s, x);
        OldUnit(s, s', x);
      }
    }
  }

  lemma ReserveKeeps(s: State, t: Thread, want: nat, over: nat)
    requires Inv(s) && t in s.pc && s.pc[t] == Reserve(want, over)
    ensures Inv(DoReserve(s, t, want, over))
  {
    var s' := DoReserve(s, t, want, over);
    assert ThreadOk(s, t);
    TotalsUpdate(s.pc, t, s'.pc[t]);
    ReserveCounts(s.axis, want, Committed);
    ReserveCounts(s.axis, want, Failed);
    assert s'.axis[..|s.axis|] == s.axis;
    forall u | u in s.pc && s.pc[u].Recheck? ensures s.pc[u].mine + s.pc[u].want <= |s.axis| {
      assert ThreadOk(s, u);
    }
    ReserveUnits(s, s', want);
    Assemble(s, s', t);
  }

  /** A unit claimed by this recheck obeys the bound, because the failures before it were seen. */
  lemma WonUnit(s: State, s': State, want: nat, mine: nat, over: nat, x: nat)
    requires mine + want <= |s.axis| && over <= Count(s.axis[..mine], Failed)
    requires forall i :: mine <= i < mine + want ==> s.axis[i] == Open
    requires var won := Won(|s.items|, want, mine, over);
             s'.axis == Settle(s.axis, mine, want, won) && s'.items == s.items && mine <= x < mine + won
    ensures x < |s'.axis| && UnitOk(s', x)
  {
    var won := Won(|s.items|, want, mine, over);
    PrefixFails(s.axis, s'.axis, mine);
    assert s'.axis[..x] == s'.axis[..mine] + s'.axis[mine..x];
    CountConcat(s'.axis[..mine], s'.axis[mine..x], Failed);
  }

  lemma RecheckUnits(s: State, s': State, want: nat, mine: nat, over: nat)
    requires Inv(s) && mine + want <= |s.axis| && over <= Count(s.axis[..mine], Failed)
    requires forall i :: mine <= i < mine + want ==> s.axis[i] == Open
    requires s'.axis == Settle(s.axis, mine, want, Won(|s.items|, want, mine, over)) && s'.items == s.items
    ensures forall x {:trigger UnitOk(s', x)} :: 0 <= x < |s'.axis| ==> UnitOk(s', x)
  {
    forall x | 0 <= x < |s'.axis| ensures UnitOk(s', x) {
      if mine <= x < mine + want { SettledUnit(s, s', want, mine, over, x); }
      else { OutsideUnit(s, s', want, mine, over, x); }
    }
  }

  lemma SettledUnit(s: State, s': State, want: nat, mine: nat, over: nat, x: nat)
    requires Inv(s) && mine + want <= |s.axis| && over <= Count(s.axis[..mine], Failed)
    requires forall i :: mine <= i < mine + want ==> s.axis[i] == Open
    requires s'.axis == Settle(s.axis, mine, want, Won(|s.items|, want, mine, over)) && s'.items == s.items
    requires mine <= x < mine + want
    ensures x < |s'.axis| && UnitOk(s', x)
  {
    if x < mine + Won(|s.items|, want, mine, over) { WonUnit(s, s', want, mine, over, x); }
    else { assert s'.axis[x] == Failed; }
  }

  lemma OutsideUnit(s: State, s': State, want: nat, mine: nat, over: nat, x: nat)
    requires Inv(s) && mine + want <= |s.axis|
    requires forall i :: mine <= i < mine + want ==> s.axis[i] == Open
    requires s'.axis == Settle(s.axis, mine, want, Won(|s.items|, want, mine, over)) && s'.items == s.items
    requires x < |s'.axis| && !(mine <= x < mine + want)
    ensures UnitOk(s', x)
  {
    SettleOutside(s.axis, mine, want, Won(|s.items|, want, mine, over));
    assert s'.axis[x] == s.axis[x] && UnitOk(s, x);
    OldUnit(s, s', x);
  }

  /** Settling changes the reservation's own units only. */
  lemma SettleOutside(axis: seq<Fate>, lo: nat, want: nat, won: nat)
    requires won <= want && lo + want <= |axis|
    requires forall i :: lo <= i < lo + want ==> axis[i] == Open
    ensures |Settle(axis, lo, want, won)| == |axis| && AxisGrows(axis, Settle(axis, lo, want, won))
    ensures forall i {:trigger Settle(axis, lo, want, won)[i]} :: 0 <= i < |axis| && !(lo <= i < lo + want) ==>
              Settle(axis, lo, want, won)[i] == axis[i]
  {
  }

  lemma RecheckMoves(s: State, t: Thread, want: nat, mine: nat, over: nat)
    requires Inv(s) && t in s.pc && s.pc[t] == Recheck(want, mine, over)
    ensures Moves(s, DoRecheck(s, t, want, mine, over), t)
  {
    var s' := DoRecheck(s, t, want, mine, over);
    assert ThreadOk(s, t);
    SettleOutside(s.axis, mine, want, Won(|s.items|, want, mine, over));
    forall u | u in s.pc && u != t && s.pc[u].Recheck?
      ensures s.pc[u].mine + s.pc[u].want <= |s'.axis|
      ensures forall i :: s.pc[u].mine <= i < s.pc[u].mine + s.pc[u].want && i < |s.axis| ==> s'.axis[i] == s.axis[i]
    {
      assert ThreadOk(s, u) && Apart(s.pc[t], s.pc[u]);
    }
  }

  lemma RecheckKeeps(s: State, t: Thread, want: nat, mine: nat, over: nat)
    requires Inv(s) && t in s.pc && s.pc[t] == Recheck(want, mine, over)
    ensures Inv(DoRecheck(s, t, want, mine, over))
  {
    var s' := DoRecheck(s, t, want, mine, over);
    assert ThreadOk(s, t);
    RecheckCounters(s, t, want, mine, over);
    RecheckUnits(s, s', want, mine, over);
    RecheckMoves(s, t, want, mine, over);
    Assemble(s, s', t);
  }

  lemma RecheckCounters(s: State, t: Thread, want: nat, mine: nat, over: nat)
    requires Inv(s) && t in s.pc && s.pc[t] == Recheck(want, mine, over)
    ensures CountersOk(DoRecheck(s, t, want, mine, over))
  {
    var won, p := Won(|s.items|, want, mine, over), AfterRecheck(|s.items|, want, mine, over);
    assert ThreadOk(s, t);
    TotalsUpdate(s.pc, t, p);
    SettleCounts(s.axis, mine, want, won, Committed);
    SettleCounts(s.axis, mine, want, won, Failed);
    assert Claiming(p) == won && Failing(p) == want - won && Unresolved(p) == want;
  }

  lemma EnqueueKeeps(s: State, values: seq<Value>)
    requires Inv(s)
    ensures Inv(Do(s, Enqueue(values)))
  {
    var s' := Do(s, Enqueue(values));
    forall x | 0 <= x < |s'.axis| ensures UnitOk(s', x) { assert UnitOk(s, x); }
    forall u | u in s'.pc ensures ThreadOk(s', u) { assert ThreadOk(s, u); }
    forall u, v | u in s'.pc && v in s'.pc && u != v ensures Apart(s'.pc[u], s'.pc[v]) {
      assert Apart(s.pc[u], s.pc[v]);
    }
  }

  /** Loads and returns: nothing but the program counter changes. */
  lemma PcOnly(s: State, t: Thread, p: Pc)
    requires Inv(s) && t in s.pc && !p.Recheck? && ThreadOk(Goto(s, t, p), t)
    requires Unresolved(p) == Unresolved(s.pc[t]) == 0
    ensures Inv(Goto(s, t, p))
  {
    TotalsUpdate(s.pc, t, p);
    SameAxis(s, Goto(s, t, p), t);
  }

  lemma GiveBackKeeps(s: State, t: Thread, excess: nat, p: Pc)
    requires Inv(s) && t in s.pc
    requires (s.pc[t] == GiveBack(excess) && p == Idle) ||
             (p.Claim? && s.pc[t] == GiveBackPart(excess, p.actual))
    ensures Inv(Goto(s, t, p).(overcommit := s.overcommit + excess))
  {
    assert ThreadOk(s, t);
    TotalsUpdate(s.pc, t, p);
    SameAxis(s, Goto(s, t, p).(overcommit := s.overcommit + excess), t);
  }

  lemma GivingKeeps(s: State, t: Thread)
    requires Inv(s) && t in s.pc && (s.pc[t].GiveBack? || s.pc[t].GiveBackPart?)
    ensures Inv(Do(s, Step(t)))
  {
    var p := s.pc[t];
    GiveBackKeeps(s, t, p.excess, if p.GiveBack? then Idle else Claim(p.actual));
  }

  lemma ClaimKeeps(s: State, t: Thread, actual: nat)
    requires Inv(s) && t in s.pc && s.pc[t] == Claim(actual)
    ensures Inv(DoClaim(s, t, actual))
  {
    assert ThreadOk(s, t);
    TotalsUpdate(s.pc, t, Got(s.headIndex, actual));
    SameAxis(s, DoClaim(s, t, actual), t);
  }

  lemma LoadKeeps(s: State, t: Thread)
    requires Inv(s) && t in s.pc
    requires s.pc[t].ReadTail? || s.pc[t].ReadOvercommit? || s.pc[t].ReadOptimistic?
    ensures Inv(Do(s, Step(t)))
  {
    assert ThreadOk(s, t);
    var p := Do(s, Step(t)).pc[t];
    PcOnly(s, t, p);
  }

  lemma ThreadStepKeeps(s: State, t: Thread)
    requires Inv(s) && Enabled(s, Step(t))
    ensures Inv(Do(s, Step(t)))
  {
    match s.pc[t]
    case Reserve(want, over) => ReserveKeeps(s, t, want, over);
    case Recheck(want, mine, over) => RecheckKeeps(s, t, want, mine, over);
    case GiveBack(_) => GivingKeeps(s, t);
    case GiveBackPart(_, _) => GivingKeeps(s, t);
    case Claim(actual) => ClaimKeeps(s, t, actual);
    case Got(_, _) => PcOnly(s, t, Idle);
    case _ => LoadKeeps(s, t);
  }

  lemma StepKeeps(s: State, a: Action)
    requires Inv(s) && Enabled(s, a)
    ensures Inv(Do(s, a))
  {
    match a
    case Enqueue(values) => EnqueueKeeps(s, values);
    case CallDequeue(t, max) => PcOnly(s, t, ReadTail(max));
    case Step(t) => ThreadStepKeeps(s, t);
  }

  // ---------------------------------------------------------------------------
  // Theorems over every run
  // ---------------------------------------------------------------------------

  datatype Run = Start(last: State) | Then(prev: Run, action: Action, last: State)

  predicate IsRun(r: Run) {
    match r
    case Start(s) => Init(s)
    case Then(p, a, s) => IsRun(p) && Enabled(p.last, a) && s == Do(p.last, a)
  }

  lemma {:induction false} RunInvariant(r: Run)
    requires IsRun(r)
    ensures Inv(r.last)
  {
    match r
    case Start(s) =>
      TotalZero(s.pc, Unresolved);
      TotalZero(s.pc, Claiming);
      TotalZero(s.pc, Failing);
    case Then(p, a, s) =>
      RunInvariant(p);
      StepKeeps(p.last, a);
  }

  /** headIndex never passes tailIndex, not even when every claim decided so far is carried out. */
  lemma HeadNeverPassesTail(r: Run)
    requires IsRun(r)
    ensures r.last.headIndex + Total(r.last.pc, Claiming) <= |r.last.items|
  {
    RunInvariant(r);
    ClaimsFit(r.last);
  }

  /** The max of the call that thread t is in, or was in last. */
  function LastMax(r: Run, t: Thread): nat {
    if r.Start? then 0
    else if r.action.CallDequeue? && r.action.t == t then r.action.max
    else LastMax(r.prev, t)
  }

  /** A thread asks for no more than max, and for nothing only if max is 0. */
  predicate Asks(p: Pc, max: nat) {
    match p
    case ReadTail(m) => m == max
    case ReadOvercommit(m, _) => m == max
    case ReadOptimistic(m, _, _) => m == max
    case Reserve(want, _) => want <= max && (want == 0 ==> max == 0)
    case Recheck(want, _, _) => want <= max && (want == 0 ==> max == 0)
    case GiveBackPart(excess, actual) => excess + actual <= max && actual > 0
    case Claim(actual) => actual <= max && (actual == 0 ==> max == 0)
    case Got(_, count) => count <= max && (count == 0 ==> max == 0)
    case _ => true
  }

  lemma {:induction false} AsksItsMax(r: Run, t: Thread)
    requires IsRun(r) && t in r.last.pc
    ensures Asks(r.last.pc[t], LastMax(r, t))
  {
    if r.Then? {
      assert t in r.prev.last.pc;
      AsksItsMax(r.prev, t);
    }
  }

  /** A consumer about to add to headIndex may, and takes something unless its caller asked for nothing. */
  lemma ClaimIsAllowed(r: Run, t: Thread)
    requires IsRun(r) && t in r.last.pc && r.last.pc[t].Claim?
    ensures var s, actual := r.last, r.last.pc[t].actual;
            s.headIndex + actual <= |s.items| && actual <= LastMax(r, t) && (actual == 0 ==> LastMax(r, t) == 0)
  {
    HeadNeverPassesTail(r);
    TotalSplit(r.last.pc, Claiming, t);
    AsksItsMax(r, t);
  }

  /** The assertion at 2472 and 2695: the overcommit that was read is at most the count reserved from. */
  lemma OvercommitBelowMine(r: Run, t: Thread)
    requires IsRun(r) && t in r.last.pc && r.last.pc[t].Recheck?
    ensures r.last.pc[t].over <= r.last.pc[t].mine
  {
    RunInvariant(r);
    assert ThreadOk(r.last, t);
    CountSplit(r.last.axis[..r.last.pc[t].mine]);
  }

  predicate Took(p: Pc, i: nat) { p.Got? && p.first <= i < p.first + p.count }

  lemma TookIsRecorded(s: State, t: Thread, i: nat)
    requires Inv(s) && t in s.pc && Took(s.pc[t], i)
    ensures i < |s.claims| && s.claims[i] == t
  {
    assert ThreadOk(s, t);
  }

  /** Each index is claimed by one consumer, and only after it was enqueued. */
  lemma ClaimsAreDisjoint(r: Run, t: Thread, u: Thread, i: nat)
    requires IsRun(r) && t in r.last.pc && u in r.last.pc && Took(r.last.pc[t], i) && Took(r.last.pc[u], i)
    ensures t == u && i < |r.last.items|
  {
    RunInvariant(r);
    ClaimsFit(r.last);
    TookIsRecorded(r.last, t, i);
    TookIsRecorded(r.last, u, i);
  }

  /** What a consumer claimed once is never claimed again: the record of claims only grows. */
  lemma {:induction false} ClaimsOnlyGrow(r: Run, a: Action)
    requires IsRun(r) && Enabled(r.last, a)
    ensures |r.last.claims| == r.last.headIndex && r.last.claims <= Do(r.last, a).claims
    ensures r.last.items <= Do(r.last, a).items
  {
    RunInvariant(r);
  }

  /** Conservation: every reserved unit is claimed, given back, or still in some consumer's hands. */
  lemma CounterConservation(r: Run)
    requires IsRun(r)
    ensures r.last.optimistic == r.last.headIndex + r.last.overcommit + Total(r.last.pc, Unresolved)
  {
    RunInvariant(r);
  }

  predicate Quiescent(s: State) { forall t <- s.pc :: s.pc[t] == Idle || s.pc[t].Got? }

  /** ProducerBase::size_approx (1655-1660). */
  function SizeApprox(s: State): nat {
    if s.headIndex < |s.items| then |s.items| - s.headIndex else 0
  }

  /** With nobody between two accesses the counters agree, and size_approx is the number of unclaimed indices. */
  lemma QuiescentCountsAreExact(r: Run)
    requires IsRun(r) && Quiescent(r.last)
    ensures var s := r.last;
            && s.optimistic - s.overcommit == s.headIndex == |s.claims|
            && SizeApprox(s) == |s.items| - |s.claims|
  {
    RunInvariant(r);
    TotalZero(r.last.pc, Unresolved);
    ClaimsFit(r.last);
  }

  /** Thread t takes its next k steps, or fewer if it is done, while everybody else stands still. */
  function Alone(s: State, t: Thread, k: nat): State
    requires t in s.pc
    decreases k
  {
    if k == 0 || s.pc[t] == Idle then s else Alone(Do(s, Step(t)), t, k - 1)
  }

  lemma AloneStep(s: State, t: Thread, k: nat, s': State)
    requires t in s.pc && s.pc[t] != Idle && k > 0 && s' == Do(s, Step(t)) && t in s'.pc
    ensures Alone(s, t, k) == Alone(s', t, k - 1)
  {
  }

  lemma GotoTwice(s: State, t: Thread, p: Pc, q: Pc)
    ensures Goto(Goto(s, t, p), t, q) == Goto(s, t, q)
  {
    assert s.pc[t := p][t := q] == s.pc[t := q];
  }

  lemma AloneTail(s: State, t: Thread, max: nat, k: nat)
    requires t in s.pc && s.pc[t] == ReadTail(max) && k > 0
    ensures Alone(s, t, k) == Alone(Goto(s, t, ReadOvercommit(max, |s.items|)), t, k - 1)
  {
    AloneStep(s, t, k, Goto(s, t, ReadOvercommit(max, |s.items|)));
  }

  lemma AloneOvercommit(s: State, t: Thread, max: nat, tail: nat, k: nat)
    requires t in s.pc && k > 0
    ensures Alone(Goto(s, t, ReadOvercommit(max, tail)), t, k)
            == Alone(Goto(s, t, ReadOptimistic(max, tail, s.overcommit)), t, k - 1)
  {
    var s1, p := Goto(s, t, ReadOvercommit(max, tail)), ReadOptimistic(max, tail, s.overcommit);
    GotoTwice(s, t, s1.pc[t], p);
    AloneStep(s1, t, k, Goto(s, t, p));
  }

  function AfterReads(s: State, max: nat): Pc {
    var desired := |s.items| - (s.optimistic - s.overcommit);
    if 0 < desired then Reserve(Min(desired, max), s.overcommit) else Idle
  }

  lemma AloneOptimistic(s: State, t: Thread, max: nat, k: nat)
    requires t in s.pc && k > 0
    ensures Alone(Goto(s, t, ReadOptimistic(max, |s.items|, s.overcommit)), t, k)
            == Alone(Goto(s, t, AfterReads(s, max)), t, k - 1)
  {
    var s2 := Goto(s, t, ReadOptimistic(max, |s.items|, s.overcommit));
    GotoTwice(s, t, s2.pc[t], AfterReads(s, max));
    AloneStep(s2, t, k, Goto(s, t, AfterReads(s, max)));
  }

  lemma AloneReads(s: State, t: Thread, max: nat, k: nat)
    requires t in s.pc && s.pc[t] == ReadTail(max) && k >= 3
    ensures Alone(s, t, k) == Alone(Goto(s, t, AfterReads(s, max)), t, k - 3)
  {
    AloneTail(s, t, max, k);
    AloneOvercommit(s, t, max, |s.items|, k - 1);
    AloneOptimistic(s, t, max, k - 2);
  }

  lemma AloneClaims(s: State, t: Thread, want: nat, over: nat, k: nat)
    requires t in s.pc && s.pc[t] == Reserve(want, over) && k == 3
    requires 0 < |s.items| - (s.optimistic - over) && want <= |s.items| - (s.optimistic - over)
    ensures var s' := Alone(s, t, k);
            && t in s'.pc && s'.pc[t] == Got(s.headIndex, want) && s'.headIndex == s.headIndex + want
            && s'.items == s.items && s'.overcommit == s.overcommit
  {
    var s1 := DoReserve(s, t, want, over);
    var s2 := DoRecheck(s1, t, want, s.optimistic, over);
    var s3 := DoClaim(s2, t, want);
    assert Won(|s.items|, want, s.optimistic, over) == want;
    AloneStep(s, t, k, s1);
    AloneStep(s1, t, k - 1, s2);
    AloneStep(s2, t, k - 2, s3);
  }

  lemma AloneIdle(s: State, t: Thread, k: nat)
    requires t in s.pc && s.pc[t] == Idle
    ensures Alone(s, t, k) == s
  {
  }

  lemma AloneFromRest(q: State, t: Thread, max: nat, k: nat)
    requires t in q.pc && q.optimistic - q.overcommit == q.headIndex <= |q.items| && k == 6
    ensures var s' := Alone(Goto(q, t, ReadTail(max)), t, k);
            var left := |q.items| - q.headIndex;
            && t in s'.pc && s'.pc[t] == (if left > 0 then Got(q.headIndex, Min(left, max)) else Idle)
            && s'.headIndex == q.headIndex + Min(left, max)
            && s'.items == q.items && s'.overcommit == q.overcommit
  {
    var s, left := Goto(q, t, ReadTail(max)), |q.items| - q.headIndex;
    AloneReads(s, t, max, k);
    var p := AfterReads(s, max);
    if left > 0 { AloneClaims(Goto(s, t, p), t, Min(left, max), s.overcommit, k - 3); }
    else { AloneIdle(Goto(s, t, p), t, k - 3); }
  }

  /**
   A dequeue that nobody disturbs, with its six accesses, claims as many elements as there are, up to
   max, starting at the oldest; it comes back empty-handed exactly when the producer is empty.
   */
  lemma UndisturbedDequeue(r: Run, t: Thread, max: nat, k: nat)
    requires IsRun(r) && Quiescent(r.last) && Enabled(r.last, CallDequeue(t, max)) && k == 6
    ensures var s := r.last;
            var s' := Alone(Do(s, CallDequeue(t, max)), t, k);
            var left := |s.items| - s.headIndex;
            && t in s'.pc && s'.pc[t] == (if left > 0 then Got(s.headIndex, Min(left, max)) else Idle)
            && s'.headIndex == s.headIndex + Min(left, max)
            && s'.items == s.items && s'.overcommit == s.overcommit
  {
    QuiescentCountsAreExact(r);
    HeadNeverPassesTail(r);
    AloneFromRest(r.last, t, max, k);
  }
}
