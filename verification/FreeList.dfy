/**
 The reference-counted lock-free free list of blocks (concurrentqueue.h, `FreeList`).

 Every atomic load, store, compare-exchange and fetch_add is one step, any number of threads
 interleave their steps freely, and memory is sequentially consistent. A reference word is the
 32-bit value the code keeps: the low 31 bits count references, the top bit is
 SHOULD_BE_ON_FREELIST.

 `place` and `list` are auxiliary: no step of add or try_get reads them. `place` says who answers
 for a node; `list` is the sequence of nodes reached from the head.
 */
module FreeList {
  import opened Basics
  import opened BlockPool

  type Node = nat
  type Thread = nat

  datatype Ptr = Null | At(node: Node)

  const SHOULD_BE_ON_FREELIST := 0x8000_0000
  const WORD := 0x1_0000_0000

  /** Where add_knowing_refcount_is_zero returns to: add, or the loop of try_get with its head. */
  datatype Resume = Return | Retry(head: Ptr)

  /** The next atomic access of a thread, with the locals that are still live. */
  datatype Pc =
    | Idle
    | LoadHead                                            // 1383, 1388
    | LoadRefs(head: Node)                                // 1386
    | CasRefs(head: Node, expected: int)                  // 1387
    | LoadNext(head: Node)                                // 1394
    | CasHead(head: Node, successor: Ptr)                 // 1395
    | Take(head: Node)                                    // 1398-1402
    | Unref(prev: Node, observed: Ptr)                    // 1408
    | AddRefs(node: Node)                                 // 1371
    | PushLoad(node: Node, resume: Resume)                // 1431
    | PushNext(node: Node, top: Ptr, resume: Resume)      // 1433
    | PushRefs(node: Node, top: Ptr, resume: Resume)      // 1434
    | PushCas(node: Node, top: Ptr, resume: Resume)       // 1435
    | PushUndo(node: Node, top: Ptr, resume: Resume)      // 1437

  datatype Place = Owned | Adding(who: Thread) | Pushing(who: Thread) | Listed | Waiting | Taken(who: Thread)

  datatype State = State(
    head: Ptr,
    refs: map<Node, int>,
    next: map<Node, Ptr>,
    pc: map<Thread, Pc>,
    place: map<Node, Place>,
    list: seq<Node>)

  datatype Action =
    | Create(node: Node)                  // a block from the initial pool or the allocator
    | CallAdd(t: Thread, node: Node)      // the owner of a node calls add
    | CallTryGet(t: Thread)
    | Step(t: Thread)                     // the next atomic access of a running call

  /** Arithmetic on a std::uint32_t. */
  function Wrap32(x: int): (r: int)
    ensures 0 <= r < WORD
    ensures 0 <= x < WORD ==> r == x
    ensures -WORD <= x < 0 ==> r == x + WORD
  {
    x % WORD
  }

  /** The loop head of try_get (1384). */
  function Loop(head: Ptr): Pc {
    if head == Null then Idle else LoadRefs(head.node)
  }

  function After(r: Resume): Pc {
    if r == Return then Idle else Loop(r.head)
  }

  predicate Known(s: State, p: Ptr) { p.At? ==> p.node in s.place }

  /** The node a program counter works on, if any. */
  function Subject(p: Pc): Ptr {
    match p
    case Idle => Null
    case LoadHead => Null
    case LoadRefs(h) => At(h)
    case CasRefs(h, _) => At(h)
    case LoadNext(h) => At(h)
    case CasHead(h, _) => At(h)
    case Take(h) => At(h)
    case Unref(h, _) => At(h)
    case AddRefs(n) => At(n)
    case PushLoad(n, _) => At(n)
    case PushNext(n, _, _) => At(n)
    case PushRefs(n, _, _) => At(n)
    case PushCas(n, _, _) => At(n)
    case PushUndo(n, _, _) => At(n)
  }

  /** All the maps have the nodes as domain, and every pointer in sight names a node. */
  predicate TypeOk(s: State) {
    && s.refs.Keys == s.next.Keys == s.place.Keys
    && (forall t <- s.pc :: Known(s, Subject(s.pc[t])))
  }

  predicate Enabled(s: State, a: Action) {
    match a
    case Create(n) => n !in s.place
    case CallAdd(t, n) => t in s.pc && s.pc[t] == Idle && n in s.place && s.place[n] == Owned
    case CallTryGet(t) => t in s.pc && s.pc[t] == Idle
    case Step(t) => t in s.pc && s.pc[t] != Idle
  }

  function Goto(s: State, t: Thread, p: Pc): State { s.(pc := s.pc[t := p]) }

  function Do(s: State, a: Action): State
    requires TypeOk(s) && Enabled(s, a)
  {
    match a
    case Create(n) =>
      s.(refs := s.refs[n := 0], next := s.next[n := Null], place := s.place[n := Owned])
    case CallAdd(t, n) =>
      Goto(s, t, AddRefs(n)).(place := s.place[n := Adding(t)])
    case CallTryGet(t) =>
      Goto(s, t, LoadHead)
    case Step(t) =>
      assert Known(s, Subject(s.pc[t]));
      StepOf(s, t)
  }

  function StepOf(s: State, t: Thread): State
    requires TypeOk(s) && t in s.pc && s.pc[t] != Idle && Known(s, Subject(s.pc[t]))
  {
    match s.pc[t]
    case LoadHead => Goto(s, t, Loop(s.head))
    case LoadRefs(h) => Goto(s, t, Reffable(h, s.refs[h]))
    case CasRefs(h, r) => DoCasRefs(s, t, h, r)
    case LoadNext(h) => Goto(s, t, CasHead(h, s.next[h]))
    case CasHead(h, n) => DoCasHead(s, t, h, n)
    case Take(h) => DoTake(s, t, h)
    case Unref(h, observed) => DoUnref(s, t, h, observed)
    case AddRefs(n) => DoAddRefs(s, t, n)
    case PushLoad(n, r) => Goto(s, t, PushNext(n, s.head, r))
    case PushNext(n, top, r) => DoPushNext(s, t, n, top, r)
    case PushRefs(n, top, r) => DoPushRefs(s, t, n, top, r)
    case PushCas(n, top, r) => DoPushCas(s, t, n, top, r)
    case PushUndo(n, top, r) => DoPushUndo(s, t, n, top, r)
  }

  function Reffable(h: Node, refs: int): Pc {
    if refs % SHOULD_BE_ON_FREELIST == 0 then LoadHead else CasRefs(h, refs)
  }

  function DoCasRefs(s: State, t: Thread, h: Node, r: int): State
    requires h in s.refs
  {
    if s.refs[h] == r then Goto(s, t, LoadNext(h)).(refs := s.refs[h := Wrap32(r + 1)])
    else Goto(s, t, LoadHead)
  }

  function DoCasHead(s: State, t: Thread, h: Node, successor: Ptr): State {
    if s.head == At(h) then
      Goto(s, t, Take(h)).(head := successor,
                           place := s.place[h := Taken(t)],
                           list := if s.list == [] then [] else s.list[1..])
    else
      Goto(s, t, Unref(h, s.head))
  }

  function DoTake(s: State, t: Thread, h: Node): State
    requires h in s.refs
  {
    Goto(s, t, Idle).(refs := s.refs[h := Wrap32(s.refs[h] - 2)], place := s.place[h := Owned])
  }

  function DoUnref(s: State, t: Thread, h: Node, observed: Ptr): State
    requires h in s.refs
  {
    var s' := s.(refs := s.refs[h := Wrap32(s.refs[h] - 1)]);
    if s.refs[h] == SHOULD_BE_ON_FREELIST + 1 then
      Goto(s', t, PushLoad(h, Retry(observed))).(place := s.place[h := Pushing(t)])
    else
      Goto(s', t, Loop(observed))
  }

  function DoAddRefs(s: State, t: Thread, n: Node): State
    requires n in s.refs
  {
    var s' := s.(refs := s.refs[n := Wrap32(s.refs[n] + SHOULD_BE_ON_FREELIST)]);
    if s.refs[n] == 0 then Goto(s', t, PushLoad(n, Return)).(place := s.place[n := Pushing(t)])
    else Goto(s', t, Idle).(place := s.place[n := Waiting])
  }

  function DoPushNext(s: State, t: Thread, n: Node, top: Ptr, r: Resume): State {
    Goto(s, t, PushRefs(n, top, r)).(next := s.next[n := top])
  }

  function DoPushRefs(s: State, t: Thread, n: Node, top: Ptr, r: Resume): State {
    Goto(s, t, PushCas(n, top, r)).(refs := s.refs[n := 1])
  }

  function DoPushCas(s: State, t: Thread, n: Node, top: Ptr, r: Resume): State {
    if s.head == top then
      Goto(s, t, After(r)).(head := At(n), place := s.place[n := Listed], list := [n] + s.list)
    else
      Goto(s, t, PushUndo(n, s.head, r))
  }

  function DoPushUndo(s: State, t: Thread, n: Node, top: Ptr, r: Resume): State
    requires n in s.refs
  {
    var s' := s.(refs := s.refs[n := Wrap32(s.refs[n] + SHOULD_BE_ON_FREELIST - 1)]);
    if s.refs[n] == 1 then Goto(s', t, PushNext(n, top, r))
    else Goto(s', t, After(r)).(place := s.place[n := Waiting])
  }

  /** An empty list, no nodes yet, and every thread outside the list's operations. */
  predicate Init(s: State) {
    && s.head == Null && s.list == []
    && s.refs == map[] && s.next == map[] && s.place == map[]
    && (forall t <- s.pc :: s.pc[t] == Idle)
    && |s.pc| <= SHOULD_BE_ON_FREELIST - 2
  }

  // ---------------------------------------------------------------------------
  // The invariant
  // ---------------------------------------------------------------------------

  /** The node on which a thread holds a reference it took with CasRefs. */
  function RefOf(p: Pc): Ptr {
    match p
    case LoadNext(h) => At(h)
    case CasHead(h, _) => At(h)
    case Take(h) => At(h)
    case Unref(h, _) => At(h)
    case _ => Null
  }

  ghost function Holders(pc: map<Thread, Pc>, n: Node): set<Thread> {
    set t | t in pc && RefOf(pc[t]) == At(n)
  }

  /** The pusher has published refs == 1 and not yet taken it back. */
  predicate Published(p: Pc) { p.PushCas? || p.PushUndo? }

  predicate IsPush(p: Pc) { p.PushLoad? || p.PushNext? || p.PushRefs? || p.PushCas? || p.PushUndo? }

  /** 1 while the list's own reference is part of the count. */
  function ListRef(s: State, n: Node): nat
    requires n in s.place
  {
    match s.place[n]
    case Listed => 1
    case Taken(_) => 1
    case Pushing(t) => if t in s.pc && Published(s.pc[t]) then 1 else 0
    case _ => 0
  }

  /** The SHOULD_BE_ON_FREELIST bit: set while a node waits or its pusher has not published it. */
  predicate Flag(s: State, n: Node)
    requires n in s.place
  {
    match s.place[n]
    case Waiting => true
    case Pushing(t) => !(t in s.pc && Published(s.pc[t]))
    case _ => false
  }

  ghost predicate NodeOk(s: State, n: Node)
    requires n in s.place && n in s.refs
  {
    && s.refs[n] == (if Flag(s, n) then SHOULD_BE_ON_FREELIST else 0) + ListRef(s, n) + |Holders(s.pc, n)|
    && match s.place[n]
       case Adding(t) => t in s.pc && s.pc[t] == AddRefs(n)
       case Pushing(t) => t in s.pc && IsPush(s.pc[t]) && Subject(s.pc[t]) == At(n) &&
                          (!Published(s.pc[t]) ==> Holders(s.pc, n) == {})
       case Taken(t) => t in s.pc && s.pc[t] == Take(n)
       case Waiting => Holders(s.pc, n) != {}
       case _ => true
  }

  /** What thread t knows when it is at p. */
  predicate PcOk(s: State, t: Thread, p: Pc)
    requires s.next.Keys == s.place.Keys && Known(s, Subject(p))
  {
    && (p.CasRefs? ==> p.expected % SHOULD_BE_ON_FREELIST != 0)
    && (p.CasHead? ==> s.next[p.head] == p.successor)
    && (p.Take? ==> s.place[p.head] == Taken(t))
    && (p.AddRefs? ==> s.place[p.node] == Adding(t))
    && (IsPush(p) ==> s.place[p.node] == Pushing(t))
    && (p.PushRefs? || p.PushCas? ==> s.next[p.node] == p.top)
    && (p.Unref? ==> Known(s, p.observed))
    && (p.PushNext? || p.PushRefs? || p.PushCas? || p.PushUndo? ==> Known(s, p.top))
    && (IsPush(p) && p.resume.Retry? ==> Known(s, p.resume.head))
  }

  predicate ThreadOk(s: State, t: Thread)
    requires t in s.pc && TypeOk(s)
  {
    assert Known(s, Subject(s.pc[t]));
    PcOk(s, t, s.pc[t])
  }

  /** Following next from `head` visits exactly `list` and ends in Null. */
  predicate Chain(next: map<Node, Ptr>, head: Ptr, list: seq<Node>)
    decreases |list|
  {
    if list == [] then head == Null
    else head == At(list[0]) && list[0] in next && Chain(next, next[list[0]], list[1..])
  }

  ghost predicate ListOk(s: State) {
    && Chain(s.next, s.head, s.list)
    && NoDup(s.list)
    && (forall n <- s.list :: n in s.place && s.place[n] == Listed)
    && (forall n <- s.place :: s.place[n] == Listed ==> n in s.list)
    && Known(s, s.head)
    && (forall n <- s.next :: Known(s, s.next[n]))
  }

  ghost predicate Inv(s: State) {
    && TypeOk(s)
    && |s.pc| <= SHOULD_BE_ON_FREELIST - 2
    && (forall n {:trigger NodeOk(s, n)} :: n in s.place ==> NodeOk(s, n))
    && (forall t {:trigger ThreadOk(s, t)} :: t in s.pc ==> ThreadOk(s, t))
    && ListOk(s)
  }

  // ---------------------------------------------------------------------------
  // Facts about holders and chains
  // ---------------------------------------------------------------------------

  lemma HoldersBound(pc: map<Thread, Pc>, n: Node)
    ensures |Holders(pc, n)| <= |pc|
    ensures forall t :: t in pc && t !in Holders(pc, n) ==> |Holders(pc, n)| < |pc|
  {
    SubsetCard(Holders(pc, n), pc.Keys);
    forall t | t in pc && t !in Holders(pc, n) ensures |Holders(pc, n)| < |pc| {
      SubsetCard(Holders(pc, n), pc.Keys - {t});
    }
  }

  /** Moving one thread changes the holders of a node by at most that thread. */
  lemma HoldersUpdate(pc: map<Thread, Pc>, t: Thread, p: Pc, n: Node)
    requires t in pc
    ensures RefOf(p) == At(n) ==> Holders(pc[t := p], n) == Holders(pc, n) + {t}
    ensures RefOf(p) != At(n) ==> Holders(pc[t := p], n) == Holders(pc, n) - {t}
    ensures t in Holders(pc, n) <==> RefOf(pc[t]) == At(n)
    ensures |Holders(pc[t := p], n)| ==
            |Holders(pc, n)| + (if RefOf(p) == At(n) then 1 else 0) - (if RefOf(pc[t]) == At(n) then 1 else 0)
  {
    var h, h' := Holders(pc, n), Holders(pc[t := p], n);
    assert RefOf(p) == At(n) ==> h' == h + {t};
    assert RefOf(p) != At(n) ==> h' == h - {t};
    assert t in h <==> RefOf(pc[t]) == At(n);
  }

  lemma {:induction false} ChainFrame(next: map<Node, Ptr>, next': map<Node, Ptr>, head: Ptr, list: seq<Node>)
    requires Chain(next, head, list)
    requires forall n <- list :: n in next' && (n in next ==> next'[n] == next[n])
    ensures Chain(next', head, list)
    decreases |list|
  {
    if list != [] {
      ChainFrame(next, next', next[list[0]], list[1..]);
    }
  }

  // ---------------------------------------------------------------------------
  // Every step keeps the invariant
  // ---------------------------------------------------------------------------

  /** Thread t moves to p and keeps its role towards every node. */
  predicate SameRole(s: State, t: Thread, p: Pc)
    requires t in s.pc
  {
    && Known(s, Subject(p)) && RefOf(p) == RefOf(s.pc[t])
    && !s.pc[t].Take? && !s.pc[t].AddRefs?
    && IsPush(p) == IsPush(s.pc[t]) && Published(p) == Published(s.pc[t])
    && (IsPush(p) ==> Subject(p) == Subject(s.pc[t]))
  }

  lemma HoldersSame(pc: map<Thread, Pc>, t: Thread, p: Pc, n: Node)
    requires t in pc && (RefOf(p) == At(n) <==> RefOf(pc[t]) == At(n))
    ensures Holders(pc[t := p], n) == Holders(pc, n)
  {
  }

  lemma SameRoleNode(s: State, t: Thread, p: Pc, n: Node)
    requires TypeOk(s) && t in s.pc && SameRole(s, t, p) && n in s.place && NodeOk(s, n)
    ensures NodeOk(Goto(s, t, p), n)
  {
    HoldersSame(s.pc, t, p, n);
  }

  lemma SameRoleThread(s: State, t: Thread, p: Pc, u: Thread)
    requires TypeOk(s) && t in s.pc && SameRole(s, t, p) && u in s.pc && u != t && ThreadOk(s, u)
    ensures TypeOk(Goto(s, t, p)) && ThreadOk(Goto(s, t, p), u)
  {
  }

  lemma PcOnly(s: State, t: Thread, p: Pc)
    requires Inv(s) && t in s.pc && SameRole(s, t, p)
    requires PcOk(s, t, p)
    ensures Inv(Goto(s, t, p))
  {
    var s' := Goto(s, t, p);
    forall n <- s'.place ensures NodeOk(s', n) {
      SameRoleNode(s, t, p, n);
    }
    forall u <- s'.pc ensures ThreadOk(s', u) {
      if u != t { SameRoleThread(s, t, p, u); }
    }
    SameThreads(s.pc, t, p);
  }

  lemma SameThreads(pc: map<Thread, Pc>, t: Thread, p: Pc)
    requires t in pc
    ensures |pc[t := p]| == |pc|
  {
    assert pc[t := p].Keys == pc.Keys;
    assert |pc[t := p]| == |pc[t := p].Keys| == |pc.Keys|;
  }

  /** A step of thread t on node n: what has to be checked once the rest is framed. */
  ghost predicate Touches(s: State, s': State, t: Thread, n: Node)
    requires TypeOk(s) && TypeOk(s')
  {
    && t in s.pc && n in s.place && t in s'.pc && n in s'.place
    && s'.pc == s.pc[t := s'.pc[t]]
    && s'.refs == s.refs[n := s'.refs[n]]
    && s'.next == s.next[n := s'.next[n]]
    && s'.place == s.place[n := s'.place[n]]
    && (Subject(s.pc[t]) == At(n) || s.pc[t] == Idle)
    && RefOf(s'.pc[t]) in {Null, At(n)}
    && (s'.place[n] == s.place[n] || s.place[n] in {Owned, Listed, Waiting} || s.place[n].who == t)
    && (s'.next[n] == s.next[n] || (Holders(s.pc, n) == {} && s.place[n] == Pushing(t)))
  }

  lemma OtherNode(s: State, s': State, t: Thread, n: Node, m: Node)
    requires TypeOk(s) && TypeOk(s') && Touches(s, s', t, n) && m in s.place && m != n && NodeOk(s, m)
    ensures NodeOk(s', m)
  {
    HoldersSame(s.pc, t, s'.pc[t], m);
    assert s'.pc == s.pc[t := s'.pc[t]] && s'.refs[m] == s.refs[m] && s'.place[m] == s.place[m];
  }

  lemma OtherThread(s: State, s': State, t: Thread, n: Node, u: Thread)
    requires TypeOk(s) && TypeOk(s') && Touches(s, s', t, n) && u in s.pc && u != t && ThreadOk(s, u)
    ensures ThreadOk(s', u)
  {
    assert s'.pc[u] == s.pc[u];
    if RefOf(s.pc[u]) == At(n) {
      assert u in Holders(s.pc, n);
    }
  }

  lemma Assemble(s: State, s': State, t: Thread, n: Node)
    requires Inv(s) && TypeOk(s') && Touches(s, s', t, n)
    requires NodeOk(s', n) && ThreadOk(s', t) && ListOk(s')
    ensures Inv(s')
  {
    forall m <- s'.place ensures NodeOk(s', m) {
      if m != n { OtherNode(s, s', t, n, m); }
    }
    forall u <- s'.pc ensures ThreadOk(s', u) {
      if u != t { OtherThread(s, s', t, n, u); }
    }
    assert s'.pc.Keys == s.pc.Keys;
    assert |s'.pc| == |s'.pc.Keys| == |s.pc.Keys|;
  }

  /** A step that leaves the chain from the head alone. */
  lemma ListFrame(s: State, s': State, t: Thread, n: Node)
    requires TypeOk(s) && TypeOk(s') && Touches(s, s', t, n) && ListOk(s)
    requires s'.head == s.head && s'.list == s.list && Known(s, s'.next[n])
    requires s'.place[n].Listed? == s.place[n].Listed?
    requires s'.next[n] == s.next[n] || !s.place[n].Listed?
    ensures ListOk(s')
  {
    ChainFrame(s.next, s'.next, s.head, s.list);
  }

  lemma PopList(s: State, t: Thread, h: Node, successor: Ptr)
    requires TypeOk(s) && ListOk(s) && s.head == At(h) && h in s.next && s.next[h] == successor
    ensures ListOk(DoCasHead(s, t, h, successor)) && s.place[h] == Listed
  {
    assert s.list == [h] + s.list[1..];
  }

  lemma PushList(s: State, t: Thread, n: Node, r: Resume)
    requires TypeOk(s) && ListOk(s) && n in s.next && s.next[n] == s.head && !s.place[n].Listed?
    ensures ListOk(DoPushCas(s, t, n, s.head, r))
  {
    assert ([n] + s.list)[1..] == s.list;
  }

  lemma CasRefsLocal(s: State, t: Thread, h: Node, r: int)
    requires TypeOk(s) && t in s.pc && |s.pc| <= SHOULD_BE_ON_FREELIST - 2
    requires s.pc[t] == CasRefs(h, r) && h in s.place && NodeOk(s, h) && ThreadOk(s, t) && s.refs[h] == r
    ensures var s' := DoCasRefs(s, t, h, r);
            TypeOk(s') && Touches(s, s', t, h) && NodeOk(s', h) && ThreadOk(s', t)
  {
    CasRefsNode(s, t, h, r);
    CasRefsTouches(s, t, h, r);
  }

  lemma CasRefsTouches(s: State, t: Thread, h: Node, r: int)
    requires TypeOk(s) && t in s.pc && s.pc[t] == CasRefs(h, r) && h in s.place && s.refs[h] == r
    ensures TypeOk(DoCasRefs(s, t, h, r)) && Touches(s, DoCasRefs(s, t, h, r), t, h)
  {
  }

  /** The thread is one more holder, and its reference is counted. */
  lemma CasRefsNode(s: State, t: Thread, h: Node, r: int)
    requires TypeOk(s) && t in s.pc && |s.pc| <= SHOULD_BE_ON_FREELIST - 2
    requires s.pc[t] == CasRefs(h, r) && h in s.place && NodeOk(s, h) && ThreadOk(s, t) && s.refs[h] == r
    ensures NodeOk(DoCasRefs(s, t, h, r), h)
  {
    HoldersUpdate(s.pc, t, DoCasRefs(s, t, h, r).pc[t], h);
    HoldersBound(s.pc, h);
  }

  lemma CasRefsKeeps(s: State, t: Thread, h: Node, r: int)
    requires Inv(s) && t in s.pc && Known(s, Subject(s.pc[t])) && s.pc[t] == CasRefs(h, r) && h in s.place
             && s.refs[h] == r
    ensures Inv(StepOf(s, t))
  {
    assert ThreadOk(s, t) && NodeOk(s, h);
    var s' := DoCasRefs(s, t, h, r);
    CasRefsLocal(s, t, h, r);
    ListFrame(s, s', t, h);
    Assemble(s, s', t, h);
  }

  lemma CasHeadLocal(s: State, t: Thread, h: Node, successor: Ptr)
    requires TypeOk(s) && t in s.pc && |s.pc| <= SHOULD_BE_ON_FREELIST - 2
    requires s.pc[t] == CasHead(h, successor) && h in s.place && NodeOk(s, h) && ThreadOk(s, t) && s.head == At(h)
             && s.place[h] == Listed
    ensures var s' := DoCasHead(s, t, h, successor);
            TypeOk(s') && Touches(s, s', t, h) && NodeOk(s', h) && ThreadOk(s', t)
  {
    var s' := DoCasHead(s, t, h, successor);
    HoldersUpdate(s.pc, t, s'.pc[t], h);
  }

  lemma CasHeadKeeps(s: State, t: Thread, h: Node, successor: Ptr)
    requires Inv(s) && t in s.pc && Known(s, Subject(s.pc[t])) && s.pc[t] == CasHead(h, successor) && h in s.place
             && s.head == At(h)
    ensures Inv(StepOf(s, t))
  {
    assert ThreadOk(s, t) && NodeOk(s, h);
    var s' := DoCasHead(s, t, h, successor);
    PopList(s, t, h, successor);
    CasHeadLocal(s, t, h, successor);
    Assemble(s, s', t, h);
  }

  lemma TakeLocal(s: State, t: Thread, h: Node)
    requires TypeOk(s) && t in s.pc && |s.pc| <= SHOULD_BE_ON_FREELIST - 2
    requires s.pc[t] == Take(h) && h in s.place && NodeOk(s, h) && ThreadOk(s, t)
    ensures var s' := DoTake(s, t, h);
            TypeOk(s') && Touches(s, s', t, h) && NodeOk(s', h) && ThreadOk(s', t)
  {
    var s' := DoTake(s, t, h);
    HoldersUpdate(s.pc, t, s'.pc[t], h);
    HoldersBound(s.pc, h);
  }

  lemma TakeKeeps(s: State, t: Thread, h: Node)
    requires Inv(s) && t in s.pc && Known(s, Subject(s.pc[t])) && s.pc[t] == Take(h) && h in s.place
    ensures Inv(StepOf(s, t))
  {
    assert ThreadOk(s, t) && NodeOk(s, h);
    var s' := DoTake(s, t, h);
    TakeLocal(s, t, h);
    ListFrame(s, s', t, h);
    Assemble(s, s', t, h);
  }

  lemma UnrefTouches(s: State, t: Thread, h: Node, observed: Ptr)
    requires TypeOk(s) && t in s.pc && |s.pc| <= SHOULD_BE_ON_FREELIST - 2
    requires s.pc[t] == Unref(h, observed) && h in s.place && NodeOk(s, h) && ThreadOk(s, t)
    ensures var s' := DoUnref(s, t, h, observed);
            TypeOk(s') && s'.place[h].Listed? == s.place[h].Listed? && Touches(s, s', t, h)
  {
    HoldersBound(s.pc, h);
  }

  lemma UnrefLast(s: State, t: Thread, h: Node, observed: Ptr)
    requires TypeOk(s) && t in s.pc && |s.pc| <= SHOULD_BE_ON_FREELIST - 2
    requires s.pc[t] == Unref(h, observed) && h in s.place && s.refs[h] == SHOULD_BE_ON_FREELIST + 1
    requires NodeOk(s, h) && ThreadOk(s, t) && TypeOk(DoUnref(s, t, h, observed))
    ensures var s' := DoUnref(s, t, h, observed); h in s'.place && NodeOk(s', h)
  {
    var s' := DoUnref(s, t, h, observed);
    HoldersUpdate(s.pc, t, s'.pc[t], h);
    HoldersBound(s.pc, h);
  }

  lemma UnrefShared(s: State, t: Thread, h: Node, observed: Ptr)
    requires TypeOk(s) && t in s.pc && |s.pc| <= SHOULD_BE_ON_FREELIST - 2
    requires s.pc[t] == Unref(h, observed) && h in s.place && s.refs[h] != SHOULD_BE_ON_FREELIST + 1
    requires NodeOk(s, h) && ThreadOk(s, t) && TypeOk(DoUnref(s, t, h, observed))
    ensures var s' := DoUnref(s, t, h, observed); h in s'.place && NodeOk(s', h)
  {
    var s' := DoUnref(s, t, h, observed);
    HoldersUpdate(s.pc, t, s'.pc[t], h);
    HoldersBound(s.pc, h);
  }

  lemma UnrefThread(s: State, t: Thread, h: Node, observed: Ptr)
    requires TypeOk(s) && t in s.pc && |s.pc| <= SHOULD_BE_ON_FREELIST - 2
    requires s.pc[t] == Unref(h, observed) && h in s.place && NodeOk(s, h) && ThreadOk(s, t)
             && TypeOk(DoUnref(s, t, h, observed))
    ensures var s' := DoUnref(s, t, h, observed); t in s'.pc && ThreadOk(s', t)
  {
    HoldersBound(s.pc, h);
  }

  lemma UnrefKeeps(s: State, t: Thread, h: Node, observed: Ptr)
    requires Inv(s) && t in s.pc && Known(s, Subject(s.pc[t])) && s.pc[t] == Unref(h, observed) && h in s.place
    ensures Inv(StepOf(s, t))
  {
    assert ThreadOk(s, t) && NodeOk(s, h);
    var s' := DoUnref(s, t, h, observed);
    UnrefTouches(s, t, h, observed);
    if s.refs[h] == SHOULD_BE_ON_FREELIST + 1 { UnrefLast(s, t, h, observed); } else { UnrefShared(s, t, h, observed); }
    UnrefThread(s, t, h, observed);
    ListFrame(s, s', t, h);
    Assemble(s, s', t, h);
  }

  lemma AddRefsLast(s: State, t: Thread, n: Node)
    requires TypeOk(s) && t in s.pc && |s.pc| <= SHOULD_BE_ON_FREELIST - 2
    requires s.pc[t] == AddRefs(n) && n in s.place && NodeOk(s, n) && ThreadOk(s, t) && s.refs[n] == 0
    ensures var s' := DoAddRefs(s, t, n);
            TypeOk(s') && Touches(s, s', t, n) && NodeOk(s', n) && ThreadOk(s', t)
  {
    var s' := DoAddRefs(s, t, n);
    HoldersUpdate(s.pc, t, s'.pc[t], n);
    HoldersBound(s.pc, n);
  }

  lemma AddRefsTouches(s: State, t: Thread, n: Node)
    requires TypeOk(s) && t in s.pc && s.pc[t] == AddRefs(n) && n in s.place && NodeOk(s, n) && ThreadOk(s, t)
    ensures TypeOk(DoAddRefs(s, t, n)) && Touches(s, DoAddRefs(s, t, n), t, n)
  {
  }

  lemma AddRefsShared(s: State, t: Thread, n: Node)
    requires TypeOk(s) && t in s.pc && |s.pc| <= SHOULD_BE_ON_FREELIST - 2
    requires s.pc[t] == AddRefs(n) && n in s.place && NodeOk(s, n) && ThreadOk(s, t) && s.refs[n] != 0
    ensures var s' := DoAddRefs(s, t, n);
            TypeOk(s') && Touches(s, s', t, n) && NodeOk(s', n) && ThreadOk(s', t)
  {
    var s' := DoAddRefs(s, t, n);
    AddRefsTouches(s, t, n);
    HoldersUpdate(s.pc, t, s'.pc[t], n);
    HoldersBound(s.pc, n);
  }

  lemma AddRefsKeeps(s: State, t: Thread, n: Node)
    requires Inv(s) && t in s.pc && Known(s, Subject(s.pc[t])) && s.pc[t] == AddRefs(n) && n in s.place
    ensures Inv(StepOf(s, t))
  {
    assert ThreadOk(s, t) && NodeOk(s, n);
    var s' := DoAddRefs(s, t, n);
    if s.refs[n] == 0 { AddRefsLast(s, t, n); } else { AddRefsShared(s, t, n); }
    ListFrame(s, s', t, n);
    Assemble(s, s', t, n);
  }

  lemma PushNextLocal(s: State, t: Thread, n: Node, top: Ptr, r: Resume)
    requires TypeOk(s) && t in s.pc && |s.pc| <= SHOULD_BE_ON_FREELIST - 2
    requires s.pc[t] == PushNext(n, top, r) && n in s.place && NodeOk(s, n) && ThreadOk(s, t)
    ensures var s' := DoPushNext(s, t, n, top, r);
            TypeOk(s') && Touches(s, s', t, n) && NodeOk(s', n) && ThreadOk(s', t)
  {
    var s' := DoPushNext(s, t, n, top, r);
    HoldersUpdate(s.pc, t, s'.pc[t], n);
  }

  lemma PushNextKeeps(s: State, t: Thread, n: Node, top: Ptr, r: Resume)
    requires Inv(s) && t in s.pc && Known(s, Subject(s.pc[t])) && s.pc[t] == PushNext(n, top, r) && n in s.place
    ensures Inv(StepOf(s, t))
  {
    assert ThreadOk(s, t) && NodeOk(s, n);
    var s' := DoPushNext(s, t, n, top, r);
    PushNextLocal(s, t, n, top, r);
    ListFrame(s, s', t, n);
    Assemble(s, s', t, n);
  }

  lemma PushRefsLocal(s: State, t: Thread, n: Node, top: Ptr, r: Resume)
    requires TypeOk(s) && t in s.pc && |s.pc| <= SHOULD_BE_ON_FREELIST - 2
    requires s.pc[t] == PushRefs(n, top, r) && n in s.place && NodeOk(s, n) && ThreadOk(s, t)
    ensures var s' := DoPushRefs(s, t, n, top, r);
            TypeOk(s') && Touches(s, s', t, n) && NodeOk(s', n) && ThreadOk(s', t)
  {
    var s' := DoPushRefs(s, t, n, top, r);
    HoldersUpdate(s.pc, t, s'.pc[t], n);
  }

  lemma PushRefsKeeps(s: State, t: Thread, n: Node, top: Ptr, r: Resume)
    requires Inv(s) && t in s.pc && Known(s, Subject(s.pc[t])) && s.pc[t] == PushRefs(n, top, r) && n in s.place
    ensures Inv(StepOf(s, t))
  {
    assert ThreadOk(s, t) && NodeOk(s, n);
    var s' := DoPushRefs(s, t, n, top, r);
    PushRefsLocal(s, t, n, top, r);
    ListFrame(s, s', t, n);
    Assemble(s, s', t, n);
  }

  lemma PushCasTouches(s: State, t: Thread, n: Node, top: Ptr, r: Resume)
    requires TypeOk(s) && t in s.pc && s.pc[t] == PushCas(n, top, r) && n in s.place && NodeOk(s, n) && ThreadOk(s, t)
             && s.head == top
    ensures TypeOk(DoPushCas(s, t, n, top, r)) && Touches(s, DoPushCas(s, t, n, top, r), t, n)
  {
  }

  lemma PushCasLocal(s: State, t: Thread, n: Node, top: Ptr, r: Resume)
    requires TypeOk(s) && t in s.pc && |s.pc| <= SHOULD_BE_ON_FREELIST - 2
    requires s.pc[t] == PushCas(n, top, r) && n in s.place && NodeOk(s, n) && ThreadOk(s, t) && s.head == top
    requires TypeOk(DoPushCas(s, t, n, top, r))
    ensures var s' := DoPushCas(s, t, n, top, r); n in s'.place && t in s'.pc && NodeOk(s', n) && ThreadOk(s', t)
  {
    var s' := DoPushCas(s, t, n, top, r);
    HoldersUpdate(s.pc, t, s'.pc[t], n);
  }

  lemma PushCasKeeps(s: State, t: Thread, n: Node, top: Ptr, r: Resume)
    requires Inv(s) && t in s.pc && Known(s, Subject(s.pc[t])) && s.pc[t] == PushCas(n, top, r) && n in s.place
             && s.head == top
    ensures Inv(StepOf(s, t))
  {
    assert ThreadOk(s, t) && NodeOk(s, n);
    var s' := DoPushCas(s, t, n, top, r);
    PushCasTouches(s, t, n, top, r);
    PushCasLocal(s, t, n, top, r);
    PushList(s, t, n, r);
    Assemble(s, s', t, n);
  }

  lemma PushUndoRetries(s: State, t: Thread, n: Node, top: Ptr, r: Resume)
    requires TypeOk(s) && t in s.pc && |s.pc| <= SHOULD_BE_ON_FREELIST - 2
    requires s.pc[t] == PushUndo(n, top, r) && n in s.place && NodeOk(s, n) && ThreadOk(s, t) && s.refs[n] == 1
    ensures var s' := DoPushUndo(s, t, n, top, r);
            TypeOk(s') && Touches(s, s', t, n) && NodeOk(s', n) && ThreadOk(s', t)
  {
    var s' := DoPushUndo(s, t, n, top, r);
    HoldersUpdate(s.pc, t, s'.pc[t], n);
    HoldersBound(s.pc, n);
  }

  lemma PushUndoTouches(s: State, t: Thread, n: Node, top: Ptr, r: Resume)
    requires TypeOk(s) && t in s.pc && s.pc[t] == PushUndo(n, top, r) && n in s.place && NodeOk(s, n) && ThreadOk(s, t)
    ensures TypeOk(DoPushUndo(s, t, n, top, r)) && Touches(s, DoPushUndo(s, t, n, top, r), t, n)
  {
  }

  lemma PushUndoLeaves(s: State, t: Thread, n: Node, top: Ptr, r: Resume)
    requires TypeOk(s) && t in s.pc && |s.pc| <= SHOULD_BE_ON_FREELIST - 2
    requires s.pc[t] == PushUndo(n, top, r) && n in s.place && NodeOk(s, n) && ThreadOk(s, t) && s.refs[n] != 1
    requires TypeOk(DoPushUndo(s, t, n, top, r))
    ensures var s' := DoPushUndo(s, t, n, top, r); n in s'.place && t in s'.pc && NodeOk(s', n) && ThreadOk(s', t)
  {
    var s' := DoPushUndo(s, t, n, top, r);
    HoldersUpdate(s.pc, t, s'.pc[t], n);
    HoldersBound(s.pc, n);
  }

  lemma PushUndoKeeps(s: State, t: Thread, n: Node, top: Ptr, r: Resume)
    requires Inv(s) && t in s.pc && Known(s, Subject(s.pc[t])) && s.pc[t] == PushUndo(n, top, r) && n in s.place
    ensures Inv(StepOf(s, t))
  {
    assert ThreadOk(s, t) && NodeOk(s, n);
    var s' := DoPushUndo(s, t, n, top, r);
    PushUndoTouches(s, t, n, top, r);
    if s.refs[n] == 1 { PushUndoRetries(s, t, n, top, r); } else { PushUndoLeaves(s, t, n, top, r); }
    ListFrame(s, s', t, n);
    Assemble(s, s', t, n);
  }

  lemma CallAddLocal(s: State, t: Thread, n: Node)
    requires TypeOk(s) && Enabled(s, CallAdd(t, n)) && NodeOk(s, n)
    ensures var s' := Do(s, CallAdd(t, n));
            TypeOk(s') && Touches(s, s', t, n) && NodeOk(s', n) && ThreadOk(s', t)
  {
    HoldersUpdate(s.pc, t, AddRefs(n), n);
  }

  lemma CallAddKeeps(s: State, t: Thread, n: Node)
    requires Inv(s) && Enabled(s, CallAdd(t, n))
    ensures Inv(Do(s, CallAdd(t, n)))
  {
    var s' := Do(s, CallAdd(t, n));
    CallAddLocal(s, t, n);
    ListFrame(s, s', t, n);
    Assemble(s, s', t, n);
  }

  lemma NewNodeUnreferenced(s: State, n: Node)
    requires TypeOk(s) && n !in s.place
    ensures Holders(s.pc, n) == {}
  {
    forall t | t in s.pc ensures RefOf(s.pc[t]) != At(n) {
      assert Known(s, Subject(s.pc[t]));
    }
  }

  lemma CreateList(s: State, n: Node)
    requires TypeOk(s) && n !in s.place && ListOk(s)
    ensures ListOk(Do(s, Create(n)))
  {
    var s' := Do(s, Create(n));
    ChainFrame(s.next, s'.next, s.head, s.list);
  }

  lemma CreateNode(s: State, n: Node, m: Node)
    requires TypeOk(s) && n !in s.place && (m == n || (m in s.place && NodeOk(s, m)))
    ensures NodeOk(Do(s, Create(n)), m)
  {
    NewNodeUnreferenced(s, n);
  }

  lemma CreateThread(s: State, n: Node, u: Thread)
    requires TypeOk(s) && n !in s.place && u in s.pc && ThreadOk(s, u)
    ensures TypeOk(Do(s, Create(n))) && ThreadOk(Do(s, Create(n)), u)
  {
  }

  lemma CreateTypes(s: State, n: Node)
    requires TypeOk(s) && n !in s.place
    ensures TypeOk(Do(s, Create(n)))
  {
  }

  lemma CreateNodes(s: State, n: Node)
    requires TypeOk(s) && n !in s.place && forall m {:trigger NodeOk(s, m)} :: m in s.place ==> NodeOk(s, m)
    ensures var s' := Do(s, Create(n));
            && s'.refs.Keys == s'.place.Keys
            && forall m {:trigger NodeOk(s', m)} :: m in s'.place ==> NodeOk(s', m)
  {
    forall m <- Do(s, Create(n)).place ensures NodeOk(Do(s, Create(n)), m) {
      CreateNode(s, n, m);
    }
  }

  lemma CreateKeeps(s: State, n: Node)
    requires Inv(s) && n !in s.place
    ensures Inv(Do(s, Create(n)))
  {
    var s' := Do(s, Create(n));
    CreateTypes(s, n);
    CreateList(s, n);
    CreateNodes(s, n);
    forall u <- s'.pc ensures ThreadOk(s', u) {
      CreateThread(s, n, u);
    }
  }

  // Loads and failed compare-exchanges change only the program counter.

  lemma LoadHeadKeeps(s: State, t: Thread)
    requires Inv(s) && t in s.pc && Known(s, Subject(s.pc[t])) && s.pc[t].LoadHead?
    ensures Inv(StepOf(s, t))
  {
    PcOnly(s, t, Loop(s.head));
  }

  lemma LoadRefsKeeps(s: State, t: Thread, h: Node)
    requires Inv(s) && t in s.pc && Known(s, Subject(s.pc[t])) && s.pc[t] == LoadRefs(h) && h in s.refs
    ensures Inv(StepOf(s, t))
  {
    PcOnly(s, t, Reffable(h, s.refs[h]));
  }

  lemma LoadNextKeeps(s: State, t: Thread, h: Node)
    requires Inv(s) && t in s.pc && Known(s, Subject(s.pc[t])) && s.pc[t] == LoadNext(h) && h in s.next
    ensures Inv(StepOf(s, t))
  {
    PcOnly(s, t, CasHead(h, s.next[h]));
  }

  lemma PushLoadKeeps(s: State, t: Thread, n: Node, r: Resume)
    requires Inv(s) && t in s.pc && Known(s, Subject(s.pc[t])) && s.pc[t] == PushLoad(n, r)
    ensures Inv(StepOf(s, t))
  {
    assert ThreadOk(s, t) && Known(s, Subject(s.pc[t]));
    PcOnly(s, t, PushNext(n, s.head, r));
  }

  lemma CasRefsFails(s: State, t: Thread, h: Node, r: int)
    requires Inv(s) && t in s.pc && Known(s, Subject(s.pc[t])) && s.pc[t] == CasRefs(h, r) && s.refs[h] != r
    ensures Inv(StepOf(s, t))
  {
    PcOnly(s, t, LoadHead);
  }

  lemma CasHeadFails(s: State, t: Thread, h: Node, successor: Ptr)
    requires Inv(s) && t in s.pc && Known(s, Subject(s.pc[t])) && s.pc[t] == CasHead(h, successor) && s.head != At(h)
    ensures Inv(StepOf(s, t))
  {
    var p := Unref(h, s.head);
    assert SameRole(s, t, p) && PcOk(s, t, p);
    PcOnly(s, t, p);
  }

  lemma PushCasFails(s: State, t: Thread, n: Node, top: Ptr, r: Resume)
    requires Inv(s) && t in s.pc && Known(s, Subject(s.pc[t])) && s.pc[t] == PushCas(n, top, r) && s.head != top
    ensures Inv(StepOf(s, t))
  {
    assert ThreadOk(s, t) && Known(s, Subject(s.pc[t]));
    PcOnly(s, t, PushUndo(n, s.head, r));
  }

  lemma StepOfKeeps(s: State, t: Thread)
    requires Inv(s) && Enabled(s, Step(t)) && Known(s, Subject(s.pc[t]))
    ensures Inv(StepOf(s, t))
  {
    match s.pc[t]
    case LoadHead => LoadHeadKeeps(s, t);
    case LoadRefs(h) => LoadRefsKeeps(s, t, h);
    case CasRefs(h, r) => if s.refs[h] == r { CasRefsKeeps(s, t, h, r); } else { CasRefsFails(s, t, h, r); }
    case LoadNext(h) => LoadNextKeeps(s, t, h);
    case CasHead(h, n) => if s.head == At(h) { CasHeadKeeps(s, t, h, n); } else { CasHeadFails(s, t, h, n); }
    case Take(h) => TakeKeeps(s, t, h);
    case Unref(h, observed) => UnrefKeeps(s, t, h, observed);
    case AddRefs(n) => AddRefsKeeps(s, t, n);
    case PushLoad(n, r) => PushLoadKeeps(s, t, n, r);
    case PushNext(n, top, r) => PushNextKeeps(s, t, n, top, r);
    case PushRefs(n, top, r) => PushRefsKeeps(s, t, n, top, r);
    case PushCas(n, top, r) =>
      if s.head == top { PushCasKeeps(s, t, n, top, r); } else { PushCasFails(s, t, n, top, r); }
    case PushUndo(n, top, r) => PushUndoKeeps(s, t, n, top, r);
  }

  lemma StepKeeps(s: State, a: Action)
    requires Inv(s) && Enabled(s, a)
    ensures Inv(Do(s, a))
  {
    match a
    case Create(n) => CreateKeeps(s, n);
    case CallAdd(t, n) => CallAddKeeps(s, t, n);
    case CallTryGet(t) => PcOnly(s, t, LoadHead);
    case Step(t) =>
      assert Known(s, Subject(s.pc[t]));
      StepOfKeeps(s, t);
  }

  // ---------------------------------------------------------------------------
  // Theorems over every run
  // ---------------------------------------------------------------------------

  /**
   A finite run. A step is taken only where TypeOk holds, since the code would otherwise
   dereference a pointer that names no node; RunInvariant shows TypeOk in every state of a run,
   so no run is cut short by it.
   */
  datatype Run = Start(last: State) | Then(prev: Run, action: Action, last: State)

  predicate IsStep(s: State, a: Action, s': State) {
    TypeOk(s) && Enabled(s, a) && s' == Do(s, a)
  }

  predicate IsRun(r: Run) {
    match r
    case Start(s) => Init(s)
    case Then(p, a, s) => IsRun(p) && IsStep(p.last, a, s)
  }

  lemma {:induction false} RunInvariant(r: Run)
    requires IsRun(r)
    ensures Inv(r.last)
  {
    match r
    case Start(s) =>
    case Then(p, a, s) =>
      RunInvariant(p);
      StepKeeps(p.last, a);
  }

  /**
   The compare-exchange on the head took a node: the SHOULD_BE_ON_FREELIST bit is clear, nobody
   else has the node or is adding it, and it is off the list.
   */
  lemma TakenIsExclusive(r: Run, t: Thread, n: Node)
    requires IsRun(r) && t in r.last.pc && r.last.pc[t] == Take(n)
    ensures var s := r.last;
            && n in s.place && s.place[n] != Owned && n !in s.list
            && n in s.refs && 2 <= s.refs[n] < SHOULD_BE_ON_FREELIST
            && (forall u <- s.pc :: u != t ==>
                  s.pc[u] != Take(n) && s.pc[u] != AddRefs(n) && !(IsPush(s.pc[u]) && s.pc[u].node == n))
  {
    var s := r.last;
    RunInvariant(r);
    assert Known(s, Subject(s.pc[t])) && ThreadOk(s, t) && NodeOk(s, n);
    HoldersBound(s.pc, n);
    assert t in Holders(s.pc, n);
    forall u <- s.pc | u != t
      ensures s.pc[u] != Take(n) && s.pc[u] != AddRefs(n) && !(IsPush(s.pc[u]) && s.pc[u].node == n)
    {
      assert Known(s, Subject(s.pc[u])) && ThreadOk(s, u);
    }
  }

  /** try_get returns the node, or the allocator delivers it. */
  predicate HandsOut(s: State, a: Action, n: Node) {
    a == Create(n) || (a.Step? && a.t in s.pc && s.pc[a.t] == Take(n))
  }

  /** The clients' own view: handed out and not given back since. */
  predicate ClientOwns(r: Run, n: Node) {
    match r
    case Start(_) => false
    case Then(p, a, _) => HandsOut(p.last, a, n) || (ClientOwns(p, n) && !(a.CallAdd? && a.node == n))
  }

  predicate IsOwned(s: State, n: Node) { n in s.place && s.place[n] == Owned }

  lemma OwnedChange(s: State, a: Action, n: Node)
    requires Inv(s) && Enabled(s, a)
    ensures IsOwned(Do(s, a), n) <==> HandsOut(s, a, n) || (IsOwned(s, n) && !(a.CallAdd? && a.node == n))
    ensures HandsOut(s, a, n) ==> !IsOwned(s, n)
  {
    if a.Step? {
      assert ThreadOk(s, a.t) && Known(s, Subject(s.pc[a.t]));
      if Subject(s.pc[a.t]) == At(n) {
        assert NodeOk(s, n);
        OwnedStep(s, a.t, n);
      } else {
        StepTouchesSubject(s, a.t, n);
      }
    }
  }

  lemma StepTouchesSubject(s: State, t: Thread, n: Node)
    requires TypeOk(s) && t in s.pc && s.pc[t] != Idle && Known(s, Subject(s.pc[t]))
    requires Subject(s.pc[t]) != At(n)
    ensures n in StepOf(s, t).place <==> n in s.place
    ensures n in s.place ==> StepOf(s, t).place[n] == s.place[n]
    ensures s.pc[t] != Take(n)
  {
  }

  lemma OwnedStep(s: State, t: Thread, n: Node)
    requires TypeOk(s) && t in s.pc && s.pc[t] != Idle && n in s.place
    requires Subject(s.pc[t]) == At(n) && ThreadOk(s, t) && NodeOk(s, n) && ListOk(s)
    requires |s.pc| <= SHOULD_BE_ON_FREELIST - 2
    ensures IsOwned(StepOf(s, t), n) <==> s.pc[t] == Take(n) || IsOwned(s, n)
    ensures s.pc[t] == Take(n) ==> !IsOwned(s, n)
  {
    HoldersBound(s.pc, n);
  }

  lemma {:induction false} ClientOwnsIsOwned(r: Run, n: Node)
    requires IsRun(r)
    ensures ClientOwns(r, n) <==> IsOwned(r.last, n)
  {
    match r
    case Start(_) =>
    case Then(p, a, _) =>
      ClientOwnsIsOwned(p, n);
      RunInvariant(p);
      OwnedChange(p.last, a, n);
  }

  /** No node is handed to two owners: one that is handed out is in no client's hands. */
  lemma NoDoubleHandOut(r: Run, a: Action, n: Node)
    requires IsRun(r) && Enabled(r.last, a) && HandsOut(r.last, a, n)
    ensures !ClientOwns(r, n)
  {
    RunInvariant(r);
    ClientOwnsIsOwned(r, n);
    OwnedChange(r.last, a, n);
  }

  /** The free list as a pool: the nodes that were added and not handed out since. */
  function Pool(s: State): set<Node> { set n | n in s.place && s.place[n] != Owned }

  function EventOf(s: State, a: Action): PoolEvent {
    match a
    case CallAdd(_, n) => Gave(n)
    case Step(t) => if t in s.pc && s.pc[t].Take? then Took(s.pc[t].head) else Quiet
    case _ => Quiet
  }

  lemma SameNodes(s: State, a: Action, n: Node)
    requires TypeOk(s) && Enabled(s, a) && !a.Create?
    ensures n in Do(s, a).place <==> n in s.place
  {
  }

  lemma PoolMember(s: State, a: Action, n: Node)
    requires Inv(s) && Enabled(s, a)
    ensures n in Pool(Do(s, a)) <==> (n in Pool(s) && EventOf(s, a) != Took(n)) || EventOf(s, a) == Gave(n)
    ensures EventOf(s, a) == Took(n) ==> n in Pool(s)
  {
    OwnedChange(s, a, n);
    if a.Step? {
      assert ThreadOk(s, a.t) && Known(s, Subject(s.pc[a.t]));
    }
    if !a.Create? { SameNodes(s, a, n); }
  }

  /** The whole protocol refines a pool: a return of try_get takes a node of it, a call of add gives one. */
  lemma PoolRefines(r: Run, a: Action)
    requires IsRun(r) && Enabled(r.last, a)
    ensures TypeOk(r.last) && PoolStep(Pool(r.last), EventOf(r.last, a), Pool(Do(r.last, a)))
  {
    var s := r.last;
    RunInvariant(r);
    forall n ensures n in Pool(Do(s, a)) <==> (n in Pool(s) && EventOf(s, a) != Took(n)) || EventOf(s, a) == Gave(n) {
      PoolMember(s, a, n);
    }
    if EventOf(s, a).Took? { PoolMember(s, a, EventOf(s, a).block); }
  }

  lemma NextChange(s: State, t: Thread, n: Node)
    requires TypeOk(s) && t in s.pc && s.pc[t] != Idle && Known(s, Subject(s.pc[t])) && n in s.next
    requires !(s.pc[t].PushNext? && s.pc[t].node == n)
    ensures n in StepOf(s, t).next && StepOf(s, t).next[n] == s.next[n]
  {
  }

  /** freeListNext of a listed or referenced node does not change: the ABA-freedom of CasHead. */
  lemma NextIsStable(r: Run, a: Action, n: Node)
    requires IsRun(r) && Enabled(r.last, a) && n in r.last.next
    requires n in r.last.list || Holders(r.last.pc, n) != {}
    ensures TypeOk(r.last) && n in Do(r.last, a).next && Do(r.last, a).next[n] == r.last.next[n]
  {
    var s := r.last;
    RunInvariant(r);
    if a.Step? {
      assert ThreadOk(s, a.t) && Known(s, Subject(s.pc[a.t]));
      assert NodeOk(s, n);
      NextChange(s, a.t, n);
    }
  }

  lemma OnePusher(s: State, t: Thread, n: Node)
    requires Inv(s) && n in s.place && s.place[n] == Pushing(t)
    ensures forall u <- s.pc :: IsPush(s.pc[u]) && s.pc[u].node == n ==> u == t
  {
    forall u <- s.pc | IsPush(s.pc[u]) && s.pc[u].node == n ensures u == t {
      assert ThreadOk(s, u);
    }
  }

  /** Where a node is, as the reference count and the threads' positions tell it. */
  ghost predicate Accounted(s: State, n: Node)
    requires n in s.place
  {
    && n in s.refs
    && (n in s.list <==> s.place[n] == Listed)
    && match s.place[n]
       case Owned => s.refs[n] == |Holders(s.pc, n)|
       case Listed => s.refs[n] == 1 + |Holders(s.pc, n)|
       case Waiting => s.refs[n] == SHOULD_BE_ON_FREELIST + |Holders(s.pc, n)| && Holders(s.pc, n) != {}
       case Taken(t) => t in s.pc && s.pc[t] == Take(n)
       case Adding(t) => t in s.pc && s.pc[t] == AddRefs(n)
       case Pushing(t) => t in s.pc && IsPush(s.pc[t]) && s.pc[t].node == n &&
                          forall u <- s.pc :: IsPush(s.pc[u]) && s.pc[u].node == n ==> u == t
  }

  lemma AccountedAt(s: State, n: Node)
    requires Inv(s) && n in s.place
    ensures Accounted(s, n)
  {
    assert NodeOk(s, n);
    if s.place[n].Pushing? { OnePusher(s, s.place[n].who, n); }
  }

  /**
   Nothing is lost: a node that was added and not taken is on the list, or its adder or its one
   pusher is at work, or it waits for the threads that still reference it.
   */
  lemma NothingIsLost(r: Run, n: Node)
    requires IsRun(r) && n in r.last.place
    ensures Accounted(r.last, n)
  {
    RunInvariant(r);
    AccountedAt(r.last, n);
  }

  lemma {:induction false} OneHolder(h: set<Thread>, t: Thread)
    requires t in h
    ensures |h| == 1 <==> h == {t}
  {
    if |h| == 1 {
      assert |h - {t}| == 0;
      assert h - {t} == {};
    }
  }

  lemma LastUnref(s: State, t: Thread, n: Node, observed: Ptr)
    requires TypeOk(s) && n in s.place && NodeOk(s, n) && s.place[n] == Waiting
    requires t in s.pc && s.pc[t] == Unref(n, observed)
    ensures DoUnref(s, t, n, observed).place[n] == Pushing(t) <==> Holders(s.pc, n) == {t}
  {
    assert t in Holders(s.pc, n);
    OneHolder(Holders(s.pc, n), t);
  }

  /** The last reference to a waiting node is given up by the thread that then pushes it. */
  lemma LastHolderPushes(r: Run, t: Thread, n: Node)
    requires IsRun(r) && n in r.last.place && r.last.place[n] == Waiting
    requires t in r.last.pc && RefOf(r.last.pc[t]) == At(n)
    ensures var s := r.last;
            && TypeOk(s)
            && (s.pc[t].LoadNext? || s.pc[t].CasHead? || s.pc[t].Unref?)
            && (s.pc[t].CasHead? ==> s.head != At(n))
            && (s.pc[t].Unref? ==> n in Do(s, Step(t)).place &&
                                   (Do(s, Step(t)).place[n] == Pushing(t) <==> Holders(s.pc, n) == {t}))
  {
    var s := r.last;
    RunInvariant(r);
    assert NodeOk(s, n) && ThreadOk(s, t);
    assert s.pc[t].CasHead? && s.head == At(n) ==> n in s.list;
    if s.pc[t].Unref? { LastUnref(s, t, n, s.pc[t].observed); }
  }

  /**
   When no thread is inside an operation, the chain from the head is acyclic and holds exactly the
   nodes no client owns, each once, with reference count 1; owned nodes have count 0.
   */
  lemma QuiescentListIsExact(r: Run)
    requires IsRun(r) && forall t <- r.last.pc :: r.last.pc[t] == Idle
    ensures var s := r.last;
            && Chain(s.next, s.head, s.list) && NoDup(s.list)
            && (forall n <- s.place :: n in s.list <==> !ClientOwns(r, n))
            && (forall n <- s.place :: n in s.refs && s.refs[n] == if n in s.list then 1 else 0)
  {
    var s := r.last;
    RunInvariant(r);
    forall n <- s.place
      ensures n in s.list <==> !ClientOwns(r, n)
      ensures s.refs[n] == if n in s.list then 1 else 0
    {
      ClientOwnsIsOwned(r, n);
      assert NodeOk(s, n);
      assert Holders(s.pc, n) == {};
    }
  }
}
