/**
 From thread id to producer (concurrentqueue.h, `get_or_add_implicit_producer`): a lock-free
 open-addressing hash that grows by chaining bigger tables in front, into which threads copy their
 entries lazily.

 Any number of threads, any hash function, one shared atomic access per step, sequentially
 consistent memory; table and producer allocation may fail. Without thread-exit support no producer
 is ever inactive and no key is ever removed, so a producer is always created, never recycled.

 Auxiliary, read by no step: `order`, the ids now counted in the hash count, in the order of their
 increments; `rank`, the count each of them saw; `given`, the producer created for an id; `home`,
 the table an id was first inserted in; `holder`, who has the resize flag; in a table, `dist`: after
 how many probes an id's slot comes.
 */
module ProducerHash {
  import opened Basics
  import opened Modular
  import opened PowersOfTwo

  type Id = nat
  type Producer = nat
  type HashFunction = Id -> nat

  const EMPTY: Id := 0
  const INITIAL_IMPLICIT_PRODUCER_HASH_SIZE: nat := 32

  datatype Table = Table(capacity: nat, prev: int, keys: seq<Id>, values: seq<Producer>, dist: map<Id, nat>)

  /** `main`: the thread's mainHash; `m`: the table it probes; `k`: how many slots it has passed; `n`: newCount. */
  datatype Pc =
    | Idle
    | LoadMain                                                    // 3301
    | Find(main: nat, m: int, k: nat)                             // 3302-3342
    | Copy(main: nat, v: Producer, k: nat)                        // 3320
    | CopyCas(main: nat, v: Producer, k: nat)                     // 3327
    | CopyValue(main: nat, v: Producer, k: nat)                   // 3329
    | Increment(main: nat)                                        // 3346
    | Test(main: nat, n: int)                                     // 3348
    | Reload(n: int)                                              // 3353
    | Enlarge(main: nat, n: int)                                  // 3354-3375
    | Unlock(main: nat, n: int)                                   // 3376, 3380
    | GiveUp(n: int)                                              // 3362
    | GiveUpUnlock                                                // 3363
    | Create(main: nat, n: int)                                   // 3387-3390, 3428
    | NoProducer(n: int)                                          // 3391
    | Insert(main: nat, n: int, p: Producer, k: nat)              // 3407
    | InsertCas(main: nat, n: int, p: Producer, k: nat)           // 3415
    | InsertValue(main: nat, p: Producer, k: nat)                 // 3417
    | Return(result: Option<Producer>)                            // 3336, 3364, 3392, 3422

  datatype State = State(
    hash: HashFunction,
    tables: seq<Table>,
    main: nat,
    count: int,
    resizing: bool,
    nextProducer: Producer,
    pc: map<Id, Pc>,
    order: seq<Id>,
    rank: map<Id, int>,
    given: map<Id, Producer>,
    home: map<Id, nat>,
    holder: Option<Id>)

  datatype Action = Call(id: Id) | Step(id: Id, ok: bool)

  /** The slot after k probes (MaskIsModulo: the masking by capacity - 1 is this remainder). */
  function Probe(hash: HashFunction, id: Id, capacity: nat, k: nat): nat
    requires capacity > 0
  {
    (hash(id) + k) % capacity
  }

  /** Three quarters of the capacity (3387). */
  function Limit(capacity: nat): nat { capacity / 2 + capacity / 4 }

  predicate TableShaped(t: Table) {
    t.capacity > 0 && |t.keys| == t.capacity && |t.values| == t.capacity
  }

  function KeyAt(hash: HashFunction, t: Table, id: Id, k: nat): Id
    requires TableShaped(t)
  {
    t.keys[Probe(hash, id, t.capacity, k)]
  }

  predicate HasMain(p: Pc) {
    !p.Idle? && !p.LoadMain? && !p.Reload? && !p.GiveUp? && !p.GiveUpUnlock? && !p.NoProducer? && !p.Return?
  }

  predicate PcShaped(p: Pc, tables: nat) {
    && (HasMain(p) ==> p.main < tables)
    && (p.Find? ==> -1 <= p.m < tables)
  }

  predicate TablesShaped(tables: seq<Table>) {
    forall j {:trigger tables[j]} :: 0 <= j < |tables| ==> TableShaped(tables[j])
  }

  predicate Shaped(s: State) {
    && s.main < |s.tables| && TablesShaped(s.tables)
    && (forall j {:trigger s.tables[j]} :: 0 <= j < |s.tables| ==> -1 <= s.tables[j].prev < |s.tables|)
    && (forall id {:trigger s.pc[id]} :: id in s.pc ==> PcShaped(s.pc[id], |s.tables|))
  }

  predicate Enabled(s: State, a: Action) {
    a.id in s.pc && (a.Call? <==> s.pc[a.id] == Idle)
  }

  // ---------------------------------------------------------------------------
  // Steps
  // ---------------------------------------------------------------------------

  /** The capacity of the next table: doubled until newCount is below half of it (3355-3358). */
  function Doubled(capacity: nat, n: int): nat
    requires capacity > 0
    decreases n - capacity / 2
  {
    if n < capacity / 2 then capacity else Doubled(2 * capacity, n)
  }

  function NewTable(capacity: nat, prev: int): Table {
    Table(capacity, prev, seq(capacity, _ => EMPTY), seq(capacity, _ => 0), map[])
  }

  function Goto(s: State, id: Id, p: Pc): State { s.(pc := s.pc[id := p]) }

  /** id takes the slot after k probes, which is empty. */
  function WithKey(hash: HashFunction, t: Table, id: Id, k: nat): Table
    requires TableShaped(t)
  {
    t.(keys := t.keys[Probe(hash, id, t.capacity, k) := id], dist := t.dist[id := k])
  }

  function WithValue(hash: HashFunction, t: Table, id: Id, k: nat, v: Producer): Table
    requires TableShaped(t)
  {
    t.(values := t.values[Probe(hash, id, t.capacity, k) := v])
  }

  /** order without id. */
  function Without(order: seq<Id>, id: Id): seq<Id> {
    if order == [] then []
    else if order[|order| - 1] == id then order[..|order| - 1]
    else Without(order[..|order| - 1], id) + [order[|order| - 1]]
  }

  function DoFind(s: State, id: Id, main: nat, m: int, k: nat): State
    requires Shaped(s) && -1 <= m < |s.tables|
  {
    if m < 0 then Goto(s, id, Increment(main))
    else
      var t := s.tables[m];
      var key := KeyAt(s.hash, t, id, k);
      if key == id then
        var v := t.values[Probe(s.hash, id, t.capacity, k)];
        Goto(s, id, if m != main then Copy(main, v, 0) else Return(Some(v)))
      else if key == EMPTY then Goto(s, id, Find(main, t.prev, 0))
      else Goto(s, id, Find(main, m, k + 1))
  }

  function DoEnlarge(s: State, id: Id, main: nat, n: int, ok: bool): State
    requires Shaped(s) && main < |s.tables|
  {
    var capacity := s.tables[main].capacity;
    if n < capacity / 2 then Goto(s, id, Unlock(main, n))
    else if !ok then Goto(s, id, GiveUp(n))
    else Goto(s, id, Unlock(|s.tables|, n))
           .(tables := s.tables + [NewTable(Doubled(2 * capacity, n), main)], main := |s.tables|)
  }

  function DoCreate(s: State, id: Id, main: nat, n: int, ok: bool): State
    requires Shaped(s) && main < |s.tables|
  {
    if n >= Limit(s.tables[main].capacity) then Goto(s, id, Test(s.main, n))
    else if !ok then Goto(s, id, NoProducer(n))
    else Goto(s, id, Insert(main, n, s.nextProducer, 0))
           .(nextProducer := s.nextProducer + 1, given := s.given[id := s.nextProducer])
  }

  function DoCopyCas(s: State, id: Id, main: nat, v: Producer, k: nat): State
    requires Shaped(s) && main < |s.tables|
  {
    if KeyAt(s.hash, s.tables[main], id, k) != EMPTY then Goto(s, id, Copy(main, v, k + 1))
    else Goto(s, id, CopyValue(main, v, k)).(tables := s.tables[main := WithKey(s.hash, s.tables[main], id, k)])
  }

  function DoInsertCas(s: State, id: Id, main: nat, n: int, p: Producer, k: nat): State
    requires Shaped(s) && main < |s.tables|
  {
    if KeyAt(s.hash, s.tables[main], id, k) != EMPTY then Goto(s, id, Insert(main, n, p, k + 1))
    else Goto(s, id, InsertValue(main, p, k))
           .(tables := s.tables[main := WithKey(s.hash, s.tables[main], id, k)], home := s.home[id := main])
  }

  /** The value goes into the slot that id took, and is returned. */
  function Stored(s: State, id: Id, main: nat, k: nat, v: Producer): State
    requires Shaped(s) && main < |s.tables|
  {
    Goto(s, id, Return(Some(v))).(tables := s.tables[main := WithValue(s.hash, s.tables[main], id, k, v)])
  }

  function DoIncrement(s: State, id: Id, main: nat): State {
    Goto(s, id, Test(main, s.count + 1))
      .(count := s.count + 1, order := s.order + [id], rank := s.rank[id := s.count + 1])
  }

  function DoDecrement(s: State, id: Id, q: Pc): State {
    Goto(s, id, q).(count := s.count - 1, order := Without(s.order, id))
  }

  function DoTest(s: State, id: Id, main: nat, n: int): State
    requires Shaped(s) && main < |s.tables|
  {
    if n >= s.tables[main].capacity / 2 && !s.resizing then
      Goto(s, id, Reload(n)).(resizing := true, holder := Some(id))
    else Goto(s, id, Create(main, n))
  }

  function DoUnlock(s: State, id: Id, q: Pc): State { Goto(s, id, q).(resizing := false, holder := None) }

  // Lookup and lazy copy; counting and resizing; adding

  predicate Looking(p: Pc) { p.Idle? || p.LoadMain? || p.Find? || p.Copy? || p.CopyCas? || p.CopyValue? || p.Return? }

  predicate Resizing(p: Pc) {
    p.Increment? || p.Test? || p.Reload? || p.Enlarge? || p.Unlock? || p.GiveUp? || p.GiveUpUnlock?
  }

  predicate Adding(p: Pc) { p.Create? || p.NoProducer? || p.Insert? || p.InsertCas? || p.InsertValue? }

  function DoLooking(s: State, id: Id): State
    requires Shaped(s) && id in s.pc && PcShaped(s.pc[id], |s.tables|) && Looking(s.pc[id])
  {
    match s.pc[id]
    case Idle => Goto(s, id, LoadMain)
    case LoadMain => Goto(s, id, Find(s.main, s.main, 0))
    case Find(main, m, k) => DoFind(s, id, main, m, k)
    case Copy(main, v, k) =>
      Goto(s, id, if KeyAt(s.hash, s.tables[main], id, k) == EMPTY then CopyCas(main, v, k) else Copy(main, v, k + 1))
    case CopyCas(main, v, k) => DoCopyCas(s, id, main, v, k)
    case CopyValue(main, v, k) => Stored(s, id, main, k, v)
    case Return(_) => Goto(s, id, Idle)
  }

  function DoResizing(s: State, id: Id, ok: bool): State
    requires Shaped(s) && id in s.pc && PcShaped(s.pc[id], |s.tables|) && Resizing(s.pc[id])
  {
    match s.pc[id]
    case Increment(main) => DoIncrement(s, id, main)
    case Test(main, n) => DoTest(s, id, main, n)
    case Reload(n) => Goto(s, id, Enlarge(s.main, n))
    case Enlarge(main, n) => DoEnlarge(s, id, main, n, ok)
    case Unlock(main, n) => DoUnlock(s, id, Create(main, n))
    case GiveUp(n) => DoDecrement(s, id, GiveUpUnlock)
    case GiveUpUnlock => DoUnlock(s, id, Return(None))
  }

  function DoAdding(s: State, id: Id, ok: bool): State
    requires Shaped(s) && id in s.pc && PcShaped(s.pc[id], |s.tables|) && Adding(s.pc[id])
  {
    match s.pc[id]
    case Create(main, n) => DoCreate(s, id, main, n, ok)
    case NoProducer(n) => DoDecrement(s, id, Return(None))
    case Insert(main, n, p, k) =>
      Goto(s, id, if KeyAt(s.hash, s.tables[main], id, k) == EMPTY then InsertCas(main, n, p, k)
                  else Insert(main, n, p, k + 1))
    case InsertCas(main, n, p, k) => DoInsertCas(s, id, main, n, p, k)
    case InsertValue(main, p, k) => Stored(s, id, main, k, p)
  }

  function Do(s: State, a: Action): State
    requires Shaped(s) && Enabled(s, a)
  {
    assert PcShaped(s.pc[a.id], |s.tables|);
    if Looking(s.pc[a.id]) then DoLooking(s, a.id)
    else if Resizing(s.pc[a.id]) then DoResizing(s, a.id, a.ok)
    else DoAdding(s, a.id, a.ok)
  }

  // ---------------------------------------------------------------------------
  // The invariant
  // ---------------------------------------------------------------------------

  /** A slot's key has this slot as its place. */
  predicate KeyOk(hash: HashFunction, t: Table, i: nat)
    requires TableShaped(t) && i < t.capacity
  {
    t.keys[i] != EMPTY ==> t.keys[i] in t.dist && Probe(hash, t.keys[i], t.capacity, t.dist[t.keys[i]]) == i
  }

  /** An id's place has it for key, and the slots probed before it are filled. */
  predicate DistOk(hash: HashFunction, t: Table, id: Id)
    requires TableShaped(t) && id in t.dist
  {
    && id != EMPTY && KeyAt(hash, t, id, t.dist[id]) == id
    && Passed(hash, t, id, t.dist[id])
  }

  /** The first k slots of id's probe sequence are filled. */
  predicate Passed(hash: HashFunction, t: Table, id: Id, k: nat)
    requires TableShaped(t)
  {
    forall i {:trigger KeyAt(hash, t, id, i)} :: 0 <= i < k ==> KeyAt(hash, t, id, i) != EMPTY
  }

  /** An id in a table has a producer and was counted below the table's limit. */
  predicate MemberOk(t: Table, home: map<Id, nat>, rank: map<Id, int>, j: nat, id: Id) {
    id in t.dist ==> id in home && home[id] <= j && id in rank && rank[id] < Limit(t.capacity)
  }

  ghost predicate TableOk(hash: HashFunction, t: Table, home: map<Id, nat>, rank: map<Id, int>, j: nat) {
    && TableShaped(t) && t.prev == j - 1
    && (forall i {:trigger KeyOk(hash, t, i)} :: 0 <= i < t.capacity ==> KeyOk(hash, t, i))
    && (forall id {:trigger DistOk(hash, t, id)} :: id in t.dist ==> DistOk(hash, t, id))
    && (forall id {:trigger MemberOk(t, home, rank, j, id)} :: MemberOk(t, home, rank, j, id))
  }

  ghost predicate TablesOk(hash: HashFunction, tables: seq<Table>, home: map<Id, nat>, rank: map<Id, int>) {
    && (forall j {:trigger TableOk(hash, tables[j], home, rank, j)} :: 0 <= j < |tables| ==>
          TableOk(hash, tables[j], home, rank, j))
    && (forall i, j {:trigger tables[i], tables[j]} :: 0 <= i < j < |tables| ==>
          tables[i].capacity <= tables[j].capacity)
    && (forall j {:trigger tables[j]} :: 0 <= j < |tables| ==> IsPow2(tables[j].capacity) && tables[j].capacity >= 4)
  }

  /** The k-th counted id saw a count above k when it was counted. */
  predicate RankOk(order: seq<Id>, rank: map<Id, int>, k: nat)
    requires k < |order|
  {
    order[k] in rank && rank[order[k]] > k
  }

  predicate OrderOk(order: seq<Id>, rank: map<Id, int>, count: int) {
    && NoDup(order) && |order| == count
    && forall k {:trigger RankOk(order, rank, k)} :: 0 <= k < |order| ==> RankOk(order, rank, k)
  }

  ghost predicate GivenOk(given: map<Id, Producer>, nextProducer: Producer, order: seq<Id>, home: map<Id, nat>,
                          tables: seq<Table>) {
    && (forall id {:trigger given[id]} :: id in given ==> given[id] < nextProducer && id in order)
    && (forall id, id' {:trigger given[id], given[id']} :: id in given && id' in given && id != id' ==>
          given[id] != given[id'])
    && (forall id {:trigger home[id]} :: id in home ==>
          id in given && home[id] < |tables| && id in tables[home[id]].dist)
  }

  predicate Holds(p: Pc) { p.Reload? || p.Enlarge? || p.Unlock? || p.GiveUp? || p.GiveUpUnlock? }

  predicate SlotOf(t: Table, id: Id, k: nat) { id in t.dist && t.dist[id] == k }

  /** What holds of id outside the steps that insert it: it was inserted if it has a producer, else not counted. */
  predicate Settled(id: Id, order: seq<Id>, given: map<Id, Producer>, home: map<Id, nat>) {
    (id in given <==> id in home) && (id in order <==> id in given)
  }

  /** id is counted as the n-th, and has no producer yet. */
  predicate Pending(id: Id, n: int, order: seq<Id>, rank: map<Id, int>, given: map<Id, Producer>, home: map<Id, nat>) {
    id !in given && id !in home && id in order && id in rank && rank[id] == n
  }

  predicate ThreadOk(p: Pc, id: Id, hash: HashFunction, tables: seq<Table>, order: seq<Id>, rank: map<Id, int>,
                     given: map<Id, Producer>, home: map<Id, nat>)
    requires TablesShaped(tables) && PcShaped(p, |tables|)
  {
    match p
    case Find(main, m, k) =>
      && Settled(id, order, given, home) && m <= main
      && (id in home ==> home[id] <= m)
      && (m >= 0 ==> Passed(hash, tables[m], id, k) && (SlotAhead(tables[m], id, k)))
      && (m < main ==> id !in tables[main].dist)
    case Copy(main, v, k) => Copying(id, tables, order, given, home, main, v) && Passed(hash, tables[main], id, k)
    case CopyCas(main, v, k) => Copying(id, tables, order, given, home, main, v) && Passed(hash, tables[main], id, k)
    case CopyValue(main, v, k) =>
      Settled(id, order, given, home) && id in given && given[id] == v && SlotOf(tables[main], id, k)
    case Increment(main) => Settled(id, order, given, home) && id !in given
    case Test(_, n) => Pending(id, n, order, rank, given, home)
    case Reload(n) => Pending(id, n, order, rank, given, home)
    case Enlarge(main, n) => Pending(id, n, order, rank, given, home) && main == |tables| - 1
    case Unlock(_, n) => Pending(id, n, order, rank, given, home)
    case GiveUp(n) => Pending(id, n, order, rank, given, home)
    case GiveUpUnlock => Settled(id, order, given, home) && id !in given
    case Create(_, n) => Pending(id, n, order, rank, given, home)
    case NoProducer(n) => Pending(id, n, order, rank, given, home)
    case Insert(main, n, p, k) =>
      Inserting(id, tables, order, rank, given, home, main, n, p) && Passed(hash, tables[main], id, k)
    case InsertCas(main, n, p, k) =>
      Inserting(id, tables, order, rank, given, home, main, n, p) && Passed(hash, tables[main], id, k)
    case InsertValue(main, p, k) =>
      Settled(id, order, given, home) && id in given && given[id] == p && SlotOf(tables[main], id, k)
    case Return(r) => Settled(id, order, given, home) && (r.Some? ==> id in given && given[id] == r.value)
    case _ => Settled(id, order, given, home)
  }

  /** If id is in t, its slot has not been passed yet. */
  predicate SlotAhead(t: Table, id: Id, k: nat) { id in t.dist ==> k <= t.dist[id] }

  predicate Copying(id: Id, tables: seq<Table>, order: seq<Id>, given: map<Id, Producer>, home: map<Id, nat>, main: nat,
                    v: Producer)
    requires main < |tables|
  {
    Settled(id, order, given, home) && id in given && given[id] == v && home[id] < main && id !in tables[main].dist
  }

  predicate Inserting(id: Id, tables: seq<Table>, order: seq<Id>, rank: map<Id, int>, given: map<Id, Producer>,
                      home: map<Id, nat>, main: nat, n: int, p: Producer)
    requires main < |tables|
  {
    && id in given && given[id] == p && id !in home && id in order && id in rank && rank[id] == n
    && n < Limit(tables[main].capacity)
  }

  /** An id's value is there, unless the id is just about to store it. */
  predicate ValueOk(hash: HashFunction, tables: seq<Table>, given: map<Id, Producer>, pc: map<Id, Pc>, j: nat, id: Id)
    requires j < |tables| && TablesShaped(tables)
  {
    id in tables[j].dist && id in given
      && !(id in pc && (pc[id].CopyValue? || pc[id].InsertValue?) && pc[id].main == j) ==>
      tables[j].values[Probe(hash, id, tables[j].capacity, tables[j].dist[id])] == given[id]
  }

  ghost predicate ValuesOk(hash: HashFunction, tables: seq<Table>, given: map<Id, Producer>, pc: map<Id, Pc>)
    requires TablesShaped(tables)
  {
    forall j, id {:trigger ValueOk(hash, tables, given, pc, j, id)} :: 0 <= j < |tables| ==>
      ValueOk(hash, tables, given, pc, j, id)
  }

  predicate LockOk(pc: map<Id, Pc>, resizing: bool, holder: Option<Id>) {
    && (resizing <==> holder.Some?)
    && (forall id {:trigger pc[id]} :: id in pc ==> (Holds(pc[id]) <==> holder == Some(id)))
    && (holder.Some? ==> holder.value in pc)
  }

  predicate ThreadFine(s: State, id: Id)
    requires Shaped(s) && id in s.pc
  {
    ThreadOk(s.pc[id], id, s.hash, s.tables, s.order, s.rank, s.given, s.home)
  }

  ghost predicate ThreadsOk(s: State)
    requires Shaped(s)
  {
    forall id {:trigger ThreadFine(s, id)} :: id in s.pc ==> ThreadFine(s, id)
  }

  ghost predicate Inv(s: State) {
    && Shaped(s) && s.main == |s.tables| - 1 && EMPTY !in s.pc
    && TablesOk(s.hash, s.tables, s.home, s.rank)
    && OrderOk(s.order, s.rank, s.count)
    && GivenOk(s.given, s.nextProducer, s.order, s.home, s.tables)
    && ValuesOk(s.hash, s.tables, s.given, s.pc)
    && LockOk(s.pc, s.resizing, s.holder)
    && ThreadsOk(s)
    && (forall id {:trigger s.pc[id]} :: id in s.order ==> id in s.pc)
  }

  // ---------------------------------------------------------------------------
  // What a step leaves alone
  // ---------------------------------------------------------------------------

  /** id sees the same in both tables: its own entry, and no slot emptied. */
  predicate TableFor(id: Id, t: Table, t': Table)
    requires TableShaped(t)
  {
    && TableShaped(t') && t'.capacity == t.capacity
    && (id in t'.dist <==> id in t.dist) && (id in t.dist ==> t'.dist[id] == t.dist[id])
    && forall i {:trigger t.keys[i]} {:trigger t'.keys[i]} :: 0 <= i < t.capacity && t.keys[i] != EMPTY ==>
       t'.keys[i] != EMPTY
  }

  ghost predicate TablesFor(id: Id, tables: seq<Table>, tables': seq<Table>)
    requires TablesShaped(tables)
  {
    |tables| <= |tables'| && TablesShaped(tables') &&
    forall j {:trigger TableFor(id, tables[j], tables'[j])} :: 0 <= j < |tables| ==> TableFor(id, tables[j], tables'[j])
  }

  predicate Same<T(==)>(id: Id, m: map<Id, T>, m': map<Id, T>) {
    (id in m' <==> id in m) && (id in m ==> m'[id] == m[id])
  }

  lemma PassedKept(hash: HashFunction, id: Id, t: Table, t': Table, k: nat)
    requires TableShaped(t) && TableFor(id, t, t') && Passed(hash, t, id, k)
    ensures Passed(hash, t', id, k)
  {
    forall i | 0 <= i < k ensures KeyAt(hash, t', id, i) != EMPTY {
      var key := KeyAt(hash, t, id, i);
    }
  }

  lemma ThreadKept(p: Pc, id: Id, hash: HashFunction,
                   tables: seq<Table>, order: seq<Id>, rank: map<Id, int>, given: map<Id, Producer>, home: map<Id, nat>,
                   tables': seq<Table>, order': seq<Id>, rank': map<Id, int>, given': map<Id, Producer>,
                   home': map<Id, nat>)
    requires TablesShaped(tables) && PcShaped(p, |tables|) && TablesFor(id, tables, tables')
    requires ThreadOk(p, id, hash, tables, order, rank, given, home)
    requires (id in order <==> id in order') && Same(id, rank, rank') && Same(id, given, given')
             && Same(id, home, home')
    requires p.Enlarge? ==> |tables| == |tables'|
    ensures PcShaped(p, |tables'|) && ThreadOk(p, id, hash, tables', order', rank', given', home')
  {
    match p
    case Find(main, m, k) =>
      assert TableFor(id, tables[main], tables'[main]);
      if m >= 0 {
        assert TableFor(id, tables[m], tables'[m]);
        PassedKept(hash, id, tables[m], tables'[m], k);
      }
    case Copy(main, v, k) =>
      assert TableFor(id, tables[main], tables'[main]);
      PassedKept(hash, id, tables[main], tables'[main], k);
    case CopyCas(main, v, k) =>
      assert TableFor(id, tables[main], tables'[main]);
      PassedKept(hash, id, tables[main], tables'[main], k);
    case CopyValue(main, v, k) => assert TableFor(id, tables[main], tables'[main]);
    case Insert(main, n, q, k) =>
      assert TableFor(id, tables[main], tables'[main]);
      PassedKept(hash, id, tables[main], tables'[main], k);
    case InsertCas(main, n, q, k) =>
      assert TableFor(id, tables[main], tables'[main]);
      PassedKept(hash, id, tables[main], tables'[main], k);
    case InsertValue(main, q, k) => assert TableFor(id, tables[main], tables'[main]);
    case _ =>
  }

  /** All but id see the same in s and s'. */
  ghost predicate OthersSee(s: State, s': State, id: Id)
    requires Shaped(s)
  {
    && s'.hash == s.hash && id in s.pc && id in s'.pc && s'.pc == s.pc[id := s'.pc[id]]
    && (forall u {:trigger s.pc[u]} :: u in s.pc && u != id ==>
          && TablesFor(u, s.tables, s'.tables) && (u in s.order <==> u in s'.order)
          && Same(u, s.rank, s'.rank) && Same(u, s.given, s'.given) && Same(u, s.home, s'.home)
          && (s.pc[u].Enlarge? ==> |s.tables| == |s'.tables|))
  }

  lemma OthersFine(s: State, s': State, id: Id)
    requires Inv(s) && id in s.pc && id in s'.pc && OthersSee(s, s', id)
    requires TablesShaped(s'.tables) && PcShaped(s'.pc[id], |s'.tables|)
    requires forall j {:trigger s'.tables[j]} :: 0 <= j < |s'.tables| ==> -1 <= s'.tables[j].prev < |s'.tables|
    requires s'.main < |s'.tables|
    requires ThreadOk(s'.pc[id], id, s'.hash, s'.tables, s'.order, s'.rank, s'.given, s'.home)
    ensures Shaped(s') && ThreadsOk(s')
  {
    forall u | u in s'.pc
      ensures PcShaped(s'.pc[u], |s'.tables|)
      ensures ThreadOk(s'.pc[u], u, s'.hash, s'.tables, s'.order, s'.rank, s'.given, s'.home)
    {
      if u != id {
        assert u in s.pc && ThreadFine(s, u);
        ThreadKept(s.pc[u], u, s.hash, s.tables, s.order, s.rank, s.given, s.home,
                   s'.tables, s'.order, s'.rank, s'.given, s'.home);
      }
    }
  }

  // ---------------------------------------------------------------------------
  // Steps that only move a program counter
  // ---------------------------------------------------------------------------

  predicate Stores(p: Pc) { p.CopyValue? || p.InsertValue? }

  lemma ValuesKept(s: State, id: Id, q: Pc)
    requires Inv(s) && id in s.pc && !Stores(s.pc[id])
    ensures ValuesOk(s.hash, s.tables, s.given, s.pc[id := q])
  {
    var pc := s.pc[id := q];
    forall j, u | 0 <= j < |s.tables| ensures ValueOk(s.hash, s.tables, s.given, pc, j, u) {
      assert ValueOk(s.hash, s.tables, s.given, s.pc, j, u);
    }
  }

  lemma TablesForSame(id: Id, tables: seq<Table>)
    requires TablesShaped(tables)
    ensures TablesFor(id, tables, tables)
  {
    forall j | 0 <= j < |tables| ensures TableFor(id, tables[j], tables[j]) {}
  }

  lemma PcKeeps(s: State, id: Id, q: Pc)
    requires Inv(s) && id in s.pc && !Stores(s.pc[id]) && Holds(q) == Holds(s.pc[id])
    requires PcShaped(q, |s.tables|) && ThreadOk(q, id, s.hash, s.tables, s.order, s.rank, s.given, s.home)
    ensures Inv(Goto(s, id, q))
  {
    var s' := Goto(s, id, q);
    forall u | u in s.pc ensures TablesFor(u, s.tables, s'.tables) { TablesForSame(u, s.tables); }
    OthersFine(s, s', id);
    ValuesKept(s, id, q);
  }

  /** A slot found filled by another id: one more slot passed. */
  lemma PassedOn(hash: HashFunction, t: Table, id: Id, k: nat)
    requires TableShaped(t) && Passed(hash, t, id, k) && KeyAt(hash, t, id, k) != EMPTY
    ensures Passed(hash, t, id, k + 1)
  {
  }

  /** The first slot that is empty or id's own settles whether id is in the table. */
  lemma FindSettles(hash: HashFunction, t: Table, home: map<Id, nat>, rank: map<Id, int>, j: nat, id: Id, k: nat)
    requires TableOk(hash, t, home, rank, j) && id != EMPTY && Passed(hash, t, id, k) && SlotAhead(t, id, k)
    ensures KeyAt(hash, t, id, k) == id ==>
            id in t.dist && Probe(hash, id, t.capacity, t.dist[id]) == Probe(hash, id, t.capacity, k)
    ensures KeyAt(hash, t, id, k) == EMPTY ==> id !in t.dist
    ensures KeyAt(hash, t, id, k) != EMPTY && KeyAt(hash, t, id, k) != id ==> SlotAhead(t, id, k + 1)
  {
    assert KeyOk(hash, t, Probe(hash, id, t.capacity, k));
    if id in t.dist {
      assert DistOk(hash, t, id);
    }
  }

  /** What is known where thread id looks at a slot of table m. */
  lemma FindLooks(s: State, id: Id, main: nat, m: nat, k: nat)
    requires Inv(s) && id in s.pc && s.pc[id] == Find(main, m, k) && m < |s.tables| && main < |s.tables|
    ensures id != EMPTY && Settled(id, s.order, s.given, s.home) && m <= main && (id in s.home ==> s.home[id] <= m)
    ensures m < main ==> id !in s.tables[main].dist
    ensures s.tables[m].prev == m - 1 && Passed(s.hash, s.tables[m], id, k)
    ensures var key := KeyAt(s.hash, s.tables[m], id, k);
            && (key == id ==>
                  && id in s.given && id in s.tables[m].dist
                  && s.tables[m].values[Probe(s.hash, id, s.tables[m].capacity, k)] == s.given[id])
            && (key == EMPTY ==> id !in s.tables[m].dist)
            && (key != EMPTY && key != id ==> SlotAhead(s.tables[m], id, k + 1))
  {
    assert ThreadFine(s, id);
    var t := s.tables[m];
    assert TableOk(s.hash, t, s.home, s.rank, m);
    FindSettles(s.hash, t, s.home, s.rank, m, id, k);
    assert MemberOk(t, s.home, s.rank, m, id) && ValueOk(s.hash, s.tables, s.given, s.pc, m, id);
  }

  lemma FindOwn(s: State, id: Id, main: nat, m: nat, k: nat)
    requires Inv(s) && id in s.pc && s.pc[id] == Find(main, m, k) && m < |s.tables| && main < |s.tables|
    requires KeyAt(s.hash, s.tables[m], id, k) == id
    ensures Inv(DoFind(s, id, main, m, k))
  {
    FindLooks(s, id, main, m, k);
    assert TableOk(s.hash, s.tables[m], s.home, s.rank, m) && MemberOk(s.tables[m], s.home, s.rank, m, id);
    var v := s.given[id];
    PcKeeps(s, id, if m != main then Copy(main, v, 0) else Return(Some(v)));
  }

  lemma FindEmpty(s: State, id: Id, main: nat, m: nat, k: nat)
    requires Inv(s) && id in s.pc && s.pc[id] == Find(main, m, k) && m < |s.tables| && main < |s.tables|
    requires KeyAt(s.hash, s.tables[m], id, k) == EMPTY
    ensures Inv(DoFind(s, id, main, m, k))
  {
    FindLooks(s, id, main, m, k);
    PcKeeps(s, id, Find(main, m - 1, 0));
  }

  lemma FindOther(s: State, id: Id, main: nat, m: nat, k: nat)
    requires Inv(s) && id in s.pc && s.pc[id] == Find(main, m, k) && m < |s.tables| && main < |s.tables|
    requires KeyAt(s.hash, s.tables[m], id, k) != EMPTY && KeyAt(s.hash, s.tables[m], id, k) != id
    ensures Inv(DoFind(s, id, main, m, k))
  {
    FindLooks(s, id, main, m, k);
    PassedOn(s.hash, s.tables[m], id, k);
    PcKeeps(s, id, Find(main, m, k + 1));
  }

  lemma FindEnds(s: State, id: Id, main: nat, k: nat)
    requires Inv(s) && id in s.pc && s.pc[id] == Find(main, -1, k) && main < |s.tables|
    ensures Inv(Goto(s, id, Increment(main)))
  {
    assert ThreadFine(s, id);
    PcKeeps(s, id, Increment(main));
  }

  lemma FindKeeps(s: State, id: Id, main: nat, m: int, k: nat)
    requires Inv(s) && id in s.pc && s.pc[id] == Find(main, m, k) && -1 <= m < |s.tables| && main < |s.tables|
    ensures Inv(DoFind(s, id, main, m, k))
  {
    if m < 0 { FindEnds(s, id, main, k); }
    else if KeyAt(s.hash, s.tables[m], id, k) == id { FindOwn(s, id, main, m, k); }
    else if KeyAt(s.hash, s.tables[m], id, k) == EMPTY { FindEmpty(s, id, main, m, k); }
    else { FindOther(s, id, main, m, k); }
  }

  /** Copy and its failed exchange: on to the next slot, or to the exchange. */
  lemma CopyProbes(s: State, id: Id, q: Pc)
    requires Inv(s) && id in s.pc && PcShaped(s.pc[id], |s.tables|)
    requires (s.pc[id].Copy? || s.pc[id].CopyCas?) && (q.Copy? || q.CopyCas?) && q.main == s.pc[id].main
             && q.v == s.pc[id].v
    requires q.k == s.pc[id].k || (q.k == s.pc[id].k + 1 && KeyAt(s.hash, s.tables[q.main], id, s.pc[id].k) != EMPTY)
    ensures Inv(Goto(s, id, q))
  {
    assert ThreadFine(s, id);
    if q.k > s.pc[id].k { PassedOn(s.hash, s.tables[q.main], id, s.pc[id].k); }
    PcKeeps(s, id, q);
  }

  /** The same for Insert. */
  lemma InsertProbes(s: State, id: Id, q: Pc)
    requires Inv(s) && id in s.pc && PcShaped(s.pc[id], |s.tables|)
    requires (s.pc[id].Insert? || s.pc[id].InsertCas?) && (q.Insert? || q.InsertCas?)
    requires q.main == s.pc[id].main && q.n == s.pc[id].n && q.p == s.pc[id].p
    requires q.k == s.pc[id].k || (q.k == s.pc[id].k + 1 && KeyAt(s.hash, s.tables[q.main], id, s.pc[id].k) != EMPTY)
    ensures Inv(Goto(s, id, q))
  {
    assert ThreadFine(s, id);
    if q.k > s.pc[id].k { PassedOn(s.hash, s.tables[q.main], id, s.pc[id].k); }
    PcKeeps(s, id, q);
  }

  /** The remaining moves of a program counter alone. */
  lemma MoveKeeps(s: State, id: Id, q: Pc)
    requires Inv(s) && id in s.pc
    requires || (s.pc[id].Idle? && q == LoadMain) || (s.pc[id].Return? && q == Idle)
             || (s.pc[id].LoadMain? && q == Find(s.main, s.main, 0))
                   || (s.pc[id].Reload? && q == Enlarge(s.main, s.pc[id].n))
    ensures Inv(Goto(s, id, q))
  {
    assert ThreadFine(s, id);
    if s.pc[id].LoadMain? { assert id in s.home ==> s.home[id] <= s.main; }
    PcKeeps(s, id, q);
  }

  // ---------------------------------------------------------------------------
  // The resize flag
  // ---------------------------------------------------------------------------

  lemma LockKeeps(s: State, id: Id, q: Pc, resizing: bool, holder: Option<Id>)
    requires Inv(s) && id in s.pc && !Stores(s.pc[id])
    requires PcShaped(q, |s.tables|) && ThreadOk(q, id, s.hash, s.tables, s.order, s.rank, s.given, s.home)
    requires LockOk(s.pc[id := q], resizing, holder)
    ensures Inv(Goto(s, id, q).(resizing := resizing, holder := holder))
  {
    var s' := Goto(s, id, q).(resizing := resizing, holder := holder);
    forall u | u in s.pc ensures TablesFor(u, s.tables, s'.tables) { TablesForSame(u, s.tables); }
    OthersFine(s, s', id);
    ValuesKept(s, id, q);
  }

  lemma TestKeeps(s: State, id: Id, main: nat, n: int)
    requires Inv(s) && id in s.pc && s.pc[id] == Test(main, n) && main < |s.tables|
    ensures Inv(DoTest(s, id, main, n))
  {
    assert ThreadFine(s, id);
    if n >= s.tables[main].capacity / 2 && !s.resizing { LockKeeps(s, id, Reload(n), true, Some(id)); }
    else { PcKeeps(s, id, Create(main, n)); }
  }

  lemma UnlockKeeps(s: State, id: Id, q: Pc)
    requires Inv(s) && id in s.pc && PcShaped(s.pc[id], |s.tables|)
    requires (s.pc[id].Unlock? && q == Create(s.pc[id].main, s.pc[id].n))
             || (s.pc[id].GiveUpUnlock? && q == Return(None))
    ensures Inv(DoUnlock(s, id, q))
  {
    assert ThreadFine(s, id);
    LockKeeps(s, id, q, false, None);
  }

  // ---------------------------------------------------------------------------
  // Counting
  // ---------------------------------------------------------------------------

  lemma TablesKept(s: State, home: map<Id, nat>, rank: map<Id, int>, id: Id)
    requires Inv(s) && id !in s.home
    requires s.home.Keys <= home.Keys && s.rank.Keys <= rank.Keys
    requires forall u {:trigger home[u]} :: u in s.home && u != id ==> home[u] == s.home[u]
    requires forall u {:trigger rank[u]} :: u in s.rank && u != id ==> rank[u] == s.rank[u]
    ensures TablesOk(s.hash, s.tables, home, rank)
  {
    forall j | 0 <= j < |s.tables| ensures TableOk(s.hash, s.tables[j], home, rank, j) {
      assert TableOk(s.hash, s.tables[j], s.home, s.rank, j);
      forall u ensures MemberOk(s.tables[j], home, rank, j, u) { assert MemberOk(s.tables[j], s.home, s.rank, j, u); }
    }
  }

  lemma IncrementOrder(order: seq<Id>, rank: map<Id, int>, count: int, id: Id)
    requires OrderOk(order, rank, count) && id !in order
    ensures OrderOk(order + [id], rank[id := count + 1], count + 1)
  {
    var order', rank' := order + [id], rank[id := count + 1];
    forall k | 0 <= k < |order'| ensures RankOk(order', rank', k) {
      if k < |order| { assert RankOk(order, rank, k); }
    }
  }

  lemma IncrementOthers(s: State, id: Id, main: nat)
    requires Inv(s) && id in s.pc && s.pc[id] == Increment(main) && main < |s.tables|
    ensures Shaped(DoIncrement(s, id, main)) && ThreadsOk(DoIncrement(s, id, main))
  {
    var s' := DoIncrement(s, id, main);
    assert ThreadFine(s, id);
    forall u | u in s.pc ensures TablesFor(u, s.tables, s'.tables) { TablesForSame(u, s.tables); }
    OthersFine(s, s', id);
  }

  lemma IncrementKeeps(s: State, id: Id, main: nat)
    requires Inv(s) && id in s.pc && s.pc[id] == Increment(main) && main < |s.tables|
    ensures Inv(DoIncrement(s, id, main))
  {
    var s' := DoIncrement(s, id, main);
    assert ThreadFine(s, id);
    IncrementTables(s, id, main);
    IncrementOthers(s, id, main);
    StoreLock(s.pc, s.resizing, s.holder, id, s'.pc[id]);
  }

  lemma IncrementTables(s: State, id: Id, main: nat)
    requires Inv(s) && id in s.pc && s.pc[id] == Increment(main) && main < |s.tables|
    ensures var s' := DoIncrement(s, id, main);
            && OrderOk(s'.order, s'.rank, s'.count) && TablesOk(s.hash, s.tables, s.home, s'.rank)
            && ValuesOk(s.hash, s.tables, s.given, s'.pc)
  {
    var s' := DoIncrement(s, id, main);
    assert ThreadFine(s, id);
    IncrementOrder(s.order, s.rank, s.count, id);
    TablesKept(s, s.home, s'.rank, id);
    ValuesKept(s, id, s'.pc[id]);
  }

  lemma {:induction false} WithoutIs(order: seq<Id>, id: Id)
    requires NoDup(order) && id in order
    ensures |Without(order, id)| == |order| - 1 && NoDup(Without(order, id))
    ensures forall u :: u in Without(order, id) <==> u in order && u != id
    ensures forall k {:trigger Without(order, id)[k]} :: 0 <= k < |order| - 1 ==>
              Without(order, id)[k] == order[k] || Without(order, id)[k] == order[k + 1]
  {
    var n := |order| - 1;
    var init := order[..n];
    if order[n] != id {
      assert order == init + [order[n]];
      WithoutIs(init, id);
      assert order[n] !in init;
    }
  }

  lemma DecrementOrder(order: seq<Id>, rank: map<Id, int>, count: int, id: Id)
    requires OrderOk(order, rank, count) && id in order
    ensures OrderOk(Without(order, id), rank, count - 1)
    ensures forall u :: u in Without(order, id) <==> u in order && u != id
  {
    WithoutIs(order, id);
    var order' := Without(order, id);
    forall k | 0 <= k < |order'| ensures RankOk(order', rank, k) {
      assert RankOk(order, rank, k) && RankOk(order, rank, k + 1);
    }
  }

  lemma DecrementOthers(s: State, id: Id, q: Pc)
    requires Inv(s) && id in s.pc
             && ((s.pc[id].GiveUp? && q == GiveUpUnlock) || (s.pc[id].NoProducer? && q == Return(None)))
    ensures Shaped(DoDecrement(s, id, q)) && ThreadsOk(DoDecrement(s, id, q))
  {
    var s' := DoDecrement(s, id, q);
    assert ThreadFine(s, id);
    DecrementOrder(s.order, s.rank, s.count, id);
    forall u | u in s.pc ensures TablesFor(u, s.tables, s'.tables) { TablesForSame(u, s.tables); }
    OthersFine(s, s', id);
  }

  lemma DecrementKeeps(s: State, id: Id, q: Pc)
    requires Inv(s) && id in s.pc
             && ((s.pc[id].GiveUp? && q == GiveUpUnlock) || (s.pc[id].NoProducer? && q == Return(None)))
    ensures Inv(DoDecrement(s, id, q))
  {
    assert ThreadFine(s, id);
    DecrementOrder(s.order, s.rank, s.count, id);
    DecrementOthers(s, id, q);
    ValuesKept(s, id, q);
  }

  // ---------------------------------------------------------------------------
  // A new table
  // ---------------------------------------------------------------------------

  lemma {:induction false} DoubledIs(capacity: nat, n: int)
    requires capacity > 0 && IsPow2(capacity)
    ensures IsPow2(Doubled(capacity, n)) && Doubled(capacity, n) >= capacity && n < Doubled(capacity, n) / 2
    decreases n - capacity / 2
  {
    if n >= capacity / 2 {
      var k: nat :| capacity == Pow2(k);
      assert 2 * capacity == Pow2(k + 1);
      DoubledIs(2 * capacity, n);
    }
  }

  lemma EnlargeTables(s: State, capacity: nat)
    requires Inv(s) && IsPow2(capacity) && capacity >= s.tables[s.main].capacity
    ensures TablesOk(s.hash, s.tables + [NewTable(capacity, s.main)], s.home, s.rank)
    ensures forall u :: TablesFor(u, s.tables, s.tables + [NewTable(capacity, s.main)])
  {
    var tables := s.tables + [NewTable(capacity, s.main)];
    assert s.tables[s.main].capacity >= 4;
    forall j | 0 <= j < |tables| ensures TableOk(s.hash, tables[j], s.home, s.rank, j) {
      if j < |s.tables| { assert TableOk(s.hash, s.tables[j], s.home, s.rank, j); }
      else {
        forall i | 0 <= i < capacity ensures KeyOk(s.hash, tables[j], i) {}
        forall u ensures MemberOk(tables[j], s.home, s.rank, j, u) {}
      }
    }
    forall i, j | 0 <= i < j < |tables| ensures tables[i].capacity <= tables[j].capacity {
      if j == |s.tables| && i < s.main { assert s.tables[i].capacity <= s.tables[s.main].capacity; }
    }
    forall u ensures TablesFor(u, s.tables, tables) {
      forall j | 0 <= j < |s.tables| ensures TableFor(u, s.tables[j], tables[j]) {}
    }
  }

  lemma EnlargeValues(s: State, id: Id, q: Pc, t: Table)
    requires Inv(s) && id in s.pc && !Stores(s.pc[id]) && TableShaped(t) && t.dist == map[]
             && TablesShaped(s.tables + [t])
    ensures ValuesOk(s.hash, s.tables + [t], s.given, s.pc[id := q])
  {
    var tables, pc := s.tables + [t], s.pc[id := q];
    forall j, u | 0 <= j < |tables| ensures ValueOk(s.hash, tables, s.given, pc, j, u) {
      if j < |s.tables| { assert ValueOk(s.hash, s.tables, s.given, s.pc, j, u); }
    }
  }

  lemma DoublesUp(c: nat, n: int)
    requires c > 0 && IsPow2(c)
    ensures IsPow2(Doubled(2 * c, n)) && Doubled(2 * c, n) >= 2 * c && n < Doubled(2 * c, n) / 2
  {
    var k: nat :| c == Pow2(k);
    assert 2 * c == Pow2(k + 1);
    DoubledIs(2 * c, n);
  }

  lemma PublishOthers(s: State, id: Id, main: nat, n: int)
    requires Inv(s) && id in s.pc && s.pc[id] == Enlarge(main, n) && main == s.main && n >= s.tables[main].capacity / 2
    ensures Shaped(DoEnlarge(s, id, main, n, true)) && ThreadsOk(DoEnlarge(s, id, main, n, true))
  {
    assert ThreadFine(s, id);
    DoublesUp(s.tables[main].capacity, n);
    EnlargeTables(s, Doubled(2 * s.tables[main].capacity, n));
    forall u | u in s.pc && u != id ensures !s.pc[u].Enlarge? {
      assert Holds(s.pc[id]) && (Holds(s.pc[u]) <==> s.holder == Some(u));
    }
    OthersFine(s, DoEnlarge(s, id, main, n, true), id);
  }

  lemma PublishKeeps(s: State, id: Id, main: nat, n: int)
    requires Inv(s) && id in s.pc && s.pc[id] == Enlarge(main, n) && main < |s.tables|
             && n >= s.tables[main].capacity / 2
    ensures Inv(DoEnlarge(s, id, main, n, true))
  {
    assert ThreadFine(s, id);
    var c := s.tables[main].capacity;
    DoublesUp(c, n);
    EnlargeTables(s, Doubled(2 * c, n));
    EnlargeValues(s, id, Unlock(|s.tables|, n), NewTable(Doubled(2 * c, n), main));
    PublishOthers(s, id, main, n);
  }

  lemma EnlargeKeeps(s: State, id: Id, main: nat, n: int, ok: bool)
    requires Inv(s) && id in s.pc && s.pc[id] == Enlarge(main, n) && main < |s.tables|
    ensures Inv(DoEnlarge(s, id, main, n, ok))
  {
    assert ThreadFine(s, id);
    if n < s.tables[main].capacity / 2 { PcKeeps(s, id, Unlock(main, n)); }
    else if ok { PublishKeeps(s, id, main, n); }
    else { PcKeeps(s, id, GiveUp(n)); }
  }

  // ---------------------------------------------------------------------------
  // A new producer
  // ---------------------------------------------------------------------------

  lemma CreateValues(s: State, id: Id, given: map<Id, Producer>, q: Pc)
    requires Inv(s) && id in s.pc && id !in s.home && !Stores(s.pc[id])
    requires forall u {:trigger u in given} :: u != id && u in given ==> u in s.given && given[u] == s.given[u]
    ensures ValuesOk(s.hash, s.tables, given, s.pc[id := q])
  {
    var pc := s.pc[id := q];
    forall j, u | 0 <= j < |s.tables| ensures ValueOk(s.hash, s.tables, given, pc, j, u) {
      assert ValueOk(s.hash, s.tables, s.given, s.pc, j, u) && TableOk(s.hash, s.tables[j], s.home, s.rank, j);
      assert MemberOk(s.tables[j], s.home, s.rank, j, id);
    }
  }

  lemma CreateOthers(s: State, id: Id, main: nat, n: int)
    requires Inv(s) && id in s.pc && s.pc[id] == Create(main, n) && main < |s.tables|
             && n < Limit(s.tables[main].capacity)
    ensures Shaped(DoCreate(s, id, main, n, true)) && ThreadsOk(DoCreate(s, id, main, n, true))
  {
    var s' := DoCreate(s, id, main, n, true);
    assert ThreadFine(s, id);
    forall u | u in s.pc ensures TablesFor(u, s.tables, s'.tables) { TablesForSame(u, s.tables); }
    OthersFine(s, s', id);
  }

  lemma CreateGiven(given: map<Id, Producer>, next: Producer, order: seq<Id>, home: map<Id, nat>, tables: seq<Table>,
                    id: Id)
    requires GivenOk(given, next, order, home, tables) && id in order && id !in given && id !in home
    ensures GivenOk(given[id := next], next + 1, order, home, tables)
  {
  }

  lemma CreateNew(s: State, id: Id, main: nat, n: int)
    requires Inv(s) && id in s.pc && s.pc[id] == Create(main, n) && main < |s.tables|
             && n < Limit(s.tables[main].capacity)
    ensures Inv(DoCreate(s, id, main, n, true))
  {
    assert ThreadFine(s, id);
    CreateOthers(s, id, main, n);
    CreateValues(s, id, s.given[id := s.nextProducer], Insert(main, n, s.nextProducer, 0));
    CreateGiven(s.given, s.nextProducer, s.order, s.home, s.tables, id);
  }

  lemma CreateKeeps(s: State, id: Id, main: nat, n: int, ok: bool)
    requires Inv(s) && id in s.pc && s.pc[id] == Create(main, n) && main < |s.tables|
    ensures Inv(DoCreate(s, id, main, n, ok))
  {
    if n >= Limit(s.tables[main].capacity) {
      assert ThreadFine(s, id);
      PcKeeps(s, id, Test(s.main, n));
    } else if ok { CreateNew(s, id, main, n); }
    else {
      assert ThreadFine(s, id);
      PcKeeps(s, id, NoProducer(n));
    }
  }

  // ---------------------------------------------------------------------------
  // Taking a slot and filling in its value
  // ---------------------------------------------------------------------------

  lemma WithKeyOk(hash: HashFunction, t: Table, home: map<Id, nat>, rank: map<Id, int>, j: nat, id: Id, k: nat)
    requires TableOk(hash, t, home, rank, j) && id != EMPTY && id !in t.dist
    requires Passed(hash, t, id, k) && KeyAt(hash, t, id, k) == EMPTY
    requires id in home && home[id] <= j && id in rank && rank[id] < Limit(t.capacity)
    ensures TableOk(hash, WithKey(hash, t, id, k), home, rank, j)
    ensures forall u {:trigger TableFor(u, t, WithKey(hash, t, id, k))} :: u != id ==>
            TableFor(u, t, WithKey(hash, t, id, k))
  {
    var t' := WithKey(hash, t, id, k);
    forall i | 0 <= i < t.capacity ensures KeyOk(hash, t', i) { assert KeyOk(hash, t, i); }
    forall u | u in t'.dist ensures DistOk(hash, t', u) {
      if u != id { assert DistOk(hash, t, u); }
      var d := t'.dist[u];
      forall i | 0 <= i < d ensures KeyAt(hash, t', u, i) != EMPTY { var was := KeyAt(hash, t, u, i); }
    }
    forall u ensures MemberOk(t', home, rank, j, u) { assert MemberOk(t, home, rank, j, u); }
  }

  lemma LimitMono(c: nat, d: nat)
    requires c <= d
    ensures Limit(c) <= Limit(d)
  {
  }

  /** What the tables are after id's exchange in table main. */
  lemma TakenTables(s: State, home: map<Id, nat>, id: Id, main: nat, k: nat)
    requires Inv(s) && main < |s.tables| && TablesOk(s.hash, s.tables, home, s.rank)
    requires id != EMPTY && id !in s.tables[main].dist
    requires Passed(s.hash, s.tables[main], id, k) && KeyAt(s.hash, s.tables[main], id, k) == EMPTY
    requires id in home && home[id] <= main && id in s.rank && s.rank[id] < Limit(s.tables[main].capacity)
    ensures var tables := s.tables[main := WithKey(s.hash, s.tables[main], id, k)];
            && TablesOk(s.hash, tables, home, s.rank) && TablesShaped(tables)
            && forall u :: u != id ==> TablesFor(u, s.tables, tables)
  {
    var t := s.tables[main];
    var tables := s.tables[main := WithKey(s.hash, t, id, k)];
    assert TableOk(s.hash, t, home, s.rank, main);
    WithKeyOk(s.hash, t, home, s.rank, main, id, k);
    forall j | 0 <= j < |tables| ensures TableOk(s.hash, tables[j], home, s.rank, j) {
      if j != main { assert TableOk(s.hash, s.tables[j], home, s.rank, j); }
    }
    forall u | u != id ensures TablesFor(u, s.tables, tables) {
      forall j | 0 <= j < |tables| ensures TableFor(u, s.tables[j], tables[j]) {
        if j == main { assert TableFor(u, t, WithKey(s.hash, t, id, k)); }
      }
    }
  }

  lemma TakenValues(s: State, id: Id, main: nat, k: nat, q: Pc)
    requires Inv(s) && id in s.pc && main < |s.tables| && id !in s.tables[main].dist
    requires !Stores(s.pc[id]) && Stores(q) && q.main == main
    requires KeyAt(s.hash, s.tables[main], id, k) == EMPTY
    requires TablesShaped(s.tables[main := WithKey(s.hash, s.tables[main], id, k)])
    ensures ValuesOk(s.hash, s.tables[main := WithKey(s.hash, s.tables[main], id, k)], s.given, s.pc[id := q])
  {
    var tables, pc := s.tables[main := WithKey(s.hash, s.tables[main], id, k)], s.pc[id := q];
    forall j, u | 0 <= j < |tables| ensures ValueOk(s.hash, tables, s.given, pc, j, u) {
      assert ValueOk(s.hash, s.tables, s.given, s.pc, j, u);
    }
  }

  lemma CopyTables(s: State, id: Id, main: nat, v: Producer, k: nat)
    requires Inv(s) && id in s.pc && s.pc[id] == CopyCas(main, v, k) && main < |s.tables|
    requires KeyAt(s.hash, s.tables[main], id, k) == EMPTY
    ensures id !in s.tables[main].dist
    ensures var tables := s.tables[main := WithKey(s.hash, s.tables[main], id, k)];
            && TablesOk(s.hash, tables, s.home, s.rank) && TablesShaped(tables)
            && forall u :: u != id ==> TablesFor(u, s.tables, tables)
  {
    assert ThreadFine(s, id);
    var h := s.home[id];
    assert TableOk(s.hash, s.tables[h], s.home, s.rank, h) && MemberOk(s.tables[h], s.home, s.rank, h, id);
    LimitMono(s.tables[h].capacity, s.tables[main].capacity);
    TakenTables(s, s.home, id, main, k);
  }

  lemma CopyOthers(s: State, id: Id, main: nat, v: Producer, k: nat)
    requires Inv(s) && id in s.pc && s.pc[id] == CopyCas(main, v, k) && main < |s.tables|
    requires KeyAt(s.hash, s.tables[main], id, k) == EMPTY
    ensures Shaped(DoCopyCas(s, id, main, v, k)) && ThreadsOk(DoCopyCas(s, id, main, v, k))
  {
    assert ThreadFine(s, id);
    CopyTables(s, id, main, v, k);
    OthersFine(s, DoCopyCas(s, id, main, v, k), id);
  }

  lemma CopyCasKeeps(s: State, id: Id, main: nat, v: Producer, k: nat)
    requires Inv(s) && id in s.pc && s.pc[id] == CopyCas(main, v, k) && main < |s.tables|
    requires KeyAt(s.hash, s.tables[main], id, k) == EMPTY
    ensures Inv(DoCopyCas(s, id, main, v, k))
  {
    CopyTables(s, id, main, v, k);
    TakenValues(s, id, main, k, CopyValue(main, v, k));
    CopyOthers(s, id, main, v, k);
  }

  lemma InsertTables(s: State, id: Id, main: nat, n: int, p: Producer, k: nat)
    requires Inv(s) && id in s.pc && s.pc[id] == InsertCas(main, n, p, k) && main < |s.tables|
    requires KeyAt(s.hash, s.tables[main], id, k) == EMPTY
    ensures id !in s.tables[main].dist && id in s.given && id !in s.home
    ensures var tables := s.tables[main := WithKey(s.hash, s.tables[main], id, k)];
            && TablesOk(s.hash, tables, s.home[id := main], s.rank) && TablesShaped(tables)
            && forall u :: u != id ==> TablesFor(u, s.tables, tables)
  {
    assert ThreadFine(s, id);
    assert TableOk(s.hash, s.tables[main], s.home, s.rank, main) && MemberOk(s.tables[main], s.home, s.rank, main, id);
    TablesKept(s, s.home[id := main], s.rank, id);
    TakenTables(s, s.home[id := main], id, main, k);
  }

  lemma InsertOthers(s: State, id: Id, main: nat, n: int, p: Producer, k: nat)
    requires Inv(s) && id in s.pc && s.pc[id] == InsertCas(main, n, p, k) && main < |s.tables|
    requires KeyAt(s.hash, s.tables[main], id, k) == EMPTY
    ensures Shaped(DoInsertCas(s, id, main, n, p, k)) && ThreadsOk(DoInsertCas(s, id, main, n, p, k))
  {
    assert ThreadFine(s, id);
    InsertTables(s, id, main, n, p, k);
    OthersFine(s, DoInsertCas(s, id, main, n, p, k), id);
  }

  lemma InsertCasKeeps(s: State, id: Id, main: nat, n: int, p: Producer, k: nat)
    requires Inv(s) && id in s.pc && s.pc[id] == InsertCas(main, n, p, k) && main < |s.tables|
    requires KeyAt(s.hash, s.tables[main], id, k) == EMPTY
    ensures Inv(DoInsertCas(s, id, main, n, p, k))
  {
    InsertTables(s, id, main, n, p, k);
    InsertGiven(s, id, main, n, p, k);
    InsertOthers(s, id, main, n, p, k);
  }

  lemma InsertGiven(s: State, id: Id, main: nat, n: int, p: Producer, k: nat)
    requires Inv(s) && id in s.pc && s.pc[id] == InsertCas(main, n, p, k) && main < |s.tables|
    requires KeyAt(s.hash, s.tables[main], id, k) == EMPTY
    ensures var s' := DoInsertCas(s, id, main, n, p, k);
            && TablesShaped(s'.tables)
            && GivenOk(s.given, s.nextProducer, s.order, s'.home, s'.tables)
            && ValuesOk(s.hash, s'.tables, s.given, s'.pc) && LockOk(s'.pc, s.resizing, s.holder)
  {
    InsertTables(s, id, main, n, p, k);
    TakenValues(s, id, main, k, InsertValue(main, p, k));
  }

  lemma StoredTables(s: State, id: Id, main: nat, k: nat, v: Producer)
    requires Inv(s) && main < |s.tables|
    ensures var tables := s.tables[main := WithValue(s.hash, s.tables[main], id, k, v)];
            && TablesOk(s.hash, tables, s.home, s.rank) && TablesShaped(tables)
            && forall u :: TablesFor(u, s.tables, tables)
  {
    var t := s.tables[main];
    var t' := WithValue(s.hash, t, id, k, v);
    var tables := s.tables[main := t'];
    forall j | 0 <= j < |tables| ensures TableOk(s.hash, tables[j], s.home, s.rank, j) {
      assert TableOk(s.hash, s.tables[j], s.home, s.rank, j);
      if j == main {
        forall i | 0 <= i < t.capacity ensures KeyOk(s.hash, t', i) { assert KeyOk(s.hash, t, i); }
        forall u | u in t.dist ensures DistOk(s.hash, t', u) {
          assert DistOk(s.hash, t, u);
          forall i | 0 <= i < t.dist[u] ensures KeyAt(s.hash, t', u, i) != EMPTY { var was := KeyAt(s.hash, t, u, i); }
        }
        forall u ensures MemberOk(t', s.home, s.rank, j, u) { assert MemberOk(t, s.home, s.rank, j, u); }
      }
    }
    forall u ensures TablesFor(u, s.tables, tables) {
      forall j | 0 <= j < |tables| ensures TableFor(u, s.tables[j], tables[j]) {}
    }
  }

  lemma StoredValues(s: State, id: Id, main: nat, k: nat, v: Producer, q: Pc)
    requires Inv(s) && id in s.pc && main < |s.tables| && SlotOf(s.tables[main], id, k) && id in s.given
             && s.given[id] == v
    requires Stores(s.pc[id]) && s.pc[id].main == main && !Stores(q)
    requires TablesShaped(s.tables[main := WithValue(s.hash, s.tables[main], id, k, v)])
    ensures ValuesOk(s.hash, s.tables[main := WithValue(s.hash, s.tables[main], id, k, v)], s.given, s.pc[id := q])
  {
    var t := s.tables[main];
    var tables, pc := s.tables[main := WithValue(s.hash, t, id, k, v)], s.pc[id := q];
    forall j, u | 0 <= j < |tables| ensures ValueOk(s.hash, tables, s.given, pc, j, u) {
      assert ValueOk(s.hash, s.tables, s.given, s.pc, j, u) && TableOk(s.hash, t, s.home, s.rank, main);
      if j == main && u != id && u in t.dist { assert DistOk(s.hash, t, u) && DistOk(s.hash, t, id); }
    }
  }

  lemma StoredOthers(s: State, id: Id, main: nat, k: nat, v: Producer)
    requires Inv(s) && id in s.pc && main < |s.tables| && !Holds(s.pc[id])
    requires ThreadOk(Return(Some(v)), id, s.hash, s.tables, s.order, s.rank, s.given, s.home)
    ensures Shaped(Stored(s, id, main, k, v)) && ThreadsOk(Stored(s, id, main, k, v))
  {
    StoredTables(s, id, main, k, v);
    OthersFine(s, Stored(s, id, main, k, v), id);
  }

  lemma StoreKnows(s: State, id: Id, main: nat, k: nat, v: Producer)
    requires Inv(s) && id in s.pc && main < |s.tables|
             && (s.pc[id] == CopyValue(main, v, k) || s.pc[id] == InsertValue(main, v, k))
    ensures ThreadOk(Return(Some(v)), id, s.hash, s.tables, s.order, s.rank, s.given, s.home)
    ensures SlotOf(s.tables[main], id, k) && id in s.given && s.given[id] == v && Stores(s.pc[id])
            && s.pc[id].main == main
  {
    assert ThreadFine(s, id);
  }

  lemma StoreGiven(s: State, id: Id, main: nat, k: nat, v: Producer)
    requires Inv(s) && main < |s.tables|
    ensures GivenOk(s.given, s.nextProducer, s.order, s.home, Stored(s, id, main, k, v).tables)
  {
  }

  lemma StoreLock(pc: map<Id, Pc>, resizing: bool, holder: Option<Id>, id: Id, q: Pc)
    requires LockOk(pc, resizing, holder) && id in pc && !Holds(pc[id]) && !Holds(q)
    ensures LockOk(pc[id := q], resizing, holder)
  {
  }

  lemma StoreKeeps(s: State, id: Id, main: nat, k: nat, v: Producer)
    requires Inv(s) && id in s.pc && main < |s.tables|
             && (s.pc[id] == CopyValue(main, v, k) || s.pc[id] == InsertValue(main, v, k))
    ensures Inv(Stored(s, id, main, k, v))
  {
    StoreKnows(s, id, main, k, v);
    StoredTables(s, id, main, k, v);
    StoredValues(s, id, main, k, v, Return(Some(v)));
    StoredOthers(s, id, main, k, v);
    StoreGiven(s, id, main, k, v);
    StoreLock(s.pc, s.resizing, s.holder, id, Return(Some(v)));
  }

  // ---------------------------------------------------------------------------
  // Every step, every run
  // ---------------------------------------------------------------------------

  lemma CopyCasStep(s: State, id: Id, main: nat, v: Producer, k: nat)
    requires Inv(s) && id in s.pc && s.pc[id] == CopyCas(main, v, k) && main < |s.tables|
    ensures Inv(DoCopyCas(s, id, main, v, k))
  {
    if KeyAt(s.hash, s.tables[main], id, k) == EMPTY { CopyCasKeeps(s, id, main, v, k); }
    else { CopyProbes(s, id, Copy(main, v, k + 1)); }
  }

  lemma LookingKeeps(s: State, id: Id)
    requires Inv(s) && id in s.pc && Looking(s.pc[id]) && PcShaped(s.pc[id], |s.tables|)
    ensures Inv(DoLooking(s, id))
  {
    match s.pc[id]
    case Idle => MoveKeeps(s, id, LoadMain);
    case LoadMain => MoveKeeps(s, id, Find(s.main, s.main, 0));
    case Find(main, m, k) => FindKeeps(s, id, main, m, k);
    case Copy(main, v, k) =>
      CopyProbes(s, id, if KeyAt(s.hash, s.tables[main], id, k) == EMPTY then CopyCas(main, v, k)
                        else Copy(main, v, k + 1));
    case CopyCas(main, v, k) => CopyCasStep(s, id, main, v, k);
    case CopyValue(main, v, k) => StoreKeeps(s, id, main, k, v);
    case Return(_) => MoveKeeps(s, id, Idle);
  }

  lemma ResizingKeeps(s: State, id: Id, ok: bool)
    requires Inv(s) && id in s.pc && Resizing(s.pc[id]) && PcShaped(s.pc[id], |s.tables|)
    ensures Inv(DoResizing(s, id, ok))
  {
    match s.pc[id]
    case Increment(main) => IncrementKeeps(s, id, main);
    case Test(main, n) => TestKeeps(s, id, main, n);
    case Reload(n) => MoveKeeps(s, id, Enlarge(s.main, n));
    case Enlarge(main, n) => EnlargeKeeps(s, id, main, n, ok);
    case Unlock(main, n) => UnlockKeeps(s, id, Create(main, n));
    case GiveUp(n) => DecrementKeeps(s, id, GiveUpUnlock);
    case GiveUpUnlock => UnlockKeeps(s, id, Return(None));
  }

  lemma InsertCasStep(s: State, id: Id, main: nat, n: int, p: Producer, k: nat)
    requires Inv(s) && id in s.pc && s.pc[id] == InsertCas(main, n, p, k) && main < |s.tables|
    ensures Inv(DoInsertCas(s, id, main, n, p, k))
  {
    if KeyAt(s.hash, s.tables[main], id, k) == EMPTY { InsertCasKeeps(s, id, main, n, p, k); }
    else { InsertProbes(s, id, Insert(main, n, p, k + 1)); }
  }

  lemma InsertStep(s: State, id: Id, main: nat, n: int, p: Producer, k: nat)
    requires Inv(s) && id in s.pc && s.pc[id] == Insert(main, n, p, k) && main < |s.tables|
    ensures Inv(Goto(s, id, if KeyAt(s.hash, s.tables[main], id, k) == EMPTY then InsertCas(main, n, p, k)
                            else Insert(main, n, p, k + 1)))
  {
    InsertProbes(s, id, if KeyAt(s.hash, s.tables[main], id, k) == EMPTY then InsertCas(main, n, p, k)
                        else Insert(main, n, p, k + 1));
  }

  lemma AddingKeeps(s: State, id: Id, ok: bool)
    requires Inv(s) && id in s.pc && Adding(s.pc[id]) && PcShaped(s.pc[id], |s.tables|)
    ensures Inv(DoAdding(s, id, ok))
  {
    match s.pc[id]
    case Create(main, n) => CreateKeeps(s, id, main, n, ok);
    case NoProducer(n) => DecrementKeeps(s, id, Return(None));
    case Insert(main, n, p, k) => InsertStep(s, id, main, n, p, k);
    case InsertCas(main, n, p, k) => InsertCasStep(s, id, main, n, p, k);
    case InsertValue(main, p, k) => StoreKeeps(s, id, main, k, p);
  }

  lemma StepKeeps(s: State, a: Action)
    requires Inv(s) && Enabled(s, a)
    ensures Inv(Do(s, a))
  {
    assert PcShaped(s.pc[a.id], |s.tables|);
    if Looking(s.pc[a.id]) { LookingKeeps(s, a.id); }
    else if Resizing(s.pc[a.id]) { ResizingKeeps(s, a.id, a.ok); }
    else { AddingKeeps(s, a.id, a.ok); }
  }

  /** The constructor's table (3232-3245), no producer yet; producer 0 stands for null. */
  predicate Init(s: State) {
    && s.tables == [NewTable(INITIAL_IMPLICIT_PRODUCER_HASH_SIZE, -1)] && s.main == 0
    && s.count == 0 && !s.resizing && s.nextProducer > 0
    && EMPTY !in s.pc && (forall id {:trigger s.pc[id]} :: id in s.pc ==> s.pc[id] == Idle)
    && s.order == [] && s.rank == map[] && s.given == map[] && s.home == map[] && s.holder == None
  }

  lemma InitInv(s: State)
    requires Init(s)
    ensures Inv(s)
  {
    var t := s.tables[0];
    assert 32 == Pow2(5);
    forall i | 0 <= i < t.capacity ensures KeyOk(s.hash, t, i) {}
    forall u ensures MemberOk(t, s.home, s.rank, 0, u) {}
    assert TableOk(s.hash, t, s.home, s.rank, 0);
    forall id | id in s.pc ensures PcShaped(s.pc[id], 1) {}
    assert Shaped(s);
    forall id | id in s.pc ensures ThreadFine(s, id) {}
  }

  /** A run, last state included; RunInvariant shows that every state of a run is shaped. */
  datatype Run = Start(last: State) | Then(prev: Run, action: Action, last: State)

  ghost predicate IsRun(r: Run) {
    match r
    case Start(s) => Init(s)
    case Then(p, a, s) => IsRun(p) && Shaped(p.last) && Enabled(p.last, a) && s == Do(p.last, a)
  }

  lemma {:induction false} RunInvariant(r: Run)
    requires IsRun(r)
    ensures Inv(r.last)
  {
    match r
    case Start(s) => InitInv(s);
    case Then(p, a, s) =>
      RunInvariant(p);
      StepKeeps(p.last, a);
  }

  // ---------------------------------------------------------------------------
  // What the invariant is for
  // ---------------------------------------------------------------------------

  /** At some point of the run a call by thread id was about to return producer p. */
  predicate Returned(r: Run, id: Id, p: Producer) {
    (id in r.last.pc && r.last.pc[id] == Return(Some(p))) || (r.Then? && Returned(r.prev, id, p))
  }

  lemma LookingGives(s: State, id: Id)
    requires Shaped(s) && id in s.pc && PcShaped(s.pc[id], |s.tables|) && Looking(s.pc[id])
    ensures DoLooking(s, id).given == s.given
  {
    match s.pc[id]
    case Find(main, m, k) => assert DoFind(s, id, main, m, k).given == s.given;
    case CopyCas(main, v, k) => assert DoCopyCas(s, id, main, v, k).given == s.given;
    case _ =>
  }

  lemma ResizingGives(s: State, id: Id, ok: bool)
    requires Shaped(s) && id in s.pc && PcShaped(s.pc[id], |s.tables|) && Resizing(s.pc[id])
    ensures DoResizing(s, id, ok).given == s.given
  {
    if s.pc[id].Enlarge? { EnlargingGives(s, id, ok); }
  }

  lemma EnlargingGives(s: State, id: Id, ok: bool)
    requires Shaped(s) && id in s.pc && PcShaped(s.pc[id], |s.tables|) && s.pc[id].Enlarge?
    ensures DoResizing(s, id, ok).given == s.given
  {
    var main, n := s.pc[id].main, s.pc[id].n;
    assert DoResizing(s, id, ok) == DoEnlarge(s, id, main, n, ok);
    EnlargeGives(s, id, main, n, ok);
  }

  lemma EnlargeGives(s: State, id: Id, main: nat, n: int, ok: bool)
    requires Shaped(s) && main < |s.tables|
    ensures DoEnlarge(s, id, main, n, ok).given == s.given
  {
  }

  lemma AddingGives(s: State, id: Id, ok: bool, u: Id)
    requires Inv(s) && id in s.pc && PcShaped(s.pc[id], |s.tables|) && Adding(s.pc[id]) && u in s.given
    ensures u in DoAdding(s, id, ok).given && DoAdding(s, id, ok).given[u] == s.given[u]
  {
    assert ThreadFine(s, id);
  }

  lemma GivenStays(s: State, a: Action, id: Id)
    requires Inv(s) && Enabled(s, a) && id in s.given
    ensures id in Do(s, a).given && Do(s, a).given[id] == s.given[id]
  {
    assert PcShaped(s.pc[a.id], |s.tables|);
    if Looking(s.pc[a.id]) { LookingGives(s, a.id); }
    else if Resizing(s.pc[a.id]) { ResizingGives(s, a.id, a.ok); }
    else { AddingGives(s, a.id, a.ok, id); }
  }

  lemma {:induction false} ReturnedIsGiven(r: Run, id: Id, p: Producer)
    requires IsRun(r) && Returned(r, id, p)
    ensures id in r.last.given && r.last.given[id] == p
  {
    RunInvariant(r);
    if id in r.last.pc && r.last.pc[id] == Return(Some(p)) { assert ThreadFine(r.last, id); }
    else {
      RunInvariant(r.prev);
      ReturnedIsGiven(r.prev, id, p);
      GivenStays(r.prev.last, r.action, id);
    }
  }

  /** Over a whole run: a thread gets the same producer at every call, and no two threads get the same. */
  lemma OneProducerPerThread(r: Run, id: Id, id': Id, p: Producer, p': Producer)
    requires IsRun(r) && Returned(r, id, p) && Returned(r, id', p')
    ensures id == id' <==> p == p'
  {
    RunInvariant(r);
    ReturnedIsGiven(r, id, p);
    ReturnedIsGiven(r, id', p');
  }

  /** A lookup that found nothing was right: a thread about to add itself is in no table, so in none twice. */
  lemma NotFoundIsAbsent(r: Run, id: Id, j: nat)
    requires IsRun(r) && id in r.last.pc && r.last.pc[id].Increment? && j < |r.last.tables|
    ensures id !in r.last.given && id !in r.last.tables[j].keys
  {
    var s := r.last;
    RunInvariant(r);
    assert ThreadFine(s, id) && TableOk(s.hash, s.tables[j], s.home, s.rank, j);
    assert MemberOk(s.tables[j], s.home, s.rank, j, id);
    forall i | 0 <= i < s.tables[j].capacity ensures s.tables[j].keys[i] != id { assert KeyOk(s.hash, s.tables[j], i); }
  }

  // How full a table gets

  function Elems(x: seq<Id>): set<Id> { set i | 0 <= i < |x| :: x[i] }

  lemma {:induction false} ElemsCount(x: seq<Id>)
    ensures |Elems(x)| <= |x|
    ensures NoDup(x) ==> |Elems(x)| == |x|
  {
    if x != [] {
      var init := x[..|x| - 1];
      ElemsCount(init);
      assert Elems(x) == Elems(init) + {x[|x| - 1]};
    }
  }

  /** Ids counted below a limit are fewer than the limit. */
  lemma Crowd(x: seq<Id>, order: seq<Id>, rank: map<Id, int>, count: int, limit: int)
    requires OrderOk(order, rank, count) && NoDup(x) && limit >= 1
    requires forall i {:trigger x[i]} :: 0 <= i < |x| ==> x[i] in order && x[i] in rank && rank[x[i]] < limit
    ensures |x| < limit
  {
    var n := if limit - 1 < |order| then limit - 1 else |order|;
    var first := order[..n];
    forall i | 0 <= i < |x| ensures x[i] in Elems(first) {
      var k :| 0 <= k < |order| && order[k] == x[i];
      assert RankOk(order, rank, k);
      assert first[k] == x[i];
    }
    ElemsCount(x);
    ElemsCount(first);
    SubsetCard(Elems(x), Elems(first));
  }

  /** Distinct ids of one table: fewer than three quarters of its capacity. */
  lemma TableCrowd(s: State, j: nat, x: seq<Id>)
    requires Inv(s) && j < |s.tables| && NoDup(x)
    requires forall i {:trigger x[i]} :: 0 <= i < |x| ==> x[i] in s.tables[j].dist
    ensures |x| < Limit(s.tables[j].capacity) < s.tables[j].capacity
  {
    var t := s.tables[j];
    assert TableOk(s.hash, t, s.home, s.rank, j);
    forall i | 0 <= i < |x| ensures x[i] in s.order && x[i] in s.rank && s.rank[x[i]] < Limit(t.capacity) {
      assert MemberOk(t, s.home, s.rank, j, x[i]);
      var h := s.home[x[i]];
      var g := s.given[x[i]];
    }
    Crowd(x, s.order, s.rank, s.count, Limit(t.capacity));
  }

  /** The keys of the filled slots. */
  function Filled(keys: seq<Id>): seq<Id> {
    if keys == [] then []
    else Filled(keys[..|keys| - 1]) + if keys[|keys| - 1] == EMPTY then [] else [keys[|keys| - 1]]
  }

  lemma {:induction false} FilledAre(keys: seq<Id>)
    requires forall i, j {:trigger keys[i], keys[j]} :: 0 <= i < j < |keys| && keys[i] != EMPTY ==> keys[i] != keys[j]
    ensures NoDup(Filled(keys))
    ensures forall u {:trigger u in Filled(keys)} :: u in Filled(keys) <==> u != EMPTY && u in keys
  {
    if keys != [] {
      var init, last := keys[..|keys| - 1], keys[|keys| - 1];
      FilledAre(init);
      assert keys == init + [last];
      assert last != EMPTY ==> last !in init && last !in Filled(init);
    }
  }

  /** Fewer than three quarters of any table's slots are ever filled, lazy copies included. */
  lemma ThreeQuarters(r: Run, j: nat)
    requires IsRun(r) && j < |r.last.tables|
    ensures |Filled(r.last.tables[j].keys)| < Limit(r.last.tables[j].capacity)
  {
    var s, t := r.last, r.last.tables[j];
    RunInvariant(r);
    assert TableOk(s.hash, t, s.home, s.rank, j);
    forall i, i' | 0 <= i < i' < |t.keys| && t.keys[i] != EMPTY ensures t.keys[i] != t.keys[i'] {
      assert KeyOk(s.hash, t, i) && KeyOk(s.hash, t, i');
    }
    FilledAre(t.keys);
    var x := Filled(t.keys);
    forall i | 0 <= i < |x| ensures x[i] in t.dist {
      assert x[i] in x;
      var slot :| 0 <= slot < |t.keys| && t.keys[slot] == x[i];
      assert KeyOk(s.hash, t, slot);
    }
    TableCrowd(s, j, x);
  }

  // How long a probe loop runs

  lemma PassedIsShort(s: State, j: nat, id: Id, k: nat)
    requires Inv(s) && j < |s.tables| && Passed(s.hash, s.tables[j], id, k)
    ensures k < Limit(s.tables[j].capacity)
  {
    var t := s.tables[j];
    assert TableOk(s.hash, t, s.home, s.rank, j);
    var n := if k < t.capacity then k else t.capacity;
    var x := seq(n, i requires 0 <= i < n => KeyAt(s.hash, t, id, i));
    forall i | 0 <= i < n ensures x[i] in t.dist {
      assert KeyAt(s.hash, t, id, i) != EMPTY && KeyOk(s.hash, t, Probe(s.hash, id, t.capacity, i));
    }
    forall i, i' | 0 <= i < i' < n ensures x[i] != x[i'] {
      assert KeyAt(s.hash, t, id, i) != EMPTY;
      assert KeyOk(s.hash, t, Probe(s.hash, id, t.capacity, i)) && KeyOk(s.hash, t, Probe(s.hash, id, t.capacity, i'));
      ModDistinct(s.hash(id) + i, s.hash(id) + i', t.capacity);
    }
    TableCrowd(s, j, x);
  }

  /** Every probe loop ends: it has passed fewer than three quarters of the slots, so it finds id or an empty slot. */
  lemma ProbesEnd(r: Run, id: Id)
    requires IsRun(r) && id in r.last.pc
    ensures var s, p := r.last, r.last.pc[id];
            && PcShaped(p, |s.tables|)
            && (p.Find? && p.m >= 0 ==> p.k < Limit(s.tables[p.m].capacity))
            && (p.Copy? || p.CopyCas? || p.Insert? || p.InsertCas? ==> p.k < Limit(s.tables[p.main].capacity))
  {
    var s, p := r.last, r.last.pc[id];
    RunInvariant(r);
    assert ThreadFine(s, id) && PcShaped(p, |s.tables|);
    if p.Find? && p.m >= 0 { PassedIsShort(s, p.m, id, p.k); }
    if p.Copy? || p.CopyCas? || p.Insert? || p.InsertCas? { PassedIsShort(s, p.main, id, p.k); }
  }

  // Tables and counts

  /** The chain from the main table goes through all tables, none smaller than the ones before it. */
  lemma ChainIsComplete(r: Run, j: nat)
    requires IsRun(r) && j < |r.last.tables|
    ensures var s := r.last;
            && s.main == |s.tables| - 1 && s.tables[j].prev == j - 1 && IsPow2(s.tables[j].capacity)
            && (j > 0 ==> s.tables[j].capacity >= s.tables[j - 1].capacity)
  {
    RunInvariant(r);
    assert TableOk(r.last.hash, r.last.tables[j], r.last.home, r.last.rank, j);
    if j > 0 { assert r.last.tables[j - 1].capacity <= r.last.tables[j].capacity; }
  }

  /** A thread that has just enlarged the hash need not wait: its count is below the new table's limit. */
  lemma EnlargedHasRoom(r: Run, id: Id, main: nat, n: int)
    requires IsRun(r) && id in r.last.pc && r.last.pc[id] == Enlarge(main, n)
    ensures main < |r.last.tables| && Shaped(r.last) && HasRoom(r.last, main, n, DoEnlarge(r.last, id, main, n, true))
  {
    RunInvariant(r);
    HasRoomAt(r.last, id, main, n);
  }

  predicate HasRoom(s: State, main: nat, n: int, s': State)
    requires main < |s.tables|
  {
    n >= s.tables[main].capacity / 2 ==> s'.main < |s'.tables| && n < Limit(s'.tables[s'.main].capacity)
  }

  lemma HasRoomAt(s: State, id: Id, main: nat, n: int)
    requires Inv(s) && id in s.pc && s.pc[id] == Enlarge(main, n)
    ensures main < |s.tables| && HasRoom(s, main, n, DoEnlarge(s, id, main, n, true))
  {
    assert PcShaped(s.pc[id], |s.tables|);
    DoublesUp(s.tables[main].capacity, n);
  }

  /** With no call in progress the count is the number of threads with a producer, and the flag is clear. */
  lemma QuiescentCount(r: Run)
    requires IsRun(r) && AllIdle(r.last.pc)
    ensures r.last.count == |r.last.given.Keys| && !r.last.resizing
  {
    RunInvariant(r);
    CountAt(r.last);
  }

  predicate AllIdle(pc: map<Id, Pc>) { forall id {:trigger pc[id]} :: id in pc ==> pc[id] == Idle }

  lemma CountAt(s: State)
    requires Inv(s) && AllIdle(s.pc)
    ensures s.count == |s.given.Keys| && !s.resizing
  {
    forall id ensures id in s.order <==> id in s.given {
      if id in s.order { assert id in s.pc && s.pc[id] == Idle && ThreadFine(s, id); }
      if id in s.given { var p := s.given[id]; }
    }
    assert Elems(s.order) == s.given.Keys;
    ElemsCount(s.order);
    forall id | id in s.pc ensures s.holder != Some(id) { assert s.pc[id] == Idle; }
  }
}
