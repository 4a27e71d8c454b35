# libmoon pipes, checksums and pcap files: a model with proofs

libmoon tasks share state through two lock-free queues. This project models them, with the
Internet checksum arithmetic and the pcap reader and writer, and proves what each is for. Check it
with `dafny verify dfyconfig.toml`.

| file | what it models |
|---|---|
| `FreeList.dfy` | the MPMC queue's reference-counted free list of blocks |
| `OptimisticDequeue.dfy` | how consumers of one producer come by disjoint claims on its elements |
| `ImplicitProducer.dfy` | one producer's blocks: circular block index, bulk enqueue and its undoing, emptiness counters, block ownership; its steps and its invariant |
| `ImplicitProducerSteps.dfy` | every step keeps that invariant |
| `ImplicitProducerRuns.dfy` | what follows for whole runs: lookups, ownership, all-or-nothing enqueue, the pool |
| `ImplicitProducerDelivery.dfy` | and for what consumers receive: every element once, in order |
| `ImplicitProducerWords.dfy` | and for the code's masks and 64-bit lookups: capacities are powers of two |
| `Composition.dfy` | the consumers' counters and the producer's blocks as one machine |
| `BlockPool.dfy` | what a pool of blocks is to its users |
| `ProducerHash.dfy` | the hash from thread ids to producers, with lazily copied, growing tables |
| `SlotArithmetic.dfy` | the same queue's index arithmetic modulo 2^64 |
| `SpscQueue.dfy` | the single-producer single-consumer queue, a circular list of ring buffers |
| `SpscSize.dfy` | its `size_approx`, called by one thread while the other works |
| `PowersOfTwo.dfy` | rounding up to a power of two and masking, as both queues do it |
| `Checksum.dfy` | the IPv4 and IPv6 pseudo-header sums, the generic 16-bit sum and Lua's `checksum` |
| `Pcap.dfy` | writing and reading pcap files byte by byte |
| `LittleEndian.dfy`, `Modular.dfy`, `Basics.dfy` | loads and stores of words; remainders; small definitions |

The MPMC queue is taken as `src/pipe.cpp` instantiates it: elements are pointers, so nothing throws;
there are no producer tokens, so only implicit producers exist; thread-exit support is off, so
producers and hash keys are never removed.

**Concurrent code** is a transition system: a state, one shared atomic access per step, any number
of threads (of consumers, where there is one producer), any interleaving, sequentially consistent
memory. A `Run` is any sequence of such steps from a constructed object, and the theorems speak of
every run. Fields documented as auxiliary are histories and bookkeeping that no step reads to make
its choice. Indices are unbounded; `SlotArithmetic` says when the 64-bit words compute the same.
Each protocol has its own machine. `Composition` joins `OptimisticDequeue` and `ImplicitProducer`: its
runs project to runs of both, so what each of them proves holds of the two together. `PoolRefines`
shows, for `FreeList` on one side and for the producer on the other, that each step takes a block from
the same kind of pool, gives one back, or leaves it.

**Sequential code** (rounding, checksums, pcap, the SPSC constructor) is methods with loops, and
classes where the source has objects that it updates.

Where the code does not do what one would expect of it, the model follows the code and the exact
condition is proved:

- `get_ipv4_psd_sum` shifts a promoted protocol byte, so for protocols from 128 on the sum is
  sign-extended. `GetIpv4PsdSum` proves that the result is right if and only if the protocol is
  below 128 or the addends stay below 2^32; `SctpSumDiffers` is a failing header.
- `readSingle` stops when fewer than 32 bytes are left, so a last packet stored in fewer than 16
  bytes is not read alone, although a batch that began before it delivers it. `SinglesDeliver`,
  `BatchIsSingles` and `EmptyMeansAll` give the exact conditions, `ShortLastIsLost` an example.
- `libmoon_read_pcap` tests `incl_len` against what is left without counting the record header. So of
  a file cut off less than a header's length before the end of its last record it takes that record
  too. `ReadRecord` says which bytes one call reads. With `cut` bytes left of a cut-off record, single
  reads stay in the file if and only if the test stops them, or `cut` is below 32, or header and copy
  end within `cut` (`SinglesStayInsideIff`); a batch also has to stop there, as what it counts as left
  has then wrapped around (`BatchStaysInsideIff`). `ReadCutRecord` reads every file of one cut-off
  record; `ReadCutFiles` has one that is read beyond its end and one that is not.
- `writer:write` doubles the mapping once. `Writer.Write` proves that this suffices if and only if the
  record ends within twice the size; `LongPacketLeavesMapping` is a packet for which it does not.
- The comment in the SPSC queue limits the capacity guarantee to the blocks of the constructor;
  `FailedTryEnqueueMeansFull` proves it for grown queues too.

## Model

| member | source | states |
|---|---|---|
| `FreeList.RunInvariant` | lib/concurrentqueue/concurrentqueue.h:1364-1443 | in every state of every run the list from the head is acyclic, and each node's count, bit, place and next pointer fit the threads that hold, add, push or take it |
| `FreeList.TakenIsExclusive` | lib/concurrentqueue/concurrentqueue.h:1395-1402 | a successful head exchange took a node whose SHOULD_BE_ON_FREELIST bit is clear (the assertion at 1398), that is off the list, and that no other thread takes, adds or pushes |
| `FreeList.NoDoubleHandOut` | lib/concurrentqueue/concurrentqueue.h:1378-1415 | a node that `try_get` returns was not in any client's hands, by the clients' own record of the run |
| `FreeList.ClientOwnsIsOwned` | lib/concurrentqueue/concurrentqueue.h:1364-1415 | the clients' record (handed out, not added back since) agrees with the model's place of every node |
| `FreeList.NextIsStable` | lib/concurrentqueue/concurrentqueue.h:1392-1395 | no step changes `freeListNext` of a node that is on the list or that a thread references: why the exchange is free of ABA |
| `FreeList.NothingIsLost` | lib/concurrentqueue/concurrentqueue.h:1371-1375 | every node is owned, listed, being added, pushed by exactly one thread, just taken, or waiting for threads that still reference it, with exactly the reference count this implies |
| `FreeList.LastHolderPushes` | lib/concurrentqueue/concurrentqueue.h:1408-1411 | of the threads that reference a waiting node, the one that drops the last reference, and no other, becomes its pusher |
| `FreeList.QuiescentListIsExact` | lib/concurrentqueue/concurrentqueue.h:1364-1443 | with no operation in progress the chain holds exactly the nodes no client owns, each once, with count 1, and owned nodes have count 0 |
| `FreeList.PoolRefines` | lib/concurrentqueue/concurrentqueue.h:2965-2985 | to its users the list is a pool: a returning `try_get` takes a node that is in it, a call of `add` gives one that is not, no other step changes it |
| `OptimisticDequeue.CommittedBound` | lib/concurrentqueue/concurrentqueue.h:2466-2475 | if every granted unit was below the tail when counted without the failed ones before it, all granted units together fit below the tail |
| `OptimisticDequeue.HeadNeverPassesTail` | lib/concurrentqueue/concurrentqueue.h:2466-2528 | `headIndex` plus all claims decided but not carried out never exceeds `tailIndex`, whatever stale values consumers hold |
| `OptimisticDequeue.ClaimIsAllowed` | lib/concurrentqueue/concurrentqueue.h:2705-2707 | a claim about to be made ends at or below the tail, is no longer than the caller's max, and is empty only if that is 0 |
| `OptimisticDequeue.OvercommitBelowMine` | lib/concurrentqueue/concurrentqueue.h:2471-2472 | `overcommit <= myDequeueCount` (the assertions at 2472 and 2695) |
| `OptimisticDequeue.ClaimsAreDisjoint` | lib/concurrentqueue/concurrentqueue.h:2475-2475 | an index that two consumers claimed is claimed by one, and lies below the tail |
| `OptimisticDequeue.ClaimsOnlyGrow` | lib/concurrentqueue/concurrentqueue.h:2707-2707 | the record of who claimed which index has length `headIndex` and is only ever extended |
| `OptimisticDequeue.CounterConservation` | lib/concurrentqueue/concurrentqueue.h:2687-2707 | `dequeueOptimisticCount` = `headIndex` + `dequeueOvercommit` + what is reserved and unresolved, in every state |
| `OptimisticDequeue.QuiescentCountsAreExact` | lib/concurrentqueue/concurrentqueue.h:1655-1660 | with no consumer between two accesses the counters' difference is `headIndex`, which is the number of indices ever claimed, and `size_approx` is the number of indices not claimed |
| `OptimisticDequeue.UndisturbedDequeue` | lib/concurrentqueue/concurrentqueue.h:2684-2785 | a dequeue that nobody disturbs, with any max, claims min(max, left) elements from the oldest on in its six accesses, and comes back empty-handed just when the producer is empty |
| `ImplicitProducerRuns.RunInvariant` | lib/concurrentqueue/concurrentqueue.h:2398-2906 | index window, live blocks, counters, contents and both sides' positions fit together in every state of every run |
| `ImplicitProducerRuns.NeverStuck` | lib/concurrentqueue/concurrentqueue.h:2398-2906 | no run reaches a state in which a block pointer, header or slot cannot be followed |
| `ImplicitProducerRuns.LookupIsRight` | lib/concurrentqueue/concurrentqueue.h:2846-2862 | a consumer's lookup meets a valid tail key and finds the entry with its block's key and a non-null block (the assertions at 2855 and 2860), although its loads interleave with inserts, rewinds and doublings |
| `ImplicitProducerWords.CapacitiesDouble` | lib/concurrentqueue/concurrentqueue.h:2864-2903 | in every run the h-th header has capacity 32 doubled h times, a power of two |
| `ImplicitProducerWords.MasksAreRight` | lib/concurrentqueue/concurrentqueue.h:2810-2836 | the masked steps to the next slot, to the one before and to a doubled header's tail are the model's reductions, the decrement of tail 0 included |
| `ImplicitProducerWords.LookupsAgree` | lib/concurrentqueue/concurrentqueue.h:2846-2862 | in every run the lookup in 64-bit words, rounding, unsigned division and mask, comes to the slot that the model looks up, in any header that covers no more than 2^64 indices |
| `ImplicitProducerWords.WordLookupIsRight` | lib/concurrentqueue/concurrentqueue.h:2846-2862 | so a consumer's lookup in words finds the entry with its block's key and a non-null block |
| `ImplicitProducerRuns.NextSlotIsRight` | lib/concurrentqueue/concurrentqueue.h:2718-2719 | so does every further slot that a bulk dequeue steps on to in the header it loaded first |
| `ImplicitProducerRuns.UndoLookupIsRight` | lib/concurrentqueue/concurrentqueue.h:2577-2582 | the producer's own lookups while undoing a bulk enqueue find the entries of the blocks it acquired |
| `ImplicitProducerRuns.ReadsItsElement` | lib/concurrentqueue/concurrentqueue.h:2721-2726 | what a consumer reads at index i is the i-th element ever enqueued at this producer |
| `ImplicitProducerDelivery.DeliveredOnce` | lib/concurrentqueue/concurrentqueue.h:2710-2727 | over every run no index is delivered twice, each with the element enqueued at it, each consumer's indices increase, and a taken index is delivered unless its consumer has still to read it |
| `ImplicitProducerDelivery.NothingLostNorDoubled` | lib/concurrentqueue/concurrentqueue.h:2462-2528 | with no dequeue in progress the delivered indices are exactly those below `headIndex`, and the multiset of delivered values plus that of the values the indexed blocks hold from `headIndex` to `tailIndex` is the multiset of values enqueued |
| `ImplicitProducerDelivery.RecordIsPermutation` | lib/concurrentqueue/concurrentqueue.h:2475-2482 | deliveries of all indices below n, none twice, hold the first n elements as a multiset |
| `Composition.ClaimIsEnabled` | lib/concurrentqueue/concurrentqueue.h:2466-2475 | in every run of counters and blocks together, each addition to `headIndex` is a claim that `ImplicitProducer` allows, from the same head below the same tail |
| `Composition.CountersProject` | lib/concurrentqueue/concurrentqueue.h:2466-2528 | such a run is, to the counters, a run of `OptimisticDequeue` |
| `Composition.BlocksProject` | lib/concurrentqueue/concurrentqueue.h:2398-2862 | and, to the blocks, a run of `ImplicitProducer` with the same `headIndex`, `tailIndex` and elements, in which a consumer touches blocks only with a claim |
| `Composition.NeverStuck` | lib/concurrentqueue/concurrentqueue.h:2398-2906 | no such run reaches a state in which a pointer or slot cannot be followed |
| `Composition.ReturnDelivers` | lib/concurrentqueue/concurrentqueue.h:2684-2785 | a dequeue that returns has delivered to its caller exactly the elements enqueued at the indices it claimed, and no index is delivered twice |
| `Composition.CountersCountDeliveries` | lib/concurrentqueue/concurrentqueue.h:1655-1660 | with no dequeue in progress `dequeueOptimisticCount` - `dequeueOvercommit` is the number of elements delivered, `size_approx` that of the elements left, and both together are the elements enqueued |
| `ImplicitProducerRuns.ClaimsStayApart` | lib/concurrentqueue/concurrentqueue.h:2475-2482 | no index is claimed and unmarked by two consumers, and all claimed ones are below the tail |
| `ImplicitProducerRuns.NewSlotIsInvalid` | lib/concurrentqueue/concurrentqueue.h:2824-2829 | after a doubling the slot the producer goes on to was never used (the assertion at 2827) |
| `ImplicitProducerSteps.GrowWindow` | lib/concurrentqueue/concurrentqueue.h:2864-2906 | the doubled header has for every number in the window the entry it had, and new invalid entries for the numbers after it |
| `ImplicitProducerRuns.WritesItsOwnBlock` | lib/concurrentqueue/concurrentqueue.h:2610-2679 | every write goes to a block in the producer's index, under the number of the written index, which no consumer has claimed |
| `ImplicitProducerRuns.BlockInOnePlace` | lib/concurrentqueue/concurrentqueue.h:2954-3006 | each block is the value of exactly one number's entry, or in the producer's hand, or in exactly one consumer's hand, or at exactly one index of the initial pool not yet given out, or, by its recorded place, in the pool, with the allocator or with another producer |
| `ImplicitProducerRuns.PoolRefines` | lib/concurrentqueue/concurrentqueue.h:2965-3006 | the producer, its consumers and other producers use the free blocks as a pool: each step takes one that is in it, gives one that is not, or leaves it |
| `ImplicitProducerRuns.OneConsumerCompletes` | lib/concurrentqueue/concurrentqueue.h:1502-1539 | over a run, the counter of a block number reaches BLOCK_SIZE for exactly one consumer if all its indices are marked, and for none before |
| `ImplicitProducerRuns.CounterStaysInBlock` | lib/concurrentqueue/concurrentqueue.h:1535-1537 | an increment never takes a counter past BLOCK_SIZE (the assertions at 1513 and 1536) |
| `ImplicitProducerRuns.EnqueueIsAllOrNothing` | lib/concurrentqueue/concurrentqueue.h:2534-2682 | when an enqueue of any count, 0 included, returns: if no index or block allocation of the call failed, exactly its elements were appended in order; if one failed, contents, `tailIndex`, `tailBlock` and the index's tail are as at the call; either way no acquired block is left over |
| `ImplicitProducerRuns.QuiescentIndexIsExact` | lib/concurrentqueue/concurrentqueue.h:2512-2521 | with everybody outside, the index holds exactly the blocks with an element left, and no block is in anybody's hand: emptied blocks were all given back |
| `ProducerHash.OneProducerPerThread` | lib/concurrentqueue/concurrentqueue.h:3282-3430 | over a run, two returned producers are the same if and only if the threads are |
| `ProducerHash.NotFoundIsAbsent` | lib/concurrentqueue/concurrentqueue.h:3302-3346 | a thread whose lookup found nothing is in no table and has no producer |
| `ProducerHash.ThreeQuarters` | lib/concurrentqueue/concurrentqueue.h:3384-3387 | fewer than three quarters of any table's slots are filled, lazy copies included |
| `ProducerHash.ProbesEnd` | lib/concurrentqueue/concurrentqueue.h:3305-3342 | every probe loop, of lookup, copy and insertion, has passed fewer slots than three quarters of the table |
| `ProducerHash.ChainIsComplete` | lib/concurrentqueue/concurrentqueue.h:3374-3375 | the main table is the newest and the chain from it goes through all tables; capacities are powers of two and never shrink |
| `ProducerHash.EnlargedHasRoom` | lib/concurrentqueue/concurrentqueue.h:3354-3387 | a thread that enlarged the hash passes the three-quarters test on its new table |
| `ProducerHash.QuiescentCount` | lib/concurrentqueue/concurrentqueue.h:3346-3395 | with no call in progress the hash count is the number of threads with a producer, and the resize flag is clear |
| `SlotArithmetic.CircularLessThanExact` | lib/concurrentqueue/concurrentqueue.h:398-409 | `circular_less_than` decides integer order if and only if the true indices are less than 2^63 apart (2^63 allowed one way) |
| `SlotArithmetic.SlotIsRight` | lib/concurrentqueue/concurrentqueue.h:2851-2859 | with capacity * BLOCK_SIZE up to 2^64 the unsigned division selects the right slot, for blocks behind and ahead of the tail |
| `SlotArithmetic.SlotsRightIff` | lib/concurrentqueue/concurrentqueue.h:2851-2859 | and it does so for all blocks if and only if that product fits |
| `SlotArithmetic.BlockBaseDiff` | lib/concurrentqueue/concurrentqueue.h:2551-2553 | the block base difference of a bulk enqueue is BLOCK_SIZE times the number of blocks that start in the new range, also when `startTailIndex - 1` wraps |
| `PowersOfTwo.CeilToPow2` | lib/spsc-queue/readerwriterqueue.h:519-531 | the smearing loop returns the least power of two that is not smaller, for 1 to 2^63, and 0 otherwise |
| `PowersOfTwo.MaskIsModulo` | lib/concurrentqueue/concurrentqueue.h:2859-2859 | masking with 2^k - 1 is reduction modulo 2^k |
| `SpscQueue.Construct` | lib/spsc-queue/readerwriterqueue.h:68-117 | the constructor's blocks form a ring with front and tail at its first block, and guarantee room for maxSize elements |
| `SpscQueue.RunInvariant` | lib/spsc-queue/readerwriterqueue.h:186-508 | ring, block states, stale copies and both sides' positions fit together in every state of every run |
| `SpscQueue.Fifo` | lib/spsc-queue/readerwriterqueue.h:186-277 | what was dequeued, followed by the blocks' contents from `frontBlock` to `tailBlock`, is what was enqueued, in order |
| `SpscQueue.StepRefinesFifo` | lib/spsc-queue/readerwriterqueue.h:414-508 | every step leaves the queue, appends the caller's value, or removes the head |
| `SpscQueue.FalseMeansEmpty` | lib/spsc-queue/readerwriterqueue.h:209-274 | when a dequeue returns false, the queue was empty at the instant this call loaded the front block's tail |
| `SpscQueue.PeekNamesHead` | lib/spsc-queue/readerwriterqueue.h:285-322 | a pointer from `peek` holds the head of the queue as long as the consumer has not removed it |
| `SpscQueue.RemovesHead` | lib/spsc-queue/readerwriterqueue.h:218-225 | `try_dequeue` and `pop` remove the head |
| `SpscQueue.NextBlockEmptyForProducer` | lib/spsc-queue/readerwriterqueue.h:451-459 | a block the producer moves on to is empty (the assertion at 459) |
| `SpscQueue.NextBlockFilledForConsumer` | lib/spsc-queue/readerwriterqueue.h:241-252 | a block the consumer moves on to is not (the assertions at 252, 317 and 368) |
| `SpscQueue.SlotsAreSafe` | lib/spsc-queue/readerwriterqueue.h:427-439 | stale `localFront` and `localTail` never allow overwriting an unread element or reading an unwritten slot |
| `SpscQueue.FailedTryEnqueueMeansFull` | lib/spsc-queue/readerwriterqueue.h:431-500 | when a `try_enqueue` returns false, the queue held at least maxSize elements at the instant this call loaded `front`, whether or not the queue has grown |
| `SpscQueue.SizesArePowersOfTwo` | lib/spsc-queue/readerwriterqueue.h:472-478 | every block, initial or grown, has a power of two as size |
| `SpscQueue.IndexStep` | lib/spsc-queue/readerwriterqueue.h:431-431 | `(i + 1) & sizeMask` on reduced indices is the reduced next index |
| `SpscSize.ConsumerSeesBetween` | lib/spsc-queue/readerwriterqueue.h:394-407 | called by the consumer while the producer works: at least the length at the start, at most the length at the end, an element about to be handed over included |
| `SpscSize.ProducerSeesBetween` | lib/spsc-queue/readerwriterqueue.h:394-407 | called by the producer while the consumer works: at most the length at the start, at least the length at the end |
| `SpscSize.StillIsExact` | lib/spsc-queue/readerwriterqueue.h:392-407 | with nothing going on the walk counts the queue exactly |
| `Checksum.Get16bSum` | src/util.c:67-86 | the loop returns the one's complement sum of the little-endian words, odd lengths included |
| `Checksum.FoldIsUnique` | src/util.c:75-85 | that sum is the one 16-bit value congruent to the total modulo 0xFFFF that is zero just when the total is |
| `Checksum.GetIpv4PsdSum` | src/util.c:29-52 | for total length >= 20 the folded 64-bit sum is the generic sum over the 12-byte pseudo header if and only if the protocol is below 128 or the addends stay below 2^32 |
| `Checksum.FoldDown` | src/util.c:43-51 | the two folds with end-around carry bring any 64-bit sum to its one's complement sum |
| `Checksum.SctpSumDiffers` | src/util.c:42-42 | an SCTP header for which the two sums differ |
| `Checksum.GetIpv6PsdSum` | src/util.c:88-108 | the result is the sum over the pseudo header of section 8.1 of RFC 8200, although the length word is stored elsewhere in its field |
| `Checksum.LuaChecksum` | lua/utils.lua:157-178 | Lua's loop returns 0xFFFF minus that sum for every buffer, odd lengths included |
| `Checksum.ByteOrderIndependent` | src/util.c:67-86 | swapping the bytes of the little-endian sum gives the network-order sum (section 2 (B) of RFC 1071) |
| `Checksum.ReceiverAccepts` | lua/utils.lua:153-178 | storing the checksum in the zeroed field makes the receiver's sum 0xFFFF |
| `Pcap.WriteRecord` | src/pcap.cpp:21-27 | exactly the record's bytes change, to header and packet prefix |
| `Pcap.Writer.Write` | lua/pcap.lua:127-136 | appends the record to the mapped file; it stays within the mapping if and only if it ends within twice the size, which holds whenever len + 16 is at most the size |
| `Pcap.LongPacketLeavesMapping` | lua/pcap.lua:128-134 | a packet for which it does not |
| `Pcap.Writer.WriteBuf` | lua/pcap.lua:141-145 | the same for a buffer cut to the snap length, with the original length recorded |
| `Pcap.Writer.Resize` | lua/pcap.lua:94-109 | the written part of the file survives the move |
| `Pcap.RecordsDetermine` | src/pcap.cpp:10-27 | a file's bytes determine its packets |
| `Pcap.ReadRecord` | src/pcap.cpp:29-53 | for any bytes: null if the record length is not below what is left or allocation fails, else a buffer made of the 16 bytes of header and the first min(incl_len, bufSize - 128) bytes of data, which are all it reads, zero-filled to the original length if that is not below incl_len and to the end of the buffer if it is, at most to the end, with data_len modulo 2^16; header and copy end within what is left if and only if null is returned or 16 + min(incl_len, bufSize - 128) does |
| `Pcap.MbufIs` | src/pcap.cpp:33-51 | that buffer, with its 32-bit arithmetic, holds the packet cut to the buffer and zero-filled |
| `Pcap.AnyFileHolds` | src/pcap.cpp:29-66 | every file, cut off anywhere, has at its offset its whole records in order and then the end that parsing finds: nothing that passes the length test, or a record cut off by less than a header |
| `Pcap.ParsedRecords` | src/pcap.cpp:10-53 | parsing the records of a packet list gives that list and nothing behind it |
| `Pcap.ReadBatch` | src/pcap.cpp:55-66 | for every file: it stays inside if and only if the packets to be had, a cut-off one whose copy fits included, are at least min(slots, buffers available), or nothing behind them passes the length test; then it delivers the first n packets in order, n the least of packets, slots and buffers; null in the next slot, the others untouched |
| `Pcap.Reader.ReadSingle` | lua/pcap.lua:194-208 | for every file: delivers the next packet, a cut-off one included, and moves past it, or leaves the reader unchanged; it leaves the file if and only if it delivers a cut-off packet whose copy does not end in it, and the first byte behind the file is then in the buffer |
| `Pcap.Reader.Read` | lua/pcap.lua:213-227 | for every file: says when a batch stays inside, and then delivers it, fixes the lengths and moves past it; the slot after it is null, or untouched if the file was not looked at, and the others are untouched |
| `Pcap.SinglesStayInsideIff` | lua/pcap.lua:194-208 | n single reads stay in the file if and only if the length test stops them behind the whole packets, or fewer than 32 bytes are left there, or header and copy of the cut-off record end within what is left, or n is no more than the number of whole packets |
| `Pcap.BatchStaysInsideIff` | src/pcap.cpp:55-66 | a batch stays in the file if and only if the length test stops it, or fewer than 32 bytes are left at its start, or slots or buffers run out with the last packet that can be had |
| `Pcap.AllStayInsideIff` | lua/pcap.lua:194-227 | all sessions stay in the file if and only if the length test stops them behind the whole records, or fewer than 32 bytes are left at their start |
| `Pcap.FileDecides` | lua/pcap.lua:194-227 | a session that stays in the file delivers the same buffers whatever follows the file in memory |
| `Pcap.ReadCutRecord` | src/pcap.cpp:29-53 | a file of one record with any number of its bytes missing: which are delivered, and which of these are read within the file |
| `Pcap.ReadCutFiles` | src/pcap.cpp:30-36 | with the default buffers, 90 of 100 bytes are read beyond the file, 3994 of 4000 are not |
| `Pcap.SessionIsPrefix` | lua/pcap.lua:194-227 | any mix of single and batch reads, however often allocation fails, delivers a prefix of the packets that can be had, in order |
| `Pcap.EmptyMeansAll` | lua/pcap.lua:197-199 | a request that has a buffer comes back empty only after all packets, but for a last one at which fewer than 32 bytes are left |
| `Pcap.SinglesDeliver` | lua/pcap.lua:194-208 | n single reads that stay in the file deliver the first n packets, never a last one at which fewer than 32 bytes are left |
| `Pcap.BatchIsSingles` | lua/pcap.lua:213-227 | a batch of k packets that stays in the file is k single reads if and only if it does not include such a last packet |
| `Pcap.BatchResumes` | src/pcap.cpp:57-64 | a batch cut short by a failed allocation and resumed delivers the two shares without gap or repetition |
| `Pcap.ShortLastIsLost` | lua/pcap.lua:197-199 | two packets of which single reads never deliver the second |
| `Pcap.RoundTrip` | lua/pcap.lua:127-227 | any session of reads on the file a writer made stays in it and delivers the written packets, cut and zero-filled, whatever lies beyond the file in memory |
| `Pcap.WriterHeaderAccepted` | lua/pcap.lua:150-167 | the reader accepts the writer's file header and takes timestamps as microseconds |

## Left out

- Weak memory: fences and memory orders; memory is sequentially consistent at the granularity of one shared access.
- Concurrent objects are transition systems over values, so their update in place and pointer aliasing are not captured; packet buffers in `Pcap` are values in the caller's array.
- `ExplicitProducer`, producer and consumer tokens, queue move and swap, destructors, exception paths, thread-exit listeners: not used by `src/pipe.cpp`.
- Round robin over producers, the producer list and `size_approx` of the whole MPMC queue: sums and loops over the one producer modelled here.
- Constructor allocation failures: the first block index, the first hash table and the SPSC blocks are there.
- The free list and the hash are not composed with counters and blocks; the interface to the free list is named above, the hash only hands out the producer.
- `Composition.ClaimIsEnabled`: calls ask for at least one element, as those of `src/pipe.cpp` do.
- `ImplicitProducerRuns.RunInvariant`: MAX_SUBQUEUE_SIZE is unlimited, as in the default traits; BLOCK_SIZE and the initial index size have their default values of 32.
- `ImplicitProducerRuns.LookupIsRight`: of claims with an element; a bulk dequeue with max = 0, which `src/pipe.cpp` has no way to call, looks up a block on which it has no claim.
- `FreeList.RunInvariant`: fewer than 2^31 - 1 threads, as the 31-bit reference count requires.
- `Checksum.GetIpv4PsdSum`: for total lengths below 20, which no IPv4 packet has, the code is modelled but nothing is claimed.
- `Pcap.Reader.Read`: of a batch that leaves the file, only that it does. Loads of a record's header at or just behind the end of the file are taken to be harmless: the mapping goes on for two record headers, with any contents.
- `Pcap.ReadRecord`: a buffer size below 128, for which the code's unsigned subtraction wraps around.
- mmap, fallocate, floating-point timestamps and mempools in pcap: timestamps are given integers, mapping succeeds, allocation succeeds or fails at will.
- Device, filter, timestamping and scheduler code, rings over DPDK, tasks, serialization, statistics: register access, foreign calls or I/O.
