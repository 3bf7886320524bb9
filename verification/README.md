# Verification of the server's queue and pipeline

This project models the multi-producer multi-consumer queue in `server/include/concurrentqueue.h`,
through which the server passes every incoming event and every reply, and the pipeline in
`server/src/server.cpp` that is built on it. Constants are those of the server's instantiation:
64-bit words, 32 elements per block, first block indices and first producer hash of 32 slots.

Concurrent parts are state machines: each atomic load, store, exchange or addition of each thread is
one step, with a program counter and locals per thread. Sequential parts are classes with arrays,
linked objects and loops.

| modules | what they model |
|---|---|
| Basics, Words, Powers | shared definitions, wrapped index arithmetic, powers of two |
| Handoff | what the two ends of a sub-queue promise each other, and what follows for every history of one |
| Tickets, TicketSteps, TicketRuns, TicketAnswers, WrappedTickets | the four counters of a sub-queue: optimistic tickets, the claim at the head, repayment, the fullness check; first on unbounded indices, then on words |
| Pool, FreeList, FreeListSteps, FreeListRuns, FreeListAnswers | the reference-counted lock-free free list, and what it promises the users of blocks |
| ProducerHash, ProducerHashSteps, ProducerHashRuns, ProducerHashAnswers | the chained linear-probing hash from threads to implicit producers |
| BlockIndex, BlockLookups, BlockGrowth | the implicit producer's index: a chain of doubling rings over shared entries |
| ImplicitQueue, ImplicitFrames, ImplicitConsuming, ImplicitProducing, ImplicitBlocks, ImplicitPublishing, ImplicitRuns, ImplicitDelivery, ImplicitAnswers, ImplicitReuse | one implicit sub-queue with all its threads: the machine and its invariant, what steps leave alone, the steps of consumers, of the producer on the index, on blocks, and on elements, the theorems over runs, the way of an element from publication to delivery, what calls answer and that they end, and when the index grows |
| ExplicitRing, ExplicitQueue, ExplicitHalf | the explicit producer as a class: circular block list, flags, ring index; how it comes to hold 2^63 elements |
| ProducerList, Rotation | enqueueing, `try_dequeue` and `size_approx` over a list of explicit producers; consumer-token rotation |
| Bits | the thread-id hash and `ceil_to_pow_2` |
| Pipeline, PipelinePlaces, PipelineRuns, PipelineAnswers, PipelineHistory | main loop, workers, incoming and outgoing queues, peer generations; what becomes of each event and where each reply comes from |

The machines fit together through two small interfaces. Handoff says what the two ends of a sub-queue
promise: `TicketRuns.RefinesHandoff` shows the counters keep it, the implicit machine's claims assume
no more, and `ImplicitRuns.RefinesHandoff` shows that elements follow: publishing appends them, a claim
removes the oldest, nothing else touches them. The pipeline's queues are no more than that: a dequeue
there claims an index in one step and reads the element in a later one, as an implicit dequeue does.
Pool says what block users and the free list promise each other: `FreeListRuns.RefinesPool` and
`ImplicitRuns.RespectsPool` are its two sides.

The single-element dequeue is the bulk dequeue with a maximum of one; `WrappedTickets.SingleIsBulk`
shows that the two forms of the comparison decide alike.

Each machine has two kinds of results. Over every run: what no interleaving breaks, and when a call may
fail (`ImplicitAnswers.AllOrNothing`, `FreeListAnswers.GetAnswers`,
`ProducerHashAnswers.FailsOnlyWithoutMemory`, `PipelineAnswers.DroppedWhenLost`). For a call that runs
alone from any state the others may have left: exactly what it answers (`TicketAnswers.SoloEnqueue`,
`TicketRuns.LoneDequeue`, `FreeListAnswers.SoloGet`, `ProducerHashAnswers.SoloCall`,
`PipelineAnswers.WorkerServes`).

## Findings

- The comment at `server/include/concurrentqueue.h:1849-1851` and 2775-2776 says the division keeps
  the offset's sign. The divisor is an unsigned 64-bit constant, so the division is unsigned;
  `Words.SlotFromExact` shows the masked slot is right all the same.
- The explicit producer makes its fullness check only before adding a block, not before reusing one.
  So without a size limit it can come to hold exactly 2^63 elements, where `circular_less_than` is
  false both ways and a dequeue reports an empty sub-queue; `ExplicitHalf.ReachHalf` is a sequence of
  calls that gets there. The contracts of `Enqueue`, `Dequeue` and `SizeApprox` are exact about this. The
  implicit producer checks before every block, and `TicketRuns.EndsInOrder` excludes it there.
- A peer's generation is an `int` pointer advanced by four bytes per disconnection, so it repeats after
  2^62 of them; `PipelineRuns.SentWithinGeneration` gives the exact condition.
- `ceil_to_pow_2` gives 0 for 0 and for anything above 2^63.

## Model

| member | source | states |
|---|---|---|
| Words.CircularLessExact | server/include/concurrentqueue.h:333-345 | The wrapped comparison agrees with integer order exactly when the distance lies in [-2^63, 2^63), for indices less than a turn apart |
| Words.WrapDifference | server/include/concurrentqueue.h:2326 | Subtracting two wrapped indices at most a turn apart gives their integer distance |
| Words.SlotFromExact | server/include/concurrentqueue.h:2766-2778 | Dividing the wrapped offset by the unsigned block size still gives the right slot, for blocks before and after the known one and across index wrap-around, because the capacity divides the number of block-aligned words |
| TicketRuns.ClaimBelowTail | server/include/concurrentqueue.h:1829-1841 | However stale a consumer's snapshots, the indices it is about to claim from the head are all published |
| Tickets.SuccessesBelowTail | server/include/concurrentqueue.h:1817-1841 | The counting argument: if every successful ticket less the tickets repaid below it stays below the tail, there are at most tail successes |
| Tickets.RoundedMaxExact | server/include/concurrentqueue.h:631 | The limit is the least multiple of BLOCK_SIZE at or above the configured one; values within 31 of the top, and only those, mean no limit |
| Tickets.FullExact | server/include/concurrentqueue.h:2326 | A block is refused exactly when the elements from the head to its end would reach 2^63, or need more blocks than the configured limit does |
| TicketRuns.EndsInOrder | server/include/concurrentqueue.h:2322-2328 | In every reachable state head <= tail < head + 2^63, and with a limit their distance is at most the limit rounded up to whole blocks: less than max + BLOCK_SIZE |
| TicketRuns.QuietCountersAgree | server/include/concurrentqueue.h:2603-2620 | With no dequeue in flight the optimistic count less the overcommit is the head |
| TicketRuns.RefinesHandoff | server/include/concurrentqueue.h:2381-2451 | Every step publishes new indices, claims published ones, or leaves both ends alone |
| TicketRuns.StepKeepsInv | server/include/concurrentqueue.h:2603-2704 | Every step of the producer and of single and bulk consumers keeps the ticket invariant, including optimistic = head + overcommit + amounts in flight |
| TicketRuns.ExactlyOnce | server/include/concurrentqueue.h:2381-2451 | In every interleaving exactly the indices below the head have been handed out, each by exactly one step, each already published then |
| TicketRuns.LoneDequeue | server/include/concurrentqueue.h:2603-2704 | A dequeue that runs alone, wherever others have stopped, followed step by step through its loads, tickets and claim (each step enabled), ends having taken min(max, what others have not spoken for) indices from the head, or having changed nothing when there is nothing of that |
| TicketRuns.SoloDequeue | server/include/concurrentqueue.h:2603-2704 | With no other dequeue in flight that is min(max, stored) |
| TicketAnswers.FinishDequeue | server/include/concurrentqueue.h:2615-2645 | However others came in between, a dequeue that has its tickets and now runs alone claims min(desired, tail - (ticket - overcommit seen)) indices and pays back the rest of its tickets, all of them when that is not positive |
| TicketAnswers.SoloEnqueue | server/include/concurrentqueue.h:2317-2378 | An enqueue that runs alone and gets every block it asks for publishes its elements exactly when every block that starts within them has room; otherwise it leaves everything as it was |
| TicketAnswers.NoBlockNeeded | server/include/concurrentqueue.h:2322-2378 | Elements that fit the present tail block always have room |
| WrappedTickets.SingleIsBulk | server/include/concurrentqueue.h:2387 | The single dequeue's comparison decides like the bulk dequeue's, for all four-word inputs |
| WrappedTickets.CheckMatches | server/include/concurrentqueue.h:2606-2610 | The wrapped first check decides as the unbounded one exactly when the number of elements it sees lies in [-2^63, 2^63), for differences under one turn |
| WrappedTickets.ReloadMatches | server/include/concurrentqueue.h:2615-2622 | The same for the re-check, with the claim and refund it computes |
| WrappedTickets.FullMatches | server/include/concurrentqueue.h:2326 | The wrapped fullness check decides like the unbounded one |
| WrappedTickets.BlockBaseDiff | server/include/concurrentqueue.h:2472-2473 | For every count the loop starts one block before the first block start in [tail, tail + count), and the wrapped blockBaseDiff is BLOCK_SIZE times the number of block starts exactly when that product fits a word, as it does for counts up to 2^64 - 32 |
| WrappedTickets.StepMatches | server/include/concurrentqueue.h:2603-2704 | A step on wrapped words is the image of the same step on unbounded indices when the values it compares are less than half a turn apart; for values less than a turn apart, only then |
| WrappedTickets.RunsMatch | server/include/concurrentqueue.h:2381-2704 | Over whole runs the wrapped counters stay the images of the unbounded ones, however often they wrap, up to the first comparison of values half a turn apart; such a comparison, within a turn, is exactly where they part |
| FreeListRuns.StepKeepsInv | server/include/concurrentqueue.h:1300-1379 | Every atomic step of add and try_get by any number of threads keeps the free list's invariant |
| FreeListRuns.RefinesPool | server/include/concurrentqueue.h:1300-1379 | Every step is one take, put or creation on an atomic pool, or none |
| FreeListRuns.RunKeepsInv | server/include/concurrentqueue.h:1300-1379 | The invariant holds in every state of every run from an empty list |
| FreeListRuns.GivenBackBetween | server/include/concurrentqueue.h:1300-1379 | In every run, between two times that a node is handed out somebody gives it back: no node is ever with two users |
| FreeListRuns.PopInstallsSuccessor | server/include/concurrentqueue.h:1328-1331 | A successful head CAS in try_get installs the node's true current successor, so there is no ABA |
| FreeListAnswers.SoloGet | server/include/concurrentqueue.h:1314-1351 | From any state, wherever other threads have stopped, a try_get that runs alone returns the head of the list and leaves the rest of it, or returns none when the list is empty |
| FreeListAnswers.GetAnswers | server/include/concurrentqueue.h:1314-1351 | In every interleaving a try_get that has ended has returned a node that one of its own steps took off the list, or none, and then one of its own loads of the head found none |
| FreeListAnswers.SoloAdd | server/include/concurrentqueue.h:1302-1312 | From any state an add that runs alone puts its node at the head of the list, or, exactly while others hold references to the node, leaves it flagged for the last of them |
| FreeListRuns.TakenExclusively | server/include/concurrentqueue.h:1331-1338 | A popped node has its flag bit clear, is in no user's hands yet and is being taken by one thread only |
| FreeListRuns.CountsAreExact | server/include/concurrentqueue.h:1322-1345 | The list is acyclic and every node's low count is one for the list plus the references threads hold |
| FreeListRuns.NeverStranded | server/include/concurrentqueue.h:1341-1347 | A node whose should-be-on-list bit is set is still referenced by some thread or is being linked in by exactly one |
| FreeListRuns.QuietListIsComplete | server/include/concurrentqueue.h:1357-1379 | With no operation in flight the reachable list is exactly the set of nodes added and not taken, with reference count one |
| ProducerHashRuns.StepKeepsInv | server/include/concurrentqueue.h:3201-3349 | Every atomic step of every thread keeps the hash's invariant, with failed allocations, resizes and lazy copies |
| ProducerHashRuns.BelowLimit | server/include/concurrentqueue.h:3303-3306 | Every table of capacity C holds fewer than 3C/4 keys, by the last number taken among the threads in it |
| ProducerHashRuns.FreeSlotAhead | server/include/concurrentqueue.h:3224-3225 | From any hash a free slot lies fewer than 3C/4 probes ahead, in every table |
| ProducerHashRuns.ProbesEnd | server/include/concurrentqueue.h:3323-3340 | No search, copy or insertion loop ever probes 3C/4 slots: all of them end |
| ProducerHashRuns.TablesAreSound | server/include/concurrentqueue.h:3223-3261 | A key is in a table once, and every slot on the probe path from its hash to it is taken |
| ProducerHashRuns.LookupIsStable | server/include/concurrentqueue.h:3201-3262 | Once a thread has a producer, every later call of it returns the same one |
| ProducerHashAnswers.FailsOnlyWithoutMemory | server/include/concurrentqueue.h:3200-3349 | In every run a call returns no producer exactly when one of its own steps asked for memory, for a table or a producer, and was refused |
| ProducerHashAnswers.HavingIsKeeping | server/include/concurrentqueue.h:3220-3258 | A thread that has a producer never asks for memory again, so its calls always return it |
| ProducerHashAnswers.AsksOnlyWhenNeeded | server/include/concurrentqueue.h:3267-3310 | A larger table is asked for only when the thread's number fills half of the newest one, a producer only for a thread in no table |
| ProducerHashAnswers.LockedWhenHalfFull | server/include/concurrentqueue.h:3267-3300 | The resize lock is taken exactly when it is free and the thread's number fills half of its table, and given back only by its holder |
| ProducerHashAnswers.FoundInNewest | server/include/concurrentqueue.h:3229-3255 | A call that returns a producer leaves the thread's key in the table that was the newest when it began, or in a newer one, in whichever table it found it |
| ProducerHashAnswers.SoloCall | server/include/concurrentqueue.h:3201-3349 | A call that runs alone while nobody has the resize lock, with memory granted, ends with a producer: every probe, resize and retry loop ends |
| ProducerHashRuns.LookupIsInjective | server/include/concurrentqueue.h:3306-3341 | No two threads ever get the same producer |
| ProducerHashSteps.GrownEnough | server/include/concurrentqueue.h:3274-3277 | The doubling loop ends at a capacity the thread's number is less than half of |
| BlockLookups.LookupFinds | server/include/concurrentqueue.h:2765-2781 | From any tail slot and any key read there at earlier times, through any header that has the block's entry, the lookup computes that entry's slot |
| BlockLookups.KeyedSlot | server/include/concurrentqueue.h:2725-2750 | In every header ever published an entry with a key sits where its block number less its slot is the header's constant, modulo capacity |
| BlockLookups.StoreKeyOk | server/include/concurrentqueue.h:2729-2736 | Giving the entry at the next slot the next block number keeps the index invariant |
| BlockLookups.StoreTailOk | server/include/concurrentqueue.h:2752-2756 | Moving the tail forward over an insertion, or back over one taken back, keeps the index invariant |
| BlockGrowth.GrowOk | server/include/concurrentqueue.h:2783-2825 | Doubling the ring keeps the invariant: every number of the full old ring keeps its entry, and the next slot holds a fresh one |
| BlockGrowth.RoomToGrow | server/include/concurrentqueue.h:2790-2798 | A ring whose doubling fits the address space is one whose capacity divides the block-aligned words |
| ImplicitRuns.StepKeepsInv | server/include/concurrentqueue.h:2317-2704 | Every atomic step of the producer, its consumers and other producers keeps the sub-queue's invariant, through inserts, rewinds, entry reuse and index doublings |
| ImplicitRuns.RunKeepsInv | server/include/concurrentqueue.h:2317-2704 | The invariant holds in every state of every run from a new producer |
| ImplicitRuns.ConsumersNeverStuck | server/include/concurrentqueue.h:2770-2780 | A dequeue that has claimed never reads an unset key or a null block, whatever happened since its claim |
| ImplicitRuns.ProducerNeverStuck | server/include/concurrentqueue.h:2495-2501 | The producer's own lookups, insertions and writes always find what they need, also while undoing |
| ImplicitRuns.RefinesHandoff | server/include/concurrentqueue.h:2526-2601 | To its users the sub-queue is a queue: publishing appends exactly the elements of the enqueue, a claim removes exactly the oldest ones it claims, and every other step of anybody leaves the stored elements alone |
| ImplicitRuns.Delivers | server/include/concurrentqueue.h:2396-2440 | A finished dequeue, single or bulk, got as many elements as it claimed indices: exactly the published elements of those indices, in order |
| ImplicitDelivery.QueueHistory | server/include/concurrentqueue.h:2453-2704 | Over every run the history of the stored elements is one that the interface between producers and consumers allows |
| ImplicitDelivery.ClaimedByOneDequeue | server/include/concurrentqueue.h:2627-2632 | In every run each index below the head was claimed by exactly one dequeue, after its element was published, and still has that element |
| ImplicitDelivery.ReturnedOrInFlight | server/include/concurrentqueue.h:2603-2704 | At every point of every run each index below the head is with exactly one dequeue under way or was returned by exactly one, and no index from the head on is or was |
| ImplicitDelivery.EachOnce | server/include/concurrentqueue.h:2603-2704 | With no dequeue under way exactly the first head published elements have been returned, each once |
| ImplicitDelivery.ReturnsPublished | server/include/concurrentqueue.h:2655-2677 | A dequeue returns for each index it claimed the element published there, however the run goes on |
| Handoff.ClaimedOnce | server/include/concurrentqueue.h:2381-2451 | In every history of publishing and claiming, each index below the head was claimed by exactly one step after its element was published, and keeps it |
| ImplicitRuns.StaleLookupIsRight | server/include/concurrentqueue.h:2725-2781 | A consumer's slot, computed from separately loaded header, tail and key, holds the entry of its own block, whose cells hold the claimed elements |
| ImplicitConsuming.LookupStep | server/include/concurrentqueue.h:2765-2781 | The step that computes a slot from a stale snapshot keeps the invariant |
| ImplicitConsuming.CountStep | server/include/concurrentqueue.h:1437-1475 | Counting a run of moved elements keeps the count of each block: counted + claimed + unclaimed = BLOCK_SIZE |
| ImplicitConsuming.UnlistStep | server/include/concurrentqueue.h:2682-2690 | Taking an emptied block off the index clears the one entry that holds its number and that block, and keeps the invariant |
| ImplicitConsuming.ReleaseStep | server/include/concurrentqueue.h:2691-2692 | Releasing an emptied block moves it from its last consumer to the pool |
| ImplicitRuns.FullMeansAllMoved | server/include/concurrentqueue.h:1437-1475 | A consumer's run brings the counter to BLOCK_SIZE exactly when every index of the block is claimed and no other consumer has one of them left: one dequeuer in each life of the block |
| ImplicitRuns.ReleasedByOne | server/include/concurrentqueue.h:2682-2692 | The consumer releasing a block is the only thread with it; it is not in the pool, not with another producer, and not being reset |
| ImplicitRuns.HandsOff | server/include/concurrentqueue.h:2901-2925 | This producer and its consumers never touch a block in the pool or in another producer's hands |
| ImplicitRuns.RespectsPool | server/include/concurrentqueue.h:2907-2925 | Every step takes blocks from the pool or puts back blocks it has, once: the promise module FreeList needs of its users |
| ImplicitRuns.NothingLost | server/include/concurrentqueue.h:2892-2899 | With the producer at rest every block is in the pool, with another producer, leaving with a consumer, or in the index with elements still to come out |
| ImplicitAnswers.AllOrNothing | server/include/concurrentqueue.h:2317-2601 | An enqueue, single or bulk, publishes exactly its elements in order unless one of its own steps was refused room, a larger index or a block, and exactly then publishes none and leaves tail index and tail block as they were; others may take any steps in between |
| ImplicitAnswers.EnqueueEnds | server/include/concurrentqueue.h:2317-2601 | An enqueue ends within twelve of its own steps for each new block, one for each element and five more, whatever the others do |
| ImplicitAnswers.DequeueEnds | server/include/concurrentqueue.h:2396-2440 | A dequeue that has claimed ends within six of its own steps for each index claimed and five more |
| ImplicitReuse.RunKeepsUse | server/include/concurrentqueue.h:2725-2736 | In every run each index entry with a key and a block is being inserted, or its block number is reserved, has elements to come out, or is about to be taken off the index |
| ImplicitReuse.GrowsOnlyWhenFull | server/include/concurrentqueue.h:2725-2741 | In every run an enqueue sets out to double the index only when the entry it would reuse is that of the block a whole ring earlier, and that block is still in use |
| ImplicitRuns.EntriesStay | server/include/concurrentqueue.h:2488-2505 | No step, of a failing enqueue or any other, changes the entry of a block that still has elements to be moved out |
| ImplicitProducing.GrowingStep | server/include/concurrentqueue.h:2739-2749 | Growing the index in mid-enqueue, under concurrent lookups, keeps the sub-queue's invariant |
| ImplicitProducing.StoringKeyStep | server/include/concurrentqueue.h:2731-2736 | Storing the key of an entry found free some steps ago keeps the invariant |
| ImplicitProducing.StoringKeyKeeps | server/include/concurrentqueue.h:2731-2736 | The entry that takes a new key is not the one of any block still in use |
| ImplicitPublishing.PublishStep | server/include/concurrentqueue.h:2526-2601 | Publishing the tail makes the filled elements readable and keeps the invariant |
| ImplicitPublishing.UndoStep | server/include/concurrentqueue.h:2496-2501 | Taking back a reserved block clears the one entry that holds its number and that block, found by the producer's lookup, and keeps the invariant |
| ExplicitQueue.ExplicitProducer.constructor | server/include/concurrentqueue.h:1611-1626 | A new producer is empty and valid, with an index or, if its allocation failed, without |
| ExplicitQueue.ExplicitProducer.Enqueue | server/include/concurrentqueue.h:1690-1791 | Appends the element, or leaves the contents as they were exactly when there is no room: no block to reuse, and either another block would take the elements to 2^63 or past the limit, or there is no index slot, or no block to be had |
| ExplicitQueue.ExplicitProducer.FullExact | server/include/concurrentqueue.h:1714-1719 | The fullness check on words says exactly that another whole block would take the elements to 2^63 or past the limit |
| ExplicitQueue.ExplicitProducer.StartBlock | server/include/concurrentqueue.h:1695-1778 | Starting a block reuses the block ahead exactly when all its elements are out, and otherwise adds one after the fullness and index checks; a failure changes no element |
| ExplicitQueue.ExplicitProducer.StaysWithinLimit | server/include/concurrentqueue.h:1714-1722 | With a size limit that is a whole number of blocks, or none, the contents never exceed it, although reuse is not checked |
| ExplicitQueue.ExplicitProducer.Dequeue | server/include/concurrentqueue.h:1793-1890 | Takes the oldest element exactly when elements are stored and they are not exactly 2^63; otherwise changes nothing |
| ExplicitQueue.ExplicitProducer.FindHeadBlock | server/include/concurrentqueue.h:1844-1855 | The lookup through the published index finds the block that holds the head |
| ExplicitQueue.ExplicitProducer.NewBlockIndex | server/include/concurrentqueue.h:2187-2224 | Doubling the index leaves elements, indices and block list as they were; the new ring agrees with the list and has a free slot |
| ExplicitQueue.ExplicitProducer.CopyEntries | server/include/concurrentqueue.h:2201-2209 | The copy loop puts the entries in use at the start of the new ring, oldest first, and ends |
| ExplicitQueue.ExplicitProducer.SizeApprox | server/include/concurrentqueue.h:1577-1582 | Exact unless exactly 2^63 elements are stored |
| ExplicitQueue.StoredExactly | server/include/concurrentqueue.h:1577-1582 | With head and tail at most 2^63 apart, the wrapped comparison says elements are stored exactly when there are some and not 2^63 of them |
| ExplicitHalf.ReachHalf | server/include/concurrentqueue.h:1699-1722 | A sequence of calls on a producer without a size limit that ends with exactly 2^63 stored elements, where a dequeue reports none |
| ExplicitQueue.RoomForBlock | server/include/concurrentqueue.h:1714-1722 | The fullness check before a block is added keeps all blocks within half the index words, so the index can always double |
| ExplicitRing.WindowAppend | server/include/concurrentqueue.h:1773-1778 | Storing a new block's entry at the front keeps the ring's last entries equal to the block list, bases BLOCK_SIZE apart |
| ExplicitRing.WindowRotate | server/include/concurrentqueue.h:1699-1709 | Reusing the oldest block keeps ring and list equal, also when the ring is full and its oldest entry is overwritten |
| ExplicitRing.LookupFinds | server/include/concurrentqueue.h:1844-1855 | From the newest entry the lookup reaches the block of every index in use |
| ExplicitRing.GrowKeepsLookups | server/include/concurrentqueue.h:2187-2224 | For every live index the lookup before and after doubling reaches the same block, and the next slot to fill holds no live entry |
| ExplicitRing.Block.IsEmpty | server/include/concurrentqueue.h:1410-1423 | True exactly when every position's element has been dequeued |
| ExplicitRing.Block.SetEmpty | server/include/concurrentqueue.h:1437-1445 | Marks the index's position, stored in reverse order, and no other |
| ExplicitRing.Block.ResetEmpty | server/include/concurrentqueue.h:1492-1505 | Clears every position |
| Bits.UnhashHash | server/include/concurrentqueue.h:315-324 | The 64-bit thread-id hash is undone by the explicit inverse |
| Bits.HashUnhash | server/include/concurrentqueue.h:315-324 | Every word is the hash of the identifier the inverse gives |
| Bits.HashInjective | server/include/concurrentqueue.h:327-331 | Distinct thread ids never have equal full hashes |
| Bits.MixTwice | server/include/concurrentqueue.h:318-322 | Each xor-shift step is its own inverse |
| Bits.CeilToPow2 | server/include/concurrentqueue.h:354-369 | For 1 <= x <= 2^63 the least power of two at or above x; for other words 0 |
| ProducerList.ConcurrentQueue.AddProducer | server/include/concurrentqueue.h:3065-3075 | A new producer, sharing nothing with the others, becomes the head of the list; every other producer's elements stay |
| ProducerList.ConcurrentQueue.Enqueue | server/include/concurrentqueue.h:1690-1791 | Appends the element to the chosen producer exactly when it has room, and changes nothing of any other producer |
| ProducerList.ConcurrentQueue.FindBest | server/include/concurrentqueue.h:973-985 | Of the first three sub-queues that look non-empty the scoring loop picks the longest, the first such; none exactly when all look empty |
| ProducerList.ConcurrentQueue.TryDequeue | server/include/concurrentqueue.h:968-1000 | False exactly when every sub-queue looks empty; otherwise removes exactly the oldest element of the producer picked and changes nothing of the others |
| ProducerList.ConcurrentQueue.ProducersInOrder | server/include/concurrentqueue.h:1553-1561 | After every sequence of calls, for each producer, what was dequeued followed by what is stored is what was enqueued: first in, first out per producer |
| ProducerList.ConcurrentQueue.SizeApprox | server/include/concurrentqueue.h:1169-1176 | With no operation under way, as a word, the stored elements of all sub-queues but those that hold exactly 2^63 |
| ProducerList.SeenIsTotal | server/include/concurrentqueue.h:1577-1582 | That count is the number of all stored elements exactly when no sub-queue holds 2^63 |
| Rotation.ConsumerToken.constructor | server/include/concurrentqueue.h:3500-3506 | A new token has seen no rotation, counted from -1, and stands nowhere |
| Rotation.UpdateCurrentProducerAfterRotation | server/include/concurrentqueue.h:1233-1271 | After an update the token stands at position (n-1 - initialOffset mod n + rotations seen) mod n from the tail; it fails exactly on an empty list |
| Rotation.RoundRobin | server/include/concurrentqueue.h:1243-1267 | Before any rotation a token stands where initialOffset mod n producers are older; each rotation moves it to the next producer, and from the oldest to the newest |
| Rotation.SeesAll | server/include/concurrentqueue.h:1256 | An update brings a token level with the rotations that happened exactly when fewer than 2^32 happened since its last one |
| Rotation.SeenAfterRun | server/include/concurrentqueue.h:1256-1267 | Whatever offsets a token skips between updates, its latest update brings it level |
| Rotation.DistinctPlaces | server/include/concurrentqueue.h:1246-1254 | Tokens that have seen the same rotations stand on distinct producers exactly when their initial offsets differ modulo n |
| PipelineRuns.EachEventOnce | server/src/server.cpp:192-218 | In every state of every run each received event is in exactly one place: stored in a queue, claimed by or with one worker, in a worker's replies, with the main loop, answered or dropped |
| PipelineAnswers.DroppedWhenLost | server/src/server.cpp:195-217 | In every run an event is dropped exactly when it was not stored on arrival, its reply was not stored, or its handler had nothing to answer (an unreadable packet, no handler, an empty message or flight control) |
| PipelineAnswers.AnswerableStays | server/src/server.cpp:44-81 | Every chat message and clock request for which the queues always had memory is in exactly one of: stored, with a worker, in its replies, with the main loop, answered; never dropped |
| PipelineAnswers.WorkerServes | server/src/server.cpp:195-217 | A worker that looks while events are stored takes the oldest and, followed step by step, stores exactly its answer (a chat text for everybody on the same channel, a clock request's own time and the server's for its sender), or drops it; it pauses after a packet it cannot read |
| PipelineAnswers.MainServes | server/src/server.cpp:289-306 | A main loop that drains settles the oldest reply of the sub-queue it picks |
| PipelineHistory.OutcomeExact | server/src/server.cpp:44-81 | Every outcome of every run is the answer of one earlier handler step, with what that step read, and was broadcast, or sent exactly when the peer's disconnections between that step and the send are a multiple of 2^62 |
| PipelineHistory.DisconnectionsCounted | server/src/server.cpp:280-285 | A peer's count of disconnections is the number of its disconnect events so far |
| PipelineAnswers.NothingStartsAfterStop | server/src/server.cpp:192-220 | Once told to stop, a worker that has paused never looks again, and a main loop that has left the network never services it again |
| PipelineAnswers.EndsOnlyWhenToldTo | server/src/server.cpp:192-232 | No worker and no main loop ends before the server is told to stop |
| PipelineAnswers.ShutsDown | server/src/server.cpp:192-311 | A signal ends a worker that pauses and a main loop with nothing left to send |
| PipelineRuns.OneWorkerPerEvent | server/src/server.cpp:195-217 | No two workers ever have the same event, from the claim of its index on |
| PipelineRuns.ClaimedByOneWorker | server/src/server.cpp:198 | Each element of the incoming queue below its head was claimed by exactly one dequeue of one worker |
| PipelineRuns.TakenInOrder | server/src/server.cpp:198-216 | Workers claim events in the order in which the main loop received them |
| PipelineRuns.OutgoingHistory | server/src/server.cpp:289-306 | Each worker's replies pass through a sub-queue history of publishing and claiming |
| PipelineRuns.RepliesInOrder | server/src/server.cpp:289-306 | The replies of a worker that are settled or in the main loop's hands are exactly the first it published, in order, none left out |
| PipelineRuns.OneAnswerPerEvent | server/src/server.cpp:295-308 | Each event's reply is broadcast, sent or found stale at most once |
| PipelineRuns.SentWithinGeneration | server/src/server.cpp:300-306 | Chat is only broadcast; a clock answer goes to its sender alone, exactly when the disconnections since the handler read the generation are a multiple of 2^62: with fewer than 2^62, exactly when there was none |
| PipelineRuns.SameGeneration | server/src/server.cpp:284 | Two generations of a peer are the same pointer exactly when a multiple of 2^62 disconnections lies between them |
| PipelineRuns.RunKeepsInv | server/src/server.cpp:232-311 | Every interleaving of main loop, workers, connections and disconnections keeps the pipeline's invariant |

## Left out

- WrappedTickets.StepMatches: says nothing of values a whole turn or more apart when they are compared; the source calls a race of even half a turn one that a 64-bit index type rules out in practice (`server/include/concurrentqueue.h:206-213`).
- TicketRuns.StepKeepsInv: bulk dequeues ask for at least one element; the source's copy loop assumes as much.
- ExplicitQueue.ExplicitProducer.Enqueue: one thread at a time; which block requisitioning gives and whether an index allocation succeeds are parameters. Of its concurrent side only the ticket protocol is modelled, in module Tickets, where every new block is preceded by the fullness check as in the implicit producer.
- ProducerList.ConcurrentQueue.TryDequeue: one thread at a time, over explicit producers; with no concurrent dequeue the picked sub-queue always gives its element, so the loop over the other sub-queues is not reached. An implicit sub-queue in the list behaves alike by `ImplicitRuns.RefinesHandoff`, but is not a node here.
- ProducerList.ConcurrentQueue.SizeApprox: elements of a sub-queue with exactly 2^63 are not counted, as in the source; `ProducerList.SeenIsTotal` gives the condition.
- ImplicitPublishing.UndoStep: the blocks reserved by an enqueue are a sequence in the state, in place of the `next` links the source walks while filling, undoing and destroying (`server/include/concurrentqueue.h:2496-2501`, 2521, 2892-2899).
- PipelineRuns.EachEventOnce: that the queues append, remove and keep elements as module Handoff says is proved of one implicit sub-queue and used for each; a dequeue may report an empty queue at any time, so nothing is claimed about when an element is found. The search over sub-queues is any choice of one.
- Rotation.UpdateCurrentProducerAfterRotation: the producer list does not change during the calls, and the count read agrees with it.
- ImplicitAnswers.AllOrNothing: the fullness check's outcome is a choice of the run here; what the check decides is `Tickets.FullExact`, and what it guarantees `TicketRuns.EndsInOrder`.
- FreeListRuns.StepKeepsInv: fewer than about 2^30 threads, so that references do not overflow into the flag bit.
- BlockGrowth.GrowOk: an index grows only while its doubled ring has at most 2^59 slots, beyond which no address space has room; the first index of an implicit producer is taken as allocated (the source would follow a null pointer otherwise).
- Weak memory orderings and fences: all atomics are sequentially consistent steps.
- Progress under endless interference: the free list's and the hash's retry loops are shown to end for a call that runs alone; the steps of implicit enqueues and dequeues are bounded under any interference.
- Exceptions from element constructors and moves: the server's element types do not throw.
- Explicit `enqueue_bulk` and `dequeue_bulk`: a failed explicit bulk enqueue keeps blocks in the circle without counting their index slots, so the one-entry-per-block invariant is not kept.
- Thread-exit recycling of implicit producers and hash deletion: compiled out, since the thread-local macro is never defined (`server/include/concurrentqueue.h:146-157`).
- Values of a hash slot before they are first stored are read as 0 in the model; the invariant shows they are never read.
- Raw allocation, alignment, destructors, moving and swapping whole queues, memory statistics and debug locks.
- The search order and quotas of `try_dequeue` with a consumer token beyond the rotation itself.
- The generation stored with an incoming event (`server/src/server.cpp:243`): the handler does not use it, so the guarantee starts when the handler reads the generation (`server/src/server.cpp:78`).
- An exception from servicing the host, which ends the server; what is still queued at shutdown stays queued.
- Packet flags, which a reply copies from its event's packet.
- ENet, FlatBuffers, LMDB, logging, configuration, signals and the client.
