/**
 One implicit producer's sub-queue under concurrency: its producing thread, any number of consuming
 threads, and the blocks it shares with every other producer of the queue through the block pool.
 Each atomic access to shared memory is one step.

 Claims follow module Handoff (what the ticket counters guarantee) and blocks are taken and put
 back following module Pool (what the free list guarantees). The other producers and their
 consumers appear as `Elsewhere` steps, which may do anything to the blocks in their hands.
 */
module ImplicitQueue {
  import opened Basics
  import opened Words
  import opened BlockIndex
  import opened Handoff

  /** A block: how many of its elements have been moved out, and the elements' cells. */
  datatype Block = Block(counter: nat, cells: seq<int>)

  datatype Producer =
    | Resting
    | Reserving(items: seq<int>)
    | Inserting(items: seq<int>)
    | StoringKey(items: seq<int>, entry: nat)
    | Growing(items: seq<int>)
    | KeyStored(items: seq<int>, entry: nat)
    | Requisitioning(items: seq<int>, entry: nat)
    | Rewinding(entry: nat)
    | Clearing(entry: nat)
    | Resetting(items: seq<int>, entry: nat, block: nat)
    | Valuing(items: seq<int>, entry: nat, block: nat)
    | Filling(items: seq<int>, done: nat)
    | Undoing(i: nat)
    | Stepping(i: nat)
    | Returning(blocks: seq<nat>)

  /** A dequeue under way has claimed [first, first + count) and got the elements before `i`, except
      that a moving stage is `moved` elements further on. */
  datatype Consumer =
    | Idle
    | Busy(first: nat, count: nat, i: nat, got: seq<int>, stage: Stage)
    | Done(first: nat, count: nat, got: seq<int>)

  datatype Stage =
    | Claimed
    | HeaderLoaded(h: nat)
    | TailLoaded(h: nat, tail: nat)
    | AtSlot(h: nat, slot: nat)
    | Moving(h: nat, slot: nat, block: nat, moved: nat)
    | Unlisting(h: nat, slot: nat, block: nat)
    | Releasing(h: nat, slot: nat, block: nat)

  /** `log` is the history of published elements, so the tail index is its length. `chain` links the
      blocks reserved for the enqueue in progress. `free` is the pool, `others` the blocks that other
      producers or their consumers have. */
  datatype State = State(
    index: Index, chain: seq<nat>, tailBlock: nat, log: seq<int>, head: nat,
    producer: Producer, consumers: seq<Consumer>,
    blocks: seq<Block>, free: set<nat>, others: set<nat>)

  /** What the environment decides: the fullness check, allocations, uninitialised memory, and which
      block the pool hands out (the number of blocks so far names a newly allocated one). */
  datatype Choice = Choice(full: bool, granted: bool, garbage: nat -> Option<nat>, block: Option<nat>)

  datatype Step =
    | Enqueue(items: seq<int>)
    | Produce(choice: Choice)
    | Claim(t: nat, count: nat)
    | Consume(t: nat)
    | TakeElsewhere(b: nat)
    | PutElsewhere(b: nat)
    | WriteElsewhere(b: nat, contents: Block)

  /** Blocks holding published elements. */
  function Committed(s: State): nat {
    BlocksFor(|s.log|)
  }

  /** The number the next inserted block will get. */
  function Next(s: State): nat {
    Committed(s) + |s.chain|
  }

  /** The block the producer writes element `i` to: the tail block, or one linked after it. */
  function WriteBlock(s: State, i: nat): nat
    requires i / BLOCK_SIZE < Next(s)
  {
    if i / BLOCK_SIZE < Committed(s) then s.tailBlock else s.chain[i / BLOCK_SIZE - Committed(s)]
  }

  /** Where the run of claimed elements within one block ends. */
  function SegmentEnd(start: nat, limit: nat): nat {
    var blockEnd := (start / BLOCK_SIZE + 1) * BLOCK_SIZE;
    if limit < blockEnd then limit else blockEnd
  }

  predicate HeaderInRange(x: Index, h: nat) {
    h < |x.headers| && Capacity(x.headers[h]) > 0
  }

  predicate SlotInRange(x: Index, h: nat, slot: nat) {
    HeaderInRange(x, h) && slot < Capacity(x.headers[h]) && x.headers[h].index[slot] < |x.entries|
  }

  function EntryAt(x: Index, h: nat, slot: nat): Entry
    requires SlotInRange(x, h, slot)
  {
    x.entries[x.headers[h].index[slot]]
  }

  /** The slot the producer's own lookup of block number `b` computes. */
  function OwnLookup(x: Index, b: nat): nat
    requires |x.headers| > 0 && SlotInRange(x, Newest(x), Current(x).tail)
    requires EntryAt(x, Newest(x), Current(x).tail).key.Some?
  {
    Lookup(Current(x), Current(x).tail, EntryAt(x, Newest(x), Current(x).tail).key.value, b * BLOCK_SIZE)
  }

  predicate CanProduce(s: State, choice: Choice) {
    var x := s.index;
    && |x.headers| > 0 && HeaderInRange(x, Newest(x))
    && match s.producer
       case Resting => false
       case Inserting(_) => SlotInRange(x, Newest(x), NextSlot(Current(x)))
       case StoringKey(_, e) => e < |x.entries|
       case Requisitioning(_, _) =>
         choice.block == None || choice.block.value in s.free || choice.block.value == |s.blocks|
       case Clearing(e) => e < |x.entries|
       case Resetting(_, _, b) => b < |s.blocks|
       case Valuing(_, e, _) => e < |x.entries|
       case Filling(items, d) =>
         d < |items| ==>
           && (|s.log| + d) / BLOCK_SIZE < Next(s)
           && WriteBlock(s, |s.log| + d) < |s.blocks|
           && |s.blocks[WriteBlock(s, |s.log| + d)].cells| == BLOCK_SIZE
       case Undoing(i) =>
         i < |s.chain| ==>
           && SlotInRange(x, Newest(x), Current(x).tail)
           && EntryAt(x, Newest(x), Current(x).tail).key.Some?
           && SlotInRange(x, Newest(x), OwnLookup(x, Committed(s) + i))
       case _ => true
  }

  predicate CanConsume(s: State, t: nat) {
    && t < |s.consumers|
    && match s.consumers[t]
       case Idle => false
       case Done(_, _, _) => true
       case Busy(_, _, _, _, stage) =>
         match stage
         case Claimed => |s.index.headers| > 0
         case HeaderLoaded(h) => h < |s.index.headers|
         case TailLoaded(h, tail) => SlotInRange(s.index, h, tail) && EntryAt(s.index, h, tail).key.Some?
         case AtSlot(h, slot) => SlotInRange(s.index, h, slot) && EntryAt(s.index, h, slot).value.Some?
         case Moving(h, _, b, _) => HeaderInRange(s.index, h) && b < |s.blocks| && |s.blocks[b].cells| == BLOCK_SIZE
         case Unlisting(h, slot, _) => SlotInRange(s.index, h, slot)
         case Releasing(h, _, _) => HeaderInRange(s.index, h)
  }

  predicate Enabled(s: State, step: Step) {
    match step
    case Enqueue(items) => s.producer.Resting? && |items| > 0
    case Produce(choice) => CanProduce(s, choice)
    case Claim(t, count) =>
      t < |s.consumers| && s.consumers[t].Idle? && Claims(Ends(|s.log|, s.head), Ends(|s.log|, s.head + count), count)
    case Consume(t) => CanConsume(s, t)
    case TakeElsewhere(b) => b in s.free || b == |s.blocks|
    case PutElsewhere(b) => b in s.others
    case WriteElsewhere(b, contents) => b in s.others && b < |s.blocks| && |contents.cells| == BLOCK_SIZE
  }

  function BlankBlock(): Block {
    Block(0, seq(BLOCK_SIZE, _ => 0))
  }

  function ApplyProduce(s: State, choice: Choice): State
    requires CanProduce(s, choice)
  {
    var x := s.index;
    match s.producer
    case Resting => s
    case Reserving(items) =>
      s.(producer :=
        if Next(s) >= BlocksFor(|s.log| + |items|) then Filling(items, 0)
        else if choice.full then Undoing(0) else Inserting(items))
    case Inserting(items) =>
      var e := Current(x).index[NextSlot(Current(x))];
      s.(producer := if Reusable(x.entries[e]) then StoringKey(items, e) else Growing(items))
    case Growing(items) =>
      if choice.granted && 2 * Capacity(Current(x)) <= BLOCK_WORDS then
        var x' := Grow(x, choice.garbage);
        s.(index := x', producer := StoringKey(items, Current(x').index[NextSlot(Current(x'))]))
      else s.(producer := Undoing(0))
    case StoringKey(items, e) => s.(index := StoreKey(x, e, Next(s)), producer := KeyStored(items, e))
    case KeyStored(items, e) => s.(index := StoreTail(x, NextSlot(Current(x))), producer := Requisitioning(items, e))
    case Requisitioning(items, e) =>
      (match choice.block
       case None => s.(producer := Rewinding(e))
       case Some(b) =>
         if b in s.free then s.(free := s.free - {b}, producer := Resetting(items, e, b))
         else s.(blocks := s.blocks + [BlankBlock()], producer := Resetting(items, e, b)))
    case Rewinding(e) =>
      s.(index := StoreTail(x, (Current(x).tail - 1) % Capacity(Current(x))), producer := Clearing(e))
    case Clearing(e) => s.(index := StoreValue(x, e, None), producer := Undoing(0))
    case Resetting(items, e, b) =>
      s.(blocks := s.blocks[b := s.blocks[b].(counter := 0)], producer := Valuing(items, e, b))
    case Valuing(items, e, b) =>
      s.(index := StoreValue(x, e, Some(b)), chain := s.chain + [b], producer := Reserving(items))
    case Filling(items, d) =>
      if d < |items| then
        var i := |s.log| + d;
        var b := WriteBlock(s, i);
        s.(blocks := s.blocks[b := s.blocks[b].(cells := s.blocks[b].cells[i % BLOCK_SIZE := items[d]])],
           producer := Filling(items, d + 1))
      else
        s.(log := s.log + items, chain := [],
           tailBlock := if |s.chain| == 0 then s.tailBlock else s.chain[|s.chain| - 1], producer := Resting)
    case Undoing(i) =>
      if i < |s.chain| then
        s.(index := StoreValue(x, Current(x).index[OwnLookup(x, Committed(s) + i)], None), producer := Stepping(i))
      else
        s.(chain := [], producer := Returning(s.chain))
    case Stepping(i) =>
      s.(index := StoreTail(x, (Current(x).tail - 1) % Capacity(Current(x))), producer := Undoing(i + 1))
    case Returning(bs) =>
      if |bs| == 0 then s.(producer := Resting)
      else s.(free := s.free + {bs[0]}, producer := Returning(bs[1..]))
  }

  /** After a block's run of elements: the next block's slot, or the end of the dequeue. */
  function Advance(x: Index, c: Consumer, h: nat, slot: nat): Consumer
    requires c.Busy? && HeaderInRange(x, h)
  {
    if c.i == c.first + c.count then Done(c.first, c.count, c.got)
    else c.(stage := AtSlot(h, (slot + 1) % Capacity(x.headers[h])))
  }

  function ApplyConsume(s: State, t: nat): State
    requires CanConsume(s, t)
  {
    var x, c := s.index, s.consumers[t];
    if c.Done? then s.(consumers := s.consumers[t := Idle])
    else
      match c.stage
      case Claimed => s.(consumers := s.consumers[t := c.(stage := HeaderLoaded(Newest(x)))])
      case HeaderLoaded(h) => s.(consumers := s.consumers[t := c.(stage := TailLoaded(h, x.headers[h].tail))])
      case TailLoaded(h, tail) =>
        var slot := Lookup(x.headers[h], tail, EntryAt(x, h, tail).key.value, c.first);
        s.(consumers := s.consumers[t := c.(stage := AtSlot(h, slot))])
      case AtSlot(h, slot) =>
        s.(consumers := s.consumers[t := c.(stage := Moving(h, slot, EntryAt(x, h, slot).value.value, 0))])
      case Moving(h, slot, b, moved) =>
        if c.i + moved < SegmentEnd(c.i, c.first + c.count) then
          var element := s.blocks[b].cells[(c.i + moved) % BLOCK_SIZE];
          s.(consumers := s.consumers[t := c.(got := c.got + [element], stage := Moving(h, slot, b, moved + 1))])
        else
          var counter := s.blocks[b].counter + moved;
          var c' := c.(i := c.i + moved);
          s.(blocks := s.blocks[b := s.blocks[b].(counter := counter)],
             consumers := s.consumers[t :=
               if counter == BLOCK_SIZE then c'.(stage := Unlisting(h, slot, b)) else Advance(x, c', h, slot)])
      case Unlisting(h, slot, b) =>
        s.(index := StoreValue(x, x.headers[h].index[slot], None),
           consumers := s.consumers[t := c.(stage := Releasing(h, slot, b))])
      case Releasing(h, slot, b) =>
        s.(free := s.free + {b}, consumers := s.consumers[t := Advance(x, c, h, slot)])
  }

  function Apply(s: State, step: Step): State
    requires Enabled(s, step)
  {
    match step
    case Enqueue(items) => s.(producer := Reserving(items))
    case Produce(choice) => ApplyProduce(s, choice)
    case Claim(t, count) =>
      s.(head := s.head + count, consumers := s.consumers[t := Busy(s.head, count, s.head, [], Claimed)])
    case Consume(t) => ApplyConsume(s, t)
    case TakeElsewhere(b) =>
      if b in s.free then s.(free := s.free - {b}, others := s.others + {b})
      else s.(blocks := s.blocks + [BlankBlock()], others := s.others + {b})
    case PutElsewhere(b) => s.(free := s.free + {b}, others := s.others - {b})
    case WriteElsewhere(b, contents) => s.(blocks := s.blocks[b := contents])
  }

  /* ---------- The invariant ---------- */

  /** Where a block number stands. Live: in the index. Dying: all its elements are out and consumer
      `t` is about to take it off the index. Dropped: taken off by the producer's own undo. */
  datatype Phase = Live | Dying(t: nat) | Gone | Dropped

  datatype Info = Info(block: nat, entry: nat, phase: Phase)

  /** Whose each block is: the pool's, another producer's, in use under a block number, leaving with
      consumer `t`, just acquired by the producer, or being given back by it. */
  datatype Owner = Pooled | Elsewhere | InUse(b: nat) | Leaving(t: nat) | Acquired | GivenUp

  /** Auxiliary facts: about the index, each block number used so far, and each block. */
  datatype Facts = Facts(note: Note, infos: seq<Info>, owners: seq<Owner>)

  /** The indices a consumer has claimed and not yet counted as moved out start at `i`. */
  function Low(c: Consumer): nat {
    if c.Busy? then c.i else 0
  }

  function High(c: Consumer): nat {
    if c.Busy? then c.first + c.count else 0
  }

  function Max(a: int, b: int): int {
    if a < b then b else a
  }

  /** How many of the indices in [low, high) belong to block `b`. */
  function Overlap(b: nat, low: nat, high: nat): nat {
    Max(0, Min(high, (b + 1) * BLOCK_SIZE) - Max(low, b * BLOCK_SIZE))
  }

  /** How many indices of block `b` are claimed but not yet counted, over all consumers. */
  function Load(consumers: seq<Consumer>, b: nat): nat {
    if |consumers| == 0 then 0
    else
      var c := consumers[|consumers| - 1];
      Load(consumers[..|consumers| - 1], b) + Overlap(b, Low(c), High(c))
  }

  /** How many indices of block `b` have not been claimed. */
  function Unclaimed(b: nat, head: nat): nat {
    Overlap(b, head, Max(head, (b + 1) * BLOCK_SIZE))
  }

  ghost predicate Shaped(s: State, f: Facts) {
    && Fitting(s.index, f.note)
    && |f.infos| == Next(s) && |f.owners| == |s.blocks|
    && (forall b :: 0 <= b < |s.blocks| ==> |s.blocks[b].cells| == BLOCK_SIZE)
    && s.head <= |s.log|
    && f.note.floor[Newest(s.index)] <= Committed(s)
  }

  /** Block number `b` is pinned to its entry: nobody changes the entry's key or value. */
  ghost predicate Pinned(x: Index, n: Note, i: Info, b: nat)
    requires 0 < |x.headers| == |n.floor|
  {
    i.entry < |x.entries| && x.entries[i.entry] == Entry(Some(b), Some(i.block)) && n.floor[Newest(x)] <= b
  }

  /** The cells of the block numbered `b` hold the published elements. */
  ghost predicate CellsOk(cells: seq<int>, log: seq<int>, b: nat) {
    |cells| == BLOCK_SIZE
    && forall k :: 0 <= k < BLOCK_SIZE && b * BLOCK_SIZE + k < |log| ==> cells[k] == log[b * BLOCK_SIZE + k]
  }

  predicate IsUnlisting(stage: Stage, b: nat) {
    stage.Unlisting? && stage.block == b
  }

  predicate IsLeaving(stage: Stage, b: nat) {
    (stage.Unlisting? || stage.Releasing?) && stage.block == b
  }

  /** The number of the block a consumer is giving back. */
  function LastNumber(c: Consumer): int
    requires c.Busy?
  {
    (c.i - 1) / BLOCK_SIZE
  }

  ghost predicate NumberOk(
      x: Index, n: Note, i: Info, b: nat, owners: seq<Owner>, blocks: seq<Block>, log: seq<int>, head: nat,
        consumers: seq<Consumer>)
    requires Fitting(x, n) && |owners| == |blocks|
  {
    match i.phase
    case Live =>
      && i.block < |blocks| && Pinned(x, n, i, b) && owners[i.block] == InUse(b)
      && CellsOk(blocks[i.block].cells, log, b)
      && blocks[i.block].counter + Unclaimed(b, head) + Load(consumers, b) == BLOCK_SIZE
      && blocks[i.block].counter < BLOCK_SIZE
    case Dying(t) =>
      && i.block < |blocks| && Pinned(x, n, i, b) && owners[i.block] == Leaving(t)
      && t < |consumers| && consumers[t].Busy? && IsUnlisting(consumers[t].stage, i.block)
      && b == LastNumber(consumers[t])
      && Unclaimed(b, head) + Load(consumers, b) == 0
    case Gone => Unclaimed(b, head) + Load(consumers, b) == 0
    case Dropped =>
      && b >= BlocksFor(|log|) && i.entry < |x.entries| && i.block < |blocks|
      && x.entries[i.entry] == Entry(Some(b), None) && owners[i.block] == GivenUp
  }

  /** Shorthand for block number `b` of a state. */
  ghost predicate InfoOk(s: State, f: Facts, b: nat)
    requires Shaped(s, f) && b < |f.infos|
  {
    NumberOk(s.index, f.note, f.infos[b], b, f.owners, s.blocks, s.log, s.head, s.consumers)
  }

  /** The producer still has to give block `b` back. */
  predicate Owed(producer: Producer, chain: seq<nat>, b: nat) {
    match producer
    case Undoing(i) => i <= |chain| && b in chain[..i]
    case Stepping(i) => i < |chain| && b in chain[..i + 1]
    case Returning(bs) => b in bs
    case _ => false
  }

  ghost predicate OwnerOk(
      o: Owner, b: nat, infos: seq<Info>, free: set<nat>, others: set<nat>, consumers: seq<Consumer>,
        producer: Producer, chain: seq<nat>) {
    && (o == Pooled <==> b in free)
    && (o == Elsewhere <==> b in others)
    && match o
       case InUse(n) => n < |infos| && infos[n].phase == Live && infos[n].block == b
       case Leaving(t) => t < |consumers| && consumers[t].Busy? && IsLeaving(consumers[t].stage, b)
       case Acquired => (producer.Resetting? || producer.Valuing?) && producer.block == b
       case GivenUp => Owed(producer, chain, b)
       case _ => true
  }

  /** Shorthand for block `b` of a state. */
  ghost predicate BlockOk(s: State, f: Facts, b: nat)
    requires Shaped(s, f) && b < |s.blocks|
  {
    OwnerOk(f.owners[b], b, f.infos, s.free, s.others, s.consumers, s.producer, s.chain)
  }

  /** Block number `b` has an index in [low, high). */
  predicate Within(b: nat, low: nat, high: nat) {
    low < high && low < (b + 1) * BLOCK_SIZE && b * BLOCK_SIZE < high
  }

  /** Every block number with an index in [low, high) was inserted by the time header `h` was the newest. */
  ghost predicate Reaches(x: Index, infos: seq<Info>, h: nat, low: nat, high: nat) {
    && h < |x.headers|
    && forall b :: 0 <= b < |infos| && Within(b, low, high) ==> infos[b].entry < Capacity(x.headers[h])
  }

  ghost predicate GotOk(log: seq<int>, first: nat, i: nat, got: seq<int>) {
    first <= i <= |log| && got == log[first..i]
  }

  /** The shape of the index and its note, without their contents. */
  ghost predicate Fitting(x: Index, n: Note) {
    && 0 < |x.headers| == |n.offset| == |n.mark| == |n.floor|
    && forall h :: 0 <= h < |x.headers| ==> Capacity(x.headers[h]) > 0
  }

  /** Block number `b`, whose elements are all out, is leaving with consumer `t` through slot `slot`. */
  ghost predicate LeavesFrom(x: Index, n: Note, infos: seq<Info>, b: int, h: nat, slot: nat, block: nat, t: nat)
    requires Fitting(x, n) && h < |x.headers|
  {
    && 0 <= b < |infos| && slot == SlotOf(x, n, h, b)
    && infos[b].block == block && infos[b].phase == Dying(t) && infos[b].entry < Capacity(x.headers[h])
  }

  ghost predicate StageOk(x: Index, n: Note, infos: seq<Info>, owners: seq<Owner>, log: seq<int>, c: Consumer, t: nat)
    requires Fitting(x, n) && c.Busy?
  {
    match c.stage
    case Claimed => c.i == c.first < High(c) && c.got == []
    case HeaderLoaded(h) =>
      && c.i == c.first < High(c) && c.got == [] && Reaches(x, infos, h, c.i, High(c)) && n.floor[h] <= c.i / BLOCK_SIZE
      && (h < Newest(x) ==> c.i / BLOCK_SIZE <= n.mark[h])
    case TailLoaded(h, tail) =>
      && c.i == c.first < High(c) && c.got == [] && Reaches(x, infos, h, c.i, High(c))
      && SlotInRange(x, h, tail) && EntryAt(x, h, tail).key.Some?
    case AtSlot(h, slot) =>
      && Reaches(x, infos, h, c.i, High(c)) && slot == SlotOf(x, n, h, c.i / BLOCK_SIZE)
      && c.i < High(c) && GotOk(log, c.first, c.i, c.got)
    case Moving(h, slot, block, moved) =>
      && Reaches(x, infos, h, c.i, High(c)) && slot == SlotOf(x, n, h, c.i / BLOCK_SIZE)
      && c.i < High(c) && c.i + moved <= SegmentEnd(c.i, High(c)) && GotOk(log, c.first, c.i + moved, c.got)
      && c.i / BLOCK_SIZE < |infos| && infos[c.i / BLOCK_SIZE].block == block
    case Unlisting(h, slot, block) =>
      && Reaches(x, infos, h, c.i, High(c)) && (c.i == High(c) || c.i % BLOCK_SIZE == 0)
      && GotOk(log, c.first, c.i, c.got)
      && LeavesFrom(x, n, infos, (c.i - 1) / BLOCK_SIZE, h, slot, block, t)
    case Releasing(h, slot, block) =>
      && Reaches(x, infos, h, c.i, High(c)) && (c.i == High(c) || c.i % BLOCK_SIZE == 0)
      && GotOk(log, c.first, c.i, c.got)
      && slot == SlotOf(x, n, h, (c.i - 1) / BLOCK_SIZE)
      && block < |owners| && owners[block] == Leaving(t)
  }

  ghost predicate ConsumerOk(
      x: Index, n: Note, infos: seq<Info>, owners: seq<Owner>, log: seq<int>, head: nat, c: Consumer, t: nat)
    requires Fitting(x, n)
  {
    match c
    case Idle => true
    case Busy(first, count, i, _, _) =>
      first <= i <= first + count <= head && 0 < count && StageOk(x, n, infos, owners, log, c, t)
    case Done(first, count, got) => first + count <= head && GotOk(log, first, first + count, got)
  }

  /** Shorthand for consumer `t` of a state. */
  ghost predicate ThreadOk(s: State, f: Facts, t: nat)
    requires Fitting(s.index, f.note) && t < |s.consumers|
  {
    ConsumerOk(s.index, f.note, f.infos, f.owners, s.log, s.head, s.consumers[t], t)
  }

  /** Numbers from `low` up that the producer once inserted and took back: their entries are free. */
  ghost predicate Remnants(x: Index, n: Note, low: nat)
    requires 0 < |x.headers| == |n.offset| && Capacity(Current(x)) > 0
  {
    forall b :: low <= b < n.top ==>
      EntryOf(x, n, b) < |x.entries| && x.entries[EntryOf(x, n, b)] == Entry(Some(b), None)
  }

  /** The reserved block numbers from the `i`-th on are live, those before it dropped. */
  ghost predicate ChainOk(chain: seq<nat>, committed: nat, infos: seq<Info>, i: nat) {
    && |infos| == committed + |chain| && Distinct(chain)
    && forall j :: 0 <= j < |chain| ==> ReservedAt(chain, committed, infos, i, j)
  }

  ghost predicate ReservedAt(chain: seq<nat>, committed: nat, infos: seq<Info>, i: nat, j: nat)
    requires |infos| == committed + |chain| && j < |chain|
  {
    infos[committed + j].block == chain[j] && infos[committed + j].phase == (if j < i then Dropped else Live)
  }

  /** Number `b` is being inserted: its entry has the key but no block yet. */
  ghost predicate InsertingAt(x: Index, n: Note, e: nat, b: nat, mark: int)
    requires 0 < |x.headers| == |n.offset| == |n.mark| && Capacity(Current(x)) > 0
  {
    && e < |x.entries| && b < n.top && e == EntryOf(x, n, b) && x.entries[e].key == Some(b)
    && n.mark[Newest(x)] == mark && Remnants(x, n, b + 1)
  }

  /** No number is being inserted: the tail is at `mark`, and `b` is the next number to insert. */
  ghost predicate Settled(x: Index, n: Note, b: nat, mark: int)
    requires 0 < |x.headers| == |n.offset| == |n.mark| && Capacity(Current(x)) > 0
  {
    n.mark[Newest(x)] == mark && Remnants(x, n, b)
  }

  /** An enqueue under way needs at least `n` blocks in all. */
  predicate Wanting(s: State, items: seq<int>, n: nat) {
    |items| > 0 && n <= BlocksFor(|s.log| + |items|)
  }

  ghost predicate ProducerOk(s: State, f: Facts)
    requires Shaped(s, f)
  {
    && (|s.log| % BLOCK_SIZE != 0 ==> f.infos[Committed(s) - 1].block == s.tailBlock)
    && (!s.producer.Undoing? && !s.producer.Stepping? ==> ChainOk(s.chain, Committed(s), f.infos, 0))
    && ControlOk(s, f)
  }

  /** What holds at each point of the producer's program. */
  ghost predicate ControlOk(s: State, f: Facts)
    requires Shaped(s, f)
  {
    var n := Next(s);
    match s.producer
    case Resting => Settled(s.index, f.note, n, n - 1) && s.chain == []
    case Reserving(items) => Settled(s.index, f.note, n, n - 1) && Wanting(s, items, n)
    case Inserting(items) => Settled(s.index, f.note, n, n - 1) && Wanting(s, items, n + 1)
    case StoringKey(items, e) =>
      && Settled(s.index, f.note, n, n - 1) && Wanting(s, items, n + 1)
      && e < |s.index.entries| && e == EntryOf(s.index, f.note, n) && Reusable(s.index.entries[e])
    case Growing(items) =>
      Settled(s.index, f.note, n, n - 1) && Wanting(s, items, n + 1) && n == f.note.top > 0
    case KeyStored(items, e) => InsertingAt(s.index, f.note, e, n, n - 1) && Wanting(s, items, n + 1)
    case Requisitioning(items, e) => InsertingAt(s.index, f.note, e, n, n) && Wanting(s, items, n + 1)
    case Rewinding(e) => InsertingAt(s.index, f.note, e, n, n)
    case Clearing(e) => InsertingAt(s.index, f.note, e, n, n - 1)
    case Resetting(items, e, b) =>
      InsertingAt(s.index, f.note, e, n, n) && Wanting(s, items, n + 1) && b < |s.blocks| && f.owners[b] == Acquired
    case Valuing(items, e, b) =>
      && InsertingAt(s.index, f.note, e, n, n) && Wanting(s, items, n + 1) && b < |s.blocks| && f.owners[b] == Acquired
      && s.blocks[b].counter == 0
    case Filling(items, d) =>
      && Settled(s.index, f.note, n, n - 1) && 0 < |items| && d <= |items| && n == BlocksFor(|s.log| + |items|)
      && forall j :: 0 <= j < d ==> FilledAt(s, items, j)
    case Undoing(i) =>
      i <= |s.chain| && Settled(s.index, f.note, n, n - 1 - i) && ChainOk(s.chain, Committed(s), f.infos, i)
    case Stepping(i) =>
      i < |s.chain| && Settled(s.index, f.note, n, n - 1 - i) && ChainOk(s.chain, Committed(s), f.infos, i + 1)
    case Returning(bs) =>
      && Settled(s.index, f.note, n, n - 1) && s.chain == [] && Distinct(bs)
      && forall j :: 0 <= j < |bs| ==> bs[j] < |s.blocks| && f.owners[bs[j]] == GivenUp
  }

  ghost predicate FilledAt(s: State, items: seq<int>, j: nat) {
    && j < |items| && (|s.log| + j) / BLOCK_SIZE < Next(s)
    && var b := WriteBlock(s, |s.log| + j);
       && b < |s.blocks| && |s.blocks[b].cells| == BLOCK_SIZE
       && s.blocks[b].cells[(|s.log| + j) % BLOCK_SIZE] == items[j]
  }

  /** Everything but the index itself. */
  ghost predicate Sound(s: State, f: Facts) {
    && Shaped(s, f)
    && (forall b :: 0 <= b < |f.infos| ==> InfoOk(s, f, b))
    && (forall b :: 0 <= b < |s.blocks| ==> BlockOk(s, f, b))
    && (forall b :: b in s.free || b in s.others ==> b < |s.blocks|)
    && (forall t :: 0 <= t < |s.consumers| ==> ThreadOk(s, f, t))
    && ProducerOk(s, f)
  }

  ghost predicate Good(s: State, f: Facts) {
    IndexOk(s.index, f.note) && Sound(s, f)
  }

  ghost predicate Inv(s: State) {
    exists f :: Good(s, f)
  }
}
