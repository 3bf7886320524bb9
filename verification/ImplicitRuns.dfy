/** Runs of the implicit queue, and what holds in each of their states. */
module ImplicitRuns {
  import opened Basics
  import opened Words
  import opened BlockIndex
  import opened BlockLookups
  import opened Handoff
  import opened ImplicitQueue
  import opened ImplicitFrames
  import opened ImplicitConsuming
  import opened ImplicitProducing
  import opened ImplicitBlocks
  import opened ImplicitPublishing
  import Pool

  /** A new producer: nothing stored, every block in the pool or with other producers. */
  predicate IsInitial(s: State) {
    && BlockIndex.IsInitial(s.index) && s.chain == [] && s.log == [] && s.head == 0 && s.producer.Resting?
    && (forall t :: 0 <= t < |s.consumers| ==> s.consumers[t].Idle?)
    && (forall b :: 0 <= b < |s.blocks| ==> |s.blocks[b].cells| == BLOCK_SIZE && (b in s.free || b in s.others))
    && (forall b :: b in s.free ==> b < |s.blocks| && b !in s.others)
    && (forall b :: b in s.others ==> b < |s.blocks|)
  }

  /** A stretch of a run, from whatever state. */
  predicate IsTrace(states: seq<State>, steps: seq<Step>) {
    && |states| == |steps| + 1
    && forall k :: 0 <= k < |steps| ==> Enabled(states[k], steps[k]) && states[k + 1] == Apply(states[k], steps[k])
  }

  predicate IsRun(states: seq<State>, steps: seq<Step>) {
    IsTrace(states, steps) && IsInitial(states[0])
  }

  lemma InitialInv(s: State)
    requires IsInitial(s)
    ensures Inv(s)
  {
    var n := InitialIndexOk(s.index);
    var f := Facts(n, [], seq(|s.blocks|, b => if b in s.free then Pooled else Elsewhere));
    assert forall b :: 0 <= b < |s.blocks| ==> BlockOk(s, f, b);
    assert forall t :: 0 <= t < |s.consumers| ==> ThreadOk(s, f, t);
    assert Good(s, f);
  }

  /* ---------- Every step is enabled when its thread reaches it ---------- */

  /** No claimed lookup ever reads a key that is not set or a null block, whatever the producer and
      the other consumers did since the claim. */
  lemma ConsumersNeverStuck(s: State, t: nat)
    requires Inv(s) && t < |s.consumers| && !s.consumers[t].Idle?
    ensures CanConsume(s, t)
  {
    var f :| Good(s, f);
    assert ThreadOk(s, f, t);
    var c := s.consumers[t];
    if c.Busy? {
      match c.stage
      case AtSlot(_, _) => FindsBlock(s, f, t);
      case Moving(_, _, b, _) => ClaimedIsLive(s, f, t, c.i / BLOCK_SIZE);
      case Unlisting(_, _, _) => UnlistedEntry(s, f, t);
      case _ =>
    }
  }

  lemma ProducerNeverStuck(s: State, choice: Choice)
    requires Inv(s) && !s.producer.Resting?
    requires choice.block.Some? ==> choice.block.value in s.free || choice.block.value == |s.blocks|
    ensures CanProduce(s, choice)
  {
    var f :| Good(s, f);
    assert RingOk(s.index, f.note, Newest(s.index));
    if s.producer.Inserting? {
      InsertionSlot(s, f);
    }
    if AtWrite(s.producer) {
      WriteEnabled(s, f);
    }
    if AtUndo(s) {
      UndoFinds(s, f);
    }
  }

  /* ---------- Every step keeps the invariant ---------- */

  lemma ProduceKeepsInv(s: State, f: Facts, choice: Choice)
    requires Good(s, f) && CanProduce(s, choice)
    ensures Inv(ApplyProduce(s, choice))
  {
    if OnIndex(s.producer) {
      OnIndexStep(s, f, choice);
    } else {
      match s.producer
      case Resting =>
      case Reserving(_) =>
        ReservingStep(s, f, choice);
        assert Good(ApplyProduce(s, choice), f);
      case Requisitioning(_, _) => RequisitioningStep(s, f, choice);
      case Resetting(_, _, _) => ResettingStep(s, f, choice);
      case Valuing(_, _, _) => ValuingStep(s, f, choice);
      case Filling(_, _) => FillingStep(s, f, choice);
      case Undoing(_) => UndoingStep(s, f, choice);
      case Returning(_) => ReturningStep(s, f, choice);
    }
  }

  lemma ConsumeKeepsInv(s: State, f: Facts, t: nat)
    requires Good(s, f) && CanConsume(s, t)
    ensures Inv(ApplyConsume(s, t))
  {
    var c := s.consumers[t];
    if c.Done? {
      ReturnStep(s, f, t);
      SameIndexInv(s, ApplyConsume(s, t), f, f);
    } else if LeavingStage(c) {
      LeavingKeepsInv(s, f, t);
    } else if EndOfRun(c) {
      CountStep(s, f, t);
      SameIndexInv(s, ApplyConsume(s, t), f, CountFacts(s, f, t));
    } else {
      MovingWithinRun(s, f, t);
      SearchKeepsSound(s, f, t);
      SameIndexInv(s, ApplyConsume(s, t), f, f);
    }
  }

  /** The two steps with which a consumer gives a block back. */
  lemma LeavingKeepsInv(s: State, f: Facts, t: nat)
    requires Good(s, f) && CanConsume(s, t) && LeavingStage(s.consumers[t])
    ensures Inv(ApplyConsume(s, t))
  {
    if AtUnlisting(s.consumers[t]) {
      UnlistStep(s, f, t);
    } else {
      ReleaseStep(s, f, t);
      SameIndexInv(s, ApplyConsume(s, t), f, ReleaseFacts(s, f, t));
    }
  }

  lemma MovingWithinRun(s: State, f: Facts, t: nat)
    requires Sound(s, f) && t < |s.consumers|
    ensures var c := s.consumers[t]; c.Busy? && c.stage.Moving? ==> MidRun(c) || EndOfRun(c)
  {
    assert ThreadOk(s, f, t);
  }

  lemma SameIndexInv(s: State, s': State, f: Facts, f': Facts)
    requires Good(s, f) && s'.index == s.index && f'.note == f.note && Sound(s', f')
    ensures Inv(s')
  {
    assert Good(s', f');
  }

  /** The steps of a dequeue that change nothing shared. */
  lemma SearchKeepsSound(s: State, f: Facts, t: nat)
    requires Good(s, f) && CanConsume(s, t) && s.consumers[t].Busy?
    requires !LeavingStage(s.consumers[t]) && (s.consumers[t].stage.Moving? ==> MidRun(s.consumers[t]))
    ensures Sound(ApplyConsume(s, t), f) && ApplyConsume(s, t).index == s.index
  {
    match s.consumers[t].stage
    case Claimed => LoadHeaderStep(s, f, t);
    case HeaderLoaded(_) => LoadTailStep(s, f, t);
    case TailLoaded(_, _) => LookupStep(s, f, t);
    case AtSlot(_, _) => LoadBlockStep(s, f, t);
    case Moving(_, _, _, _) => MoveStep(s, f, t);
  }

  lemma StepKeepsInv(s: State, step: Step)
    requires Inv(s) && Enabled(s, step)
    ensures Inv(Apply(s, step))
  {
    var f :| Good(s, f);
    match step
    case Enqueue(items) => EnqueueStep(s, f, items); assert Good(Apply(s, step), f);
    case Produce(choice) => ProduceKeepsInv(s, f, choice);
    case Claim(t, count) => ClaimStep(s, f, t, count); assert Good(Apply(s, step), f);
    case Consume(t) => ConsumeKeepsInv(s, f, t);
    case _ => ElsewhereStep(s, f, step);
  }

  lemma {:induction false} RunKeepsInv(states: seq<State>, steps: seq<Step>, k: nat)
    requires IsRun(states, steps) && k < |states|
    ensures Inv(states[k])
  {
    if k == 0 {
      InitialInv(states[0]);
    } else {
      RunKeepsInv(states, steps, k - 1);
      StepKeepsInv(states[k - 1], steps[k - 1]);
    }
  }

  /* ---------- The ends of the sub-queue ---------- */

  function QueueOf(s: State): Queue<int> {
    Queue(s.log, s.head)
  }

  /** To its users the sub-queue is what module Handoff says: publishing appends the elements of the
      enqueue, a claim removes as many as it claims, and every other step, of the producer, of a
      dequeue under way or of another producer, leaves it alone. */
  lemma RefinesHandoff(s: State, step: Step)
    requires Inv(s) && Enabled(s, step)
    ensures QueueOf(s).Proper() && QueueOf(Apply(s, step)).Proper()
    ensures var q, q' := QueueOf(s), QueueOf(Apply(s, step));
      match step
      case Produce(_) => if AtPublish(s.producer) then Appends(q, q', s.producer.items) else q' == q
      case Claim(_, count) => Removes(q, q', count) && q.Stored() == s.log[s.head..s.head + count] + q'.Stored()
      case _ => q' == q
  {
    var f :| Good(s, f);
  }

  /* ---------- What consumers get ---------- */

  /** A finished dequeue got all the published elements it claimed, in order, and no others. */
  lemma Delivers(s: State, t: nat)
    requires Inv(s) && t < |s.consumers| && s.consumers[t].Done?
    ensures var c := s.consumers[t];
      && c.first + c.count <= s.head <= |s.log| && |c.got| == c.count && c.got == s.log[c.first..c.first + c.count]
  {
    var f :| Good(s, f);
    assert ThreadOk(s, f, t);
  }

  /** A consumer that has its slot finds there the entry of its own block, whose cells hold its
      claimed elements. */
  lemma StaleLookupIsRight(s: State, t: nat)
    requires Inv(s) && t < |s.consumers| && s.consumers[t].Busy? && s.consumers[t].stage.AtSlot?
    ensures var c := s.consumers[t];
      var h, slot := c.stage.h, c.stage.slot;
      && SlotInRange(s.index, h, slot) && EntryAt(s.index, h, slot).key == Some(c.i / BLOCK_SIZE)
      && EntryAt(s.index, h, slot).value.Some? && EntryAt(s.index, h, slot).value.value < |s.blocks|
      && CellsOk(s.blocks[EntryAt(s.index, h, slot).value.value].cells, s.log, c.i / BLOCK_SIZE)
  {
    var f :| Good(s, f);
    assert ThreadOk(s, f, t);
    FindsBlock(s, f, t);
    var b := s.consumers[t].i / BLOCK_SIZE;
    ClaimedIsLive(s, f, t, b);
    PinnedSlot(s.index, f.note, f.infos[b], s.consumers[t].stage.h, b);
  }

  /* ---------- Block recycling ---------- */

  /** A consumer's run that brings its block's counter to the block size is the last: every index of
      the block has been claimed, and nobody else has one of them left to move. */
  lemma FullMeansAllMoved(s: State, t: nat)
    requires Inv(s) && CanConsume(s, t) && EndOfRun(s.consumers[t])
    ensures var c := s.consumers[t];
      var b := c.i / BLOCK_SIZE;
      s.blocks[c.stage.block].counter + c.stage.moved == BLOCK_SIZE <==>
        s.head >= (b + 1) * BLOCK_SIZE
        && (forall u :: 0 <= u < |s.consumers| && u != t ==> Overlap(b, Low(s.consumers[u]), High(s.consumers[u])) == 0)
  {
    var f :| Good(s, f);
    var c := s.consumers[t];
    var b := c.i / BLOCK_SIZE;
    CountedBlock(s, f, t);
    assert ThreadOk(s, f, t);
    LoadIsOwn(s.consumers, t, b);
    LoadCovers(s.consumers, t, b);
    RunCounts(b, c.i, High(c));
    BeyondRun(b, c.i, High(c));
  }

  /** After the end of a run nothing of the run's own block is left. */
  lemma BeyondRun(b: nat, start: nat, limit: nat)
    requires start < limit && b == start / BLOCK_SIZE
    ensures Overlap(b, SegmentEnd(start, limit), limit) == 0
  {}

  /** A load is one consumer's alone exactly when no other consumer overlaps the block. */
  lemma {:induction false} LoadIsOwn(consumers: seq<Consumer>, t: nat, b: nat)
    requires t < |consumers|
    ensures Load(consumers, b) == Overlap(b, Low(consumers[t]), High(consumers[t]))
      <==> forall u :: 0 <= u < |consumers| && u != t ==> Overlap(b, Low(consumers[u]), High(consumers[u])) == 0
  {
    LoadUpdate(consumers, t, Idle, b);
    LoadZero(consumers[t := Idle], b);
    var rest := consumers[t := Idle];
    assert forall u :: 0 <= u < |rest| ==> rest[u] == if u == t then Idle else consumers[u];
  }

  lemma {:induction false} LoadZero(consumers: seq<Consumer>, b: nat)
    ensures Load(consumers, b) == 0 <==> forall u :: 0 <= u < |consumers| ==>
      Overlap(b, Low(consumers[u]), High(consumers[u])) == 0
  {
    if |consumers| > 0 {
      var last := |consumers| - 1;
      LoadZero(consumers[..last], b);
      assert consumers == consumers[..last] + [consumers[last]];
    }
  }

  /** A consumer that has block `b` in its hands. */
  predicate Holds(c: Consumer, b: nat) {
    c.Busy? && (c.stage.Moving? || c.stage.Unlisting? || c.stage.Releasing?) && c.stage.block == b
  }

  /** A consumer giving a block back is alone with it, and the block is neither in the pool nor with
      another producer nor being taken by this one. */
  lemma ReleasedByOne(s: State, t: nat, b: nat)
    requires Inv(s) && t < |s.consumers| && LeavingStage(s.consumers[t]) && s.consumers[t].stage.block == b
    ensures b < |s.blocks| && b !in s.free && b !in s.others
    ensures forall u :: 0 <= u < |s.consumers| && Holds(s.consumers[u], b) ==> u == t
    ensures (s.producer.Resetting? || s.producer.Valuing?) ==> s.producer.block != b
  {
    var f :| Good(s, f);
    LeavingOwner(s, f, t);
    assert BlockOk(s, f, b);
    forall u | 0 <= u < |s.consumers| && Holds(s.consumers[u], b) ensures u == t {
      HolderOwner(s, f, u, b);
    }
  }

  lemma LeavingOwner(s: State, f: Facts, t: nat)
    requires Sound(s, f) && t < |s.consumers| && LeavingStage(s.consumers[t])
    ensures s.consumers[t].stage.block < |s.blocks| && f.owners[s.consumers[t].stage.block] == Leaving(t)
  {
    assert ThreadOk(s, f, t);
    if s.consumers[t].stage.Unlisting? {
      assert InfoOk(s, f, LastNumber(s.consumers[t]));
    }
  }

  /** A block in a consumer's hands is in use, or leaving with that consumer. */
  lemma HolderOwner(s: State, f: Facts, u: nat, b: nat)
    requires Sound(s, f) && u < |s.consumers| && Holds(s.consumers[u], b)
    ensures b < |s.blocks| && (f.owners[b].InUse? || f.owners[b] == Leaving(u))
  {
    assert ThreadOk(s, f, u);
    if s.consumers[u].stage.Moving? {
      ClaimedIsLive(s, f, u, s.consumers[u].i / BLOCK_SIZE);
    } else {
      LeavingOwner(s, f, u);
    }
  }

  /** The step is one of this producer or of a consumer of it. */
  predicate Ours(step: Step) {
    !step.TakeElsewhere? && !step.PutElsewhere? && !step.WriteElsewhere?
  }

  lemma ConsumerHandsOff(s: State, f: Facts, t: nat, b: nat)
    requires Sound(s, f) && CanConsume(s, t) && b < |s.blocks| && (b in s.free || b in s.others)
    ensures ApplyConsume(s, t).others == s.others
    ensures b < |ApplyConsume(s, t).blocks| && ApplyConsume(s, t).blocks[b] == s.blocks[b]
  {
    assert BlockOk(s, f, b);
    assert ThreadOk(s, f, t);
    if EndOfRun(s.consumers[t]) {
      CountedBlock(s, f, t);
    }
  }

  lemma ProducerHandsOff(s: State, f: Facts, choice: Choice, b: nat)
    requires Sound(s, f) && CanProduce(s, choice) && b < |s.blocks| && (b in s.free || b in s.others)
    ensures ApplyProduce(s, choice).others == s.others
    ensures b < |ApplyProduce(s, choice).blocks| && ApplyProduce(s, choice).blocks[b] == s.blocks[b]
  {
    assert BlockOk(s, f, b);
    if AtWrite(s.producer) {
      WriteEnabled(s, f);
    }
  }

  /** Neither this producer nor its consumers touch a block in the pool or in another producer's hands. */
  lemma HandsOff(s: State, step: Step, b: nat)
    requires Inv(s) && Enabled(s, step) && Ours(step) && (b in s.free || b in s.others)
    ensures b < |s.blocks| && b < |Apply(s, step).blocks| && Apply(s, step).blocks[b] == s.blocks[b]
    ensures Apply(s, step).others == s.others
  {
    var f :| Good(s, f);
    if step.Produce? {
      ProducerHandsOff(s, f, step.choice, b);
    } else if step.Consume? {
      ConsumerHandsOff(s, f, step.t, b);
    }
  }

  /** The blocks in somebody's hands. */
  function Out(s: State): Pool.Users {
    Pool.Users(|s.blocks|, set b: nat | 0 <= b < |s.blocks| && b !in s.free)
  }

  function PoolAction(s: State, step: Step): Pool.Action
    requires Enabled(s, step)
  {
    match step
    case Produce(choice) =>
      (match s.producer
       case Requisitioning(_, _) =>
         (match choice.block
          case None => Pool.Nothing
          case Some(b) => if b in s.free then Pool.Take(b) else Pool.Grow(b))
       case Returning(bs) => if |bs| == 0 then Pool.Nothing else Pool.Put(bs[0])
       case _ => Pool.Nothing)
    case Consume(t) =>
      var c := s.consumers[t];
      if AtReleasing(c) then Pool.Put(c.stage.block) else Pool.Nothing
    case TakeElsewhere(b) => if b in s.free then Pool.Take(b) else Pool.Grow(b)
    case PutElsewhere(b) => Pool.Put(b)
    case _ => Pool.Nothing
  }

  lemma ConsumerRespectsPool(s: State, f: Facts, t: nat)
    requires Sound(s, f) && CanConsume(s, t)
    ensures Pool.Does(Out(s), Out(ApplyConsume(s, t)), PoolAction(s, Consume(t)))
  {
    if AtReleasing(s.consumers[t]) {
      LeavingOwner(s, f, t);
      assert BlockOk(s, f, s.consumers[t].stage.block);
    } else {
      assert ApplyConsume(s, t).free == s.free && |ApplyConsume(s, t).blocks| == |s.blocks|;
    }
  }

  lemma OtherwiseSameBlocks(s: State, choice: Choice)
    requires CanProduce(s, choice) && !s.producer.Returning? && !s.producer.Requisitioning?
    ensures Out(ApplyProduce(s, choice)) == Out(s) && PoolAction(s, Produce(choice)) == Pool.Nothing
  {
    assert ApplyProduce(s, choice).free == s.free && |ApplyProduce(s, choice).blocks| == |s.blocks|;
  }

  lemma ProducerRespectsPool(s: State, f: Facts, choice: Choice)
    requires Sound(s, f) && CanProduce(s, choice)
    ensures Pool.Does(Out(s), Out(ApplyProduce(s, choice)), PoolAction(s, Produce(choice)))
  {
    if s.producer.Returning? {
      if |s.producer.blocks| > 0 {
        assert BlockOk(s, f, s.producer.blocks[0]);
      }
    } else if !s.producer.Requisitioning? {
      OtherwiseSameBlocks(s, choice);
    }
  }

  /** Every step uses the pool as its users may: it takes what is there, and puts back, once, what
      it has. */
  lemma RespectsPool(s: State, step: Step)
    requires Inv(s) && Enabled(s, step)
    ensures Pool.Does(Out(s), Out(Apply(s, step)), PoolAction(s, step))
  {
    var f :| Good(s, f);
    match step
    case Produce(choice) => ProducerRespectsPool(s, f, choice);
    case Consume(t) => ConsumerRespectsPool(s, f, t);
    case PutElsewhere(b) => assert BlockOk(s, f, b);
    case _ =>
  }

  /** The block that number `b` is stored under in the newest header, when some index of it is still
      to be moved out. */
  ghost predicate StoredUnder(s: State, block: nat, b: nat)
  {
    && b < Committed(s) && (exists e :: 0 <= e < |s.index.entries| && s.index.entries[e] == Entry(Some(b), Some(block)))
    && Unclaimed(b, s.head) + Load(s.consumers, b) > 0
  }

  /** No block is lost: with the producer at rest, each block is in the pool, with another producer,
      leaving with a consumer, or in the index with elements still to be moved out of it. */
  lemma NothingLost(s: State, block: nat)
    requires Inv(s) && s.producer.Resting? && block < |s.blocks|
    ensures || block in s.free || block in s.others
            || (exists t ::
                  0 <= t < |s.consumers| && LeavingStage(s.consumers[t]) && s.consumers[t].stage.block == block)
            || (exists b :: StoredUnder(s, block, b))
  {
    var f :| Good(s, f);
    assert BlockOk(s, f, block);
    match f.owners[block]
    case InUse(b) =>
      assert InfoOk(s, f, b);
      assert s.index.entries[f.infos[b].entry] == Entry(Some(b), Some(block));
      assert StoredUnder(s, block, b);
    case Leaving(t) => assert LeavingStage(s.consumers[t]);
    case _ =>
  }

  /* ---------- Lookups during a failing enqueue ---------- */

  /** A live block number: an index of it has not been moved out. */
  predicate Unfinished(s: State, b: nat) {
    b < Committed(s) && Unclaimed(b, s.head) + Load(s.consumers, b) > 0
  }

  /** No step changes the entry of a number whose elements are still to be moved out, so no failed
      enqueue disturbs a lookup: the entry keeps its key and block until its last element is counted. */
  lemma EntriesStay(s: State, step: Step, b: nat) returns (e: nat, block: nat)
    requires Inv(s) && Enabled(s, step) && Unfinished(s, b) && Unfinished(Apply(s, step), b)
    ensures e < |s.index.entries| && s.index.entries[e] == Entry(Some(b), Some(block))
    ensures e < |Apply(s, step).index.entries| && Apply(s, step).index.entries[e] == s.index.entries[e]
  {
    var f :| Good(s, f);
    var s' := Apply(s, step);
    assert InfoOk(s, f, b);
    e, block := f.infos[b].entry, f.infos[b].block;
    if step.Produce? {
      ProducerKeepsEntry(s, f, step.choice, b);
    } else if step.Consume? && AtUnlisting(s.consumers[step.t]) {
      UnlistedEntry(s, f, step.t);
    }
  }

  lemma ProducerKeepsEntry(s: State, f: Facts, choice: Choice, b: nat)
    requires Good(s, f) && CanProduce(s, choice) && b < |f.infos| && InfoOk(s, f, b) && f.infos[b].phase == Live
    requires b < Committed(s)
    ensures var e := f.infos[b].entry;
      e < |s.index.entries| && e < |ApplyProduce(s, choice).index.entries|
        && ApplyProduce(s, choice).index.entries[e] == s.index.entries[e]
  {
    if s.producer.Undoing? {
      if AtUndo(s) {
        UndoFinds(s, f);
      }
    } else {
      ForwardKeepsEntry(s, f, choice, b);
    }
  }

  lemma ForwardKeepsEntry(s: State, f: Facts, choice: Choice, b: nat)
    requires Sound(s, f) && CanProduce(s, choice) && !s.producer.Undoing?
    requires b < |f.infos| && InfoOk(s, f, b) && f.infos[b].phase == Live && b < Committed(s)
    ensures var e := f.infos[b].entry;
      e < |s.index.entries| && e < |ApplyProduce(s, choice).index.entries|
        && ApplyProduce(s, choice).index.entries[e] == s.index.entries[e]
  {}
}
