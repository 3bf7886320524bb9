/** The implicit producer's index grows only when the entry it would reuse is still in use. */
module ImplicitReuse {
  import opened Basics
  import opened Words
  import opened BlockIndex
  import opened BlockLookups
  import opened BlockGrowth
  import opened ImplicitQueue
  import opened ImplicitFrames
  import opened ImplicitConsuming
  import opened ImplicitPublishing
  import opened ImplicitRuns

  /** The producer is between storing entry `e`'s key and storing or clearing its value. */
  predicate BeingInserted(p: Producer, e: nat) {
    match p
    case KeyStored(_, entry) => entry == e
    case Requisitioning(_, entry) => entry == e
    case Resetting(_, entry, _) => entry == e
    case Valuing(_, entry, _) => entry == e
    case Rewinding(entry) => entry == e
    case Clearing(entry) => entry == e
    case _ => false
  }

  predicate BeingUnlisted(consumers: seq<Consumer>, b: nat) {
    exists t :: 0 <= t < |consumers| && AtUnlisting(consumers[t]) && LastNumber(consumers[t]) == b
  }

  /** Block number `b` is reserved, has elements not yet moved out, or is about to be taken off the index
      by the consumer that moved out the last of them. */
  predicate InUseYet(s: State, b: nat) {
    && b < Next(s)
    && (b >= Committed(s) || Unclaimed(b, s.head) + Load(s.consumers, b) > 0 || BeingUnlisted(s.consumers, b))
  }

  predicate Valued(x: Index, e: nat, b: nat) {
    e < |x.entries| && x.entries[e].key == Some(b) && x.entries[e].value.Some?
  }

  /** Every entry with a key and a block is in use, or being inserted. */
  ghost predicate ValuesInUse(s: State) {
    forall e, b :: Valued(s.index, e, b) ==> BeingInserted(s.producer, e) || InUseYet(s, b)
  }

  /** No two entries have the same key. */
  lemma KeysApart(s: State, f: Facts, a: nat, e: nat, b: nat)
    requires Good(s, f) && a < |s.index.entries| && e < |s.index.entries|
    requires s.index.entries[a].key == Some(b) && s.index.entries[e].key == Some(b)
    ensures a == e
  {
    KeyedEntry(s.index, f.note, a, b);
    KeyedEntry(s.index, f.note, e, b);
  }

  /* ---------- Every step keeps it ---------- */

  /** A step that changes no key or value, nor what is in use. */
  lemma SameUse(s: State, s': State, b: nat)
    requires InUseYet(s, b) && s'.log == s.log && |s'.chain| >= |s.chain|
    requires Unclaimed(b, s'.head) + Load(s'.consumers, b) == Unclaimed(b, s.head) + Load(s.consumers, b)
    requires BeingUnlisted(s.consumers, b) ==> BeingUnlisted(s'.consumers, b)
    ensures InUseYet(s', b)
  {}

  /** An entry gets its key from its insertion, and its block with the number reserved. */
  lemma ProducedValue(s: State, f: Facts, choice: Choice, e: nat, b: nat)
    requires Good(s, f) && CanProduce(s, choice) && Valued(ApplyProduce(s, choice).index, e, b)
    ensures || (Valued(s.index, e, b) && !BeingInserted(s.producer, e))
            || BeingInserted(ApplyProduce(s, choice).producer, e)
            || (s.producer.Valuing? && e == s.producer.entry && b == Next(s))
  {}

  lemma NumbersStay(s: State, f: Facts, choice: Choice, b: nat)
    requires Sound(s, f) && CanProduce(s, choice) && !AtPublish(s.producer) && !AtUndone(s) && InUseYet(s, b)
    ensures InUseYet(ApplyProduce(s, choice), b)
  {
    var s' := ApplyProduce(s, choice);
    ProducerLeaves(s, f, choice);
    SameUse(s, s', b);
  }

  lemma ProducerLeaves(s: State, f: Facts, choice: Choice)
    requires Sound(s, f) && CanProduce(s, choice) && !AtPublish(s.producer) && !AtUndone(s)
    ensures var s' := ApplyProduce(s, choice);
      s'.log == s.log && s'.head == s.head && s'.consumers == s.consumers && |s'.chain| >= |s.chain|
  {}

  lemma ProduceKeepsUse(s: State, f: Facts, choice: Choice, e: nat, b: nat)
    requires Good(s, f) && ValuesInUse(s) && CanProduce(s, choice) && Valued(ApplyProduce(s, choice).index, e, b)
    ensures var s' := ApplyProduce(s, choice); BeingInserted(s'.producer, e) || InUseYet(s', b)
  {
    ProducedValue(s, f, choice, e, b);
    if Valued(s.index, e, b) && !BeingInserted(s.producer, e) {
      assert InUseYet(s, b);
      if AtPublish(s.producer) {
        PublishUse(s, f, choice, b);
      } else if AtUndone(s) {
        UndoneUse(s, f, choice, e, b);
      } else {
        NumbersStay(s, f, choice, b);
      }
    } else if s.producer.Valuing? && e == s.producer.entry && b == Next(s) {
      ReservedUse(s, choice);
    }
  }

  lemma ReservedUse(s: State, choice: Choice)
    requires CanProduce(s, choice) && s.producer.Valuing?
    ensures InUseYet(ApplyProduce(s, choice), Next(s))
  {}

  /** The numbers just published have all their elements to come out. */
  lemma PublishUse(s: State, f: Facts, choice: Choice, b: nat)
    requires Good(s, f) && CanProduce(s, choice) && AtPublish(s.producer) && InUseYet(s, b)
    ensures InUseYet(ApplyProduce(s, choice), b)
  {}

  /** The numbers taken back have no blocks. */
  lemma UndoneUse(s: State, f: Facts, choice: Choice, e: nat, b: nat)
    requires Good(s, f) && CanProduce(s, choice) && AtUndone(s) && InUseYet(s, b) && Valued(s.index, e, b)
    ensures InUseYet(ApplyProduce(s, choice), b)
  {
    if b >= Committed(s) {
      UndoneBlocks(s, f);
      assert InfoOk(s, f, b);
      KeysApart(s, f, e, f.infos[b].entry, b);
    } else {
      assert BeingUnlisted(s.consumers, b) ==> BeingUnlisted(ApplyProduce(s, choice).consumers, b);
    }
  }

  /* ---------- Consumers ---------- */

  lemma ClaimKeepsUse(s: State, t: nat, count: nat, b: nat)
    requires Enabled(s, Claim(t, count)) && InUseYet(s, b)
    ensures InUseYet(Apply(s, Claim(t, count)), b)
  {
    var s' := Apply(s, Claim(t, count));
    ClaimAdds(s, t, count, b);
    if u :| 0 <= u < |s.consumers| && AtUnlisting(s.consumers[u]) && LastNumber(s.consumers[u]) == b {
      assert s'.consumers[u] == s.consumers[u];
    }
    SameUse(s, s', b);
  }

  /** A consumer's step other than counting a run or taking a block off the index. */
  lemma SearchKeepsUse(s: State, f: Facts, t: nat, b: nat)
    requires Good(s, f) && CanConsume(s, t) && !EndOfRun(s.consumers[t]) && !AtUnlisting(s.consumers[t])
    requires InUseYet(s, b)
    ensures InUseYet(ApplyConsume(s, t), b)
  {
    var s' := ApplyConsume(s, t);
    SearchKeepsLoad(s, f, t, b);
    if u :| 0 <= u < |s.consumers| && AtUnlisting(s.consumers[u]) && LastNumber(s.consumers[u]) == b {
      assert s'.consumers[u] == s.consumers[u];
    }
    SameUse(s, s', b);
  }

  lemma SearchKeepsLoad(s: State, f: Facts, t: nat, b: nat)
    requires Good(s, f) && CanConsume(s, t) && !EndOfRun(s.consumers[t]) && !AtUnlisting(s.consumers[t])
    ensures var s' := ApplyConsume(s, t);
      && s'.consumers == s.consumers[t := s'.consumers[t]] && Load(s'.consumers, b) == Load(s.consumers, b)
      && s'.log == s.log && s'.chain == s.chain && s'.head == s.head && s'.index == s.index
  {
    assert ThreadOk(s, f, t);
    MovingWithinRun(s, f, t);
    LoadUpdate(s.consumers, t, ApplyConsume(s, t).consumers[t], b);
    EmptyOverlap(b, 0);
    if s.consumers[t].Busy? {
      EmptyOverlap(b, s.consumers[t].i);
    }
  }

  /** Counting a run: its own block stays in use, if only until the consumer takes it off the index. */
  lemma CountKeepsUse(s: State, f: Facts, t: nat, b: nat)
    requires Good(s, f) && CanConsume(s, t) && EndOfRun(s.consumers[t]) && InUseYet(s, b)
    ensures InUseYet(ApplyConsume(s, t), b)
  {
    var s', c := ApplyConsume(s, t), s.consumers[t];
    CountedBlock(s, f, t);
    CountLoad(s, t, b);
    if b == c.i / BLOCK_SIZE {
      CountedOwn(s, f, t);
    } else {
      if u :| 0 <= u < |s.consumers| && AtUnlisting(s.consumers[u]) && LastNumber(s.consumers[u]) == b {
        assert s'.consumers[u] == s.consumers[u];
      }
      SameUse(s, s', b);
    }
  }

  lemma CountedOwn(s: State, f: Facts, t: nat)
    requires Good(s, f) && CanConsume(s, t) && EndOfRun(s.consumers[t])
    ensures InUseYet(ApplyConsume(s, t), s.consumers[t].i / BLOCK_SIZE)
  {
    var s', c := ApplyConsume(s, t), s.consumers[t];
    var b := c.i / BLOCK_SIZE;
    CountedBlock(s, f, t);
    CountLoad(s, t, b);
    assert ThreadOk(s, f, t);
    SegmentBounds(c.i, High(c));
    if s.blocks[c.stage.block].counter + c.stage.moved == BLOCK_SIZE {
      assert AtUnlisting(s'.consumers[t]) && LastNumber(s'.consumers[t]) == b;
    } else {
      RunWithinBlock(s, f, t);
    }
  }

  /** A run that does not fill its block's counter leaves indices of the block to others. */
  lemma RunWithinBlock(s: State, f: Facts, t: nat)
    requires Good(s, f) && CanConsume(s, t) && EndOfRun(s.consumers[t])
    requires var c := s.consumers[t];
      c.stage.block < |s.blocks| && s.blocks[c.stage.block].counter + c.stage.moved != BLOCK_SIZE
    ensures var b := s.consumers[t].i / BLOCK_SIZE;
      Unclaimed(b, s.head) + Load(ApplyConsume(s, t).consumers, b) > 0
  {
    CountedBlock(s, f, t);
    CountLoad(s, t, s.consumers[t].i / BLOCK_SIZE);
  }

  /** Taking a block off the index clears the one entry with its number. */
  lemma UnlistKeepsUse(s: State, f: Facts, t: nat, e: nat, b: nat)
    requires Good(s, f) && CanConsume(s, t) && AtUnlisting(s.consumers[t])
    requires InUseYet(s, b) && Valued(ApplyConsume(s, t).index, e, b)
    ensures InUseYet(ApplyConsume(s, t), b)
  {
    var s', c := ApplyConsume(s, t), s.consumers[t];
    UnlistedEntry(s, f, t);
    var own := s.index.headers[c.stage.h].index[c.stage.slot];
    if b == LastNumber(c) {
      KeysApart(s, f, e, own, b);
      assert false;
    }
    UnlistLoad(s, t, b);
    if u :| 0 <= u < |s.consumers| && AtUnlisting(s.consumers[u]) && LastNumber(s.consumers[u]) == b {
      assert s'.consumers[u] == s.consumers[u];
    }
    SameUse(s, s', b);
  }

  lemma ConsumeKeepsUse(s: State, f: Facts, t: nat, e: nat, b: nat)
    requires Good(s, f) && CanConsume(s, t) && Valued(ApplyConsume(s, t).index, e, b) && InUseYet(s, b)
    ensures InUseYet(ApplyConsume(s, t), b)
  {
    if AtUnlisting(s.consumers[t]) {
      UnlistKeepsUse(s, f, t, e, b);
    } else if EndOfRun(s.consumers[t]) {
      CountKeepsUse(s, f, t, b);
    } else {
      SearchKeepsUse(s, f, t, b);
    }
  }

  lemma ConsumedValue(s: State, t: nat, e: nat, b: nat)
    requires CanConsume(s, t) && Valued(ApplyConsume(s, t).index, e, b)
    ensures Valued(s.index, e, b) && ApplyConsume(s, t).producer == s.producer
  {}

  lemma StepKeepsUse(s: State, step: Step)
    requires Inv(s) && ValuesInUse(s) && Enabled(s, step)
    ensures ValuesInUse(Apply(s, step))
  {
    var f: Facts :| Good(s, f);
    var s' := Apply(s, step);
    forall e, b | Valued(s'.index, e, b) ensures BeingInserted(s'.producer, e) || InUseYet(s', b) {
      match step
      case Produce(choice) => ProduceKeepsUse(s, f, choice, e, b);
      case Consume(t) =>
        ConsumedValue(s, t, e, b);
        if !BeingInserted(s.producer, e) {
          ConsumeKeepsUse(s, f, t, e, b);
        }
      case Claim(t, count) =>
        if !BeingInserted(s.producer, e) {
          ClaimKeepsUse(s, t, count, b);
        }
      case _ =>
        OthersLeave(s, step, b);
    }
  }

  lemma OthersLeave(s: State, step: Step, b: nat)
    requires Enabled(s, step) && !step.Produce? && !step.Consume? && !step.Claim?
    ensures Apply(s, step).index == s.index
    ensures InUseYet(s, b) ==> InUseYet(Apply(s, step), b)
    ensures forall e :: BeingInserted(s.producer, e) ==> BeingInserted(Apply(s, step).producer, e)
  {}

  lemma {:induction false} RunKeepsUse(states: seq<State>, steps: seq<Step>, k: nat)
    requires IsRun(states, steps) && k < |states|
    ensures Inv(states[k]) && ValuesInUse(states[k])
  {
    RunKeepsInv(states, steps, k);
    if k > 0 {
      RunKeepsUse(states, steps, k - 1);
      StepKeepsUse(states[k - 1], steps[k - 1]);
    }
  }

  /* ---------- When the index grows ---------- */

  lemma FullEntry(s: State, f: Facts, e: nat, b: nat)
    requires Good(s, f) && s.producer.Inserting? && b < Next(s)
    requires e == Current(s.index).index[NextSlot(Current(s.index))] && e < |s.index.entries|
    requires s.index.entries[e].key == Some(b)
    ensures b == Next(s) - |s.index.entries|
  {
    var x, n := s.index, f.note;
    NextSlotIsNext(x, n);
    assert RingOk(x, n, Newest(x)) && EntryOk(x, n, e);
    HomeCongruent(x, n, Next(s));
    FullNumber(b, Next(s), n.home[e], n.top, |x.entries|);
  }

  lemma FullNumber(b: nat, next: nat, home: int, top: nat, size: nat)
    requires size > 0 && (b - home) % size == 0 && (next - home) % size == 0 && b < next <= top && top - size <= b
    ensures b == next - size
  {
    ModShift(next - home, -1, size);
    CongruentInWindow(b, home, next - size, next - size, size);
  }

  /** In every run an enqueue sets out to double the index only when the ring is full: the entry it
      would reuse is that of the block a whole ring earlier, which still has elements to come out, or whose
      last consumer is about to take it off the index. */
  lemma GrowsOnlyWhenFull(states: seq<State>, steps: seq<Step>, k: nat)
    requires IsRun(states, steps) && k < |steps| && steps[k].Produce?
    requires states[k].producer.Inserting? && states[k + 1].producer.Growing?
    ensures var s := states[k];
      Next(s) >= |s.index.entries| && InUseYet(s, Next(s) - |s.index.entries|)
  {
    RunKeepsUse(states, steps, k);
    var s := states[k];
    var f: Facts :| Good(s, f);
    assert Enabled(s, steps[k]) && states[k + 1] == Apply(s, steps[k]);
    var e := Current(s.index).index[NextSlot(Current(s.index))];
    var b := s.index.entries[e].key.value;
    assert Valued(s.index, e, b);
    FullEntry(s, f, e, b);
  }
}
