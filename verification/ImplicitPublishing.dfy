/** The producer's steps that add block numbers, publish elements and take numbers back keep the
    implicit queue's invariant. */
module ImplicitPublishing {
  import opened Basics
  import opened Words
  import opened BlockIndex
  import opened BlockLookups
  import opened ImplicitQueue
  import opened ImplicitFrames
  import opened ImplicitProducing

  /** No consumer has a claim in a block beyond the head. */
  lemma {:induction false} NoLoadAhead(consumers: seq<Consumer>, head: nat, b: nat)
    requires forall t :: 0 <= t < |consumers| ==> High(consumers[t]) <= head
    requires head <= b * BLOCK_SIZE
    ensures Load(consumers, b) == 0
  {
    if |consumers| > 0 {
      assert High(consumers[|consumers| - 1]) <= head;
      NoLoadAhead(consumers[..|consumers| - 1], head, b);
    }
  }

  lemma ClaimsBelowHead(s: State, f: Facts)
    requires Sound(s, f)
    ensures forall t :: 0 <= t < |s.consumers| ==> High(s.consumers[t]) <= s.head
  {
    forall t | 0 <= t < |s.consumers| ensures High(s.consumers[t]) <= s.head {
      assert ThreadOk(s, f, t);
    }
  }

  function ValueFacts(s: State, f: Facts): Facts
    requires s.producer.Valuing? && s.producer.block < |f.owners|
  {
    f.(infos := f.infos
      + [Info(s.producer.block, s.producer.entry, Live)], owners := f.owners[s.producer.block := InUse(Next(s))])
  }

  lemma ValueNewNumber(s: State, f: Facts, choice: Choice)
    requires Good(s, f) && CanProduce(s, choice) && s.producer.Valuing? && s.producer.block < |f.owners|
    requires Shaped(ApplyProduce(s, choice), ValueFacts(s, f))
    ensures InfoOk(ApplyProduce(s, choice), ValueFacts(s, f), Next(s))
  {
    ClaimsBelowHead(s, f);
    NoLoadAhead(s.consumers, s.head, Next(s));
  }

  lemma ValueOldNumber(s: State, f: Facts, choice: Choice, b: nat)
    requires CanProduce(s, choice) && s.producer.Valuing? && s.producer.block < |f.owners|
    requires f.owners[s.producer.block] == Acquired
    requires Shaped(s, f) && Shaped(ApplyProduce(s, choice), ValueFacts(s, f))
    requires s.index.entries[s.producer.entry].key == Some(Next(s))
    requires b < |f.infos| && InfoOk(s, f, b) && f.infos[b].phase != Dropped
    ensures InfoOk(ApplyProduce(s, choice), ValueFacts(s, f), b)
  {
    var s', f' := ApplyProduce(s, choice), ValueFacts(s, f);
    KeepNumber(s.index, f.note, f.infos[b], b, f.owners, s.blocks, s.log, s.head, s.consumers,
               s'.index, f'.note, f'.owners, s'.blocks, s'.head, s'.consumers);
  }

  lemma ValueNumbers(s: State, f: Facts, choice: Choice)
    requires Good(s, f) && CanProduce(s, choice) && s.producer.Valuing? && s.producer.block < |f.owners|
    requires Shaped(ApplyProduce(s, choice), ValueFacts(s, f))
    ensures forall b :: 0 <= b <= |f.infos| ==> InfoOk(ApplyProduce(s, choice), ValueFacts(s, f), b)
  {
    forall b | 0 <= b <= |f.infos| ensures InfoOk(ApplyProduce(s, choice), ValueFacts(s, f), b) {
      if b == |f.infos| {
        ValueNewNumber(s, f, choice);
      } else {
        NoneDropped(s, f, b);
        ValueOldNumber(s, f, choice, b);
      }
    }
  }

  lemma ValueChain(s: State, f: Facts, choice: Choice)
    requires Good(s, f) && CanProduce(s, choice) && s.producer.Valuing? && s.producer.block < |f.owners|
    ensures var s', f' := ApplyProduce(s, choice), ValueFacts(s, f); ChainOk(s'.chain, Committed(s), f'.infos, 0)
  {
    var s', f' := ApplyProduce(s, choice), ValueFacts(s, f);
    forall j | 0 <= j < |s.chain| ensures s.chain[j] != s.producer.block {
      assert ReservedAt(s.chain, Committed(s), f.infos, 0, j);
      assert InfoOk(s, f, Committed(s) + j);
    }
    forall j | 0 <= j < |s'.chain| ensures ReservedAt(s'.chain, Committed(s), f'.infos, 0, j) {
      assert j < |s.chain| ==> ReservedAt(s.chain, Committed(s), f.infos, 0, j);
    }
  }

  lemma ValueOthers(s: State, f: Facts, choice: Choice)
    requires Good(s, f) && CanProduce(s, choice) && s.producer.Valuing? && s.producer.block < |f.owners|
    requires Shaped(ApplyProduce(s, choice), ValueFacts(s, f))
    ensures forall b :: 0 <= b < |s.blocks| ==> BlockOk(ApplyProduce(s, choice), ValueFacts(s, f), b)
    ensures forall t :: 0 <= t < |s.consumers| ==> ThreadOk(ApplyProduce(s, choice), ValueFacts(s, f), t)
  {
    var s', f' := ApplyProduce(s, choice), ValueFacts(s, f);
    forall b | 0 <= b < |s'.blocks| ensures BlockOk(s', f', b) {
      assert BlockOk(s, f, b);
    }
    KeepThreads(s, s', f, f');
  }

  lemma ValuingStep(s: State, f: Facts, choice: Choice)
    requires Good(s, f) && CanProduce(s, choice) && s.producer.Valuing?
    ensures s.producer.block < |f.owners| && Good(ApplyProduce(s, choice), ValueFacts(s, f))
  {
    StoreValueOk(s.index, f.note, s.producer.entry, Some(s.producer.block));
    ValueNumbers(s, f, choice);
    ValueChain(s, f, choice);
    ValueOthers(s, f, choice);
    ValueSettled(s.index, f.note, s.producer.entry, s.producer.block, Next(s));
  }

  lemma ValueSettled(x: Index, n: Note, e: nat, block: nat, b: nat)
    requires 0 < |x.headers| == |n.offset| == |n.mark| && Capacity(Current(x)) > 0 && InsertingAt(x, n, e, b, b)
    ensures Settled(StoreValue(x, e, Some(block)), n, b + 1, b)
  {
    assert forall c :: EntryOf(StoreValue(x, e, Some(block)), n, c) == EntryOf(x, n, c);
  }

  /* ---------- Filling and publishing ---------- */

  /** The producer about to write an element. */
  predicate AtWrite(p: Producer) {
    p.Filling? && p.done < |p.items|
  }

  lemma WriteEnabled(s: State, f: Facts)
    requires Sound(s, f) && AtWrite(s.producer)
    ensures var i := |s.log| + s.producer.done;
      i / BLOCK_SIZE < Next(s) && WriteBlock(s, i) < |s.blocks| && f.owners[WriteBlock(s, i)] == InUse(i / BLOCK_SIZE)
  {
    WriteBlockInUse(s, f, s.producer.done);
  }

  lemma CellsApart(a: nat, b: nat)
    requires a != b && a / BLOCK_SIZE == b / BLOCK_SIZE
    ensures a % BLOCK_SIZE != b % BLOCK_SIZE
  {}

  /** The elements written before stay: their blocks or their cells differ from the new one's. */
  lemma WriteFilled(s: State, choice: Choice, j: nat)
    requires CanProduce(s, choice) && AtWrite(s.producer) && j < s.producer.done && FilledAt(s, s.producer.items, j)
    requires (|s.log| + j) / BLOCK_SIZE < Next(s) && (|s.log| + s.producer.done) / BLOCK_SIZE < Next(s)
    requires WriteBlock(s, |s.log| + j) == WriteBlock(s, |s.log| + s.producer.done) ==>
      (|s.log| + j) / BLOCK_SIZE == (|s.log| + s.producer.done) / BLOCK_SIZE
    ensures FilledAt(ApplyProduce(s, choice), s.producer.items, j)
  {
    if (|s.log| + j) / BLOCK_SIZE == (|s.log| + s.producer.done) / BLOCK_SIZE {
      CellsApart(|s.log| + j, |s.log| + s.producer.done);
    }
  }

  lemma WriteAllFilled(s: State, f: Facts, choice: Choice)
    requires Sound(s, f) && CanProduce(s, choice) && AtWrite(s.producer)
    ensures forall j :: 0 <= j <= s.producer.done ==> FilledAt(ApplyProduce(s, choice), s.producer.items, j)
  {
    WriteBlockInUse(s, f, s.producer.done);
    forall j | 0 <= j <= s.producer.done ensures FilledAt(ApplyProduce(s, choice), s.producer.items, j) {
      if j < s.producer.done {
        assert FilledAt(s, s.producer.items, j);
        WriteBlockInUse(s, f, j);
        WriteFilled(s, choice, j);
      }
    }
  }

  /** Writing beyond the published elements keeps the cells of the published ones. */
  lemma WriteKeepsCells(cells: seq<int>, log: seq<int>, i: nat, item: int)
    requires CellsOk(cells, log, i / BLOCK_SIZE) && i >= |log|
    ensures CellsOk(cells[i % BLOCK_SIZE := item], log, i / BLOCK_SIZE)
  {}

  lemma WriteNumber(s: State, f: Facts, choice: Choice, b: nat)
    requires Sound(s, f) && CanProduce(s, choice) && AtWrite(s.producer) && b < |f.infos|
    ensures InfoOk(ApplyProduce(s, choice), f, b)
  {
    var i := |s.log| + s.producer.done;
    WriteEnabled(s, f);
    NoneDropped(s, f, b);
    WriteOneNumber(s, f, choice, b);
  }

  lemma WriteOneNumber(s: State, f: Facts, choice: Choice, b: nat)
    requires Shaped(s, f) && CanProduce(s, choice) && AtWrite(s.producer) && b < |f.infos|
    requires InfoOk(s, f, b) && f.infos[b].phase != Dropped
    requires var i := |s.log| + s.producer.done;
      i / BLOCK_SIZE < Next(s) && WriteBlock(s, i) < |s.blocks| && f.owners[WriteBlock(s, i)] == InUse(i / BLOCK_SIZE)
    ensures InfoOk(ApplyProduce(s, choice), f, b)
  {
    var i := |s.log| + s.producer.done;
    if f.infos[b].phase == Live && f.infos[b].block == WriteBlock(s, i) {
      WriteKeepsCells(s.blocks[WriteBlock(s, i)].cells, s.log, i, s.producer.items[s.producer.done]);
    }
  }

  lemma WriteStep(s: State, f: Facts, choice: Choice)
    requires Good(s, f) && CanProduce(s, choice) && AtWrite(s.producer)
    ensures Good(ApplyProduce(s, choice), f)
  {
    var s' := ApplyProduce(s, choice);
    forall b | 0 <= b < |f.infos| ensures InfoOk(s', f, b) {
      WriteNumber(s, f, choice, b);
    }
    forall b | 0 <= b < |s'.blocks| ensures BlockOk(s', f, b) {
      assert BlockOk(s, f, b);
    }
    KeepThreads(s, s', f, f);
    WriteAllFilled(s, f, choice);
  }

  /** The producer about to publish a filled enqueue. */
  predicate AtPublish(p: Producer) {
    p.Filling? && p.done == |p.items|
  }

  /** Once filled, the block of every number holds the new elements too. */
  lemma PublishCells(s: State, f: Facts, b: nat)
    requires Sound(s, f) && AtPublish(s.producer) && b < |f.infos| && f.infos[b].phase == Live && InfoOk(s, f, b)
    ensures CellsOk(s.blocks[f.infos[b].block].cells, s.log + s.producer.items, b)
  {
    var log' := s.log + s.producer.items;
    var cells := s.blocks[f.infos[b].block].cells;
    forall k | 0 <= k < BLOCK_SIZE && b * BLOCK_SIZE + k < |log'| ensures cells[k] == log'[b * BLOCK_SIZE + k] {
      var i := b * BLOCK_SIZE + k;
      DivModUnique(i, b, k, BLOCK_SIZE);
      if i >= |s.log| {
        assert FilledAt(s, s.producer.items, i - |s.log|);
        WriteBlockInUse(s, f, i - |s.log|);
        assert BlockOk(s, f, WriteBlock(s, i));
      }
    }
  }

  lemma PublishNumber(s: State, f: Facts, choice: Choice, b: nat)
    requires Sound(s, f) && CanProduce(s, choice) && AtPublish(s.producer) && b < |f.infos|
    requires Shaped(ApplyProduce(s, choice), f)
    ensures InfoOk(ApplyProduce(s, choice), f, b)
  {
    assert InfoOk(s, f, b);
    NoneDropped(s, f, b);
    if f.infos[b].phase == Live {
      PublishCells(s, f, b);
    }
  }

  lemma PublishTail(s: State, f: Facts, choice: Choice)
    requires Sound(s, f) && CanProduce(s, choice) && AtPublish(s.producer)
    ensures var s' := ApplyProduce(s, choice);
      |f.infos| == Committed(s') && (|s'.log| % BLOCK_SIZE != 0 ==> f.infos[Committed(s') - 1].block == s'.tailBlock)
  {
    if |s.chain| > 0 {
      assert ReservedAt(s.chain, Committed(s), f.infos, 0, |s.chain| - 1);
    }
  }

  lemma PublishStep(s: State, f: Facts, choice: Choice)
    requires Good(s, f) && CanProduce(s, choice) && AtPublish(s.producer)
    ensures Good(ApplyProduce(s, choice), f)
  {
    var s' := ApplyProduce(s, choice);
    PublishTail(s, f, choice);
    assert Shaped(s', f);
    forall b | 0 <= b < |f.infos| ensures InfoOk(s', f, b) {
      PublishNumber(s, f, choice, b);
    }
    forall b | 0 <= b < |s'.blocks| ensures BlockOk(s', f, b) {
      assert BlockOk(s, f, b);
    }
    KeepThreads(s, s', f, f);
  }

  /* ---------- Undoing ---------- */

  /** The producer about to take back its `i`-th reserved number. */
  predicate AtUndo(s: State) {
    s.producer.Undoing? && s.producer.i < |s.chain|
  }

  /** The producer's own lookup finds the entry of the number it takes back. */
  lemma UndoFinds(s: State, f: Facts)
    requires Good(s, f) && AtUndo(s)
    ensures var b, x := Committed(s) + s.producer.i, s.index;
      && b < |f.infos| && f.infos[b].phase == Live && f.infos[b].block == s.chain[s.producer.i] && InfoOk(s, f, b)
      && SlotInRange(x, Newest(x), Current(x).tail) && EntryAt(x, Newest(x), Current(x).tail).key.Some?
      && SlotInRange(x, Newest(x), OwnLookup(x, b)) && Current(x).index[OwnLookup(x, b)] == f.infos[b].entry
  {
    var b, x, n := Committed(s) + s.producer.i, s.index, f.note;
    assert ReservedAt(s.chain, Committed(s), f.infos, s.producer.i, s.producer.i);
    assert InfoOk(s, f, b);
    assert RingOk(x, n, Newest(x));
    KeyedSlot(x, n, Newest(x), Current(x).tail);
    DivModUnique(b * BLOCK_SIZE, b, 0, BLOCK_SIZE);
    LookupFinds(x, n, Newest(x), Current(x).tail, EntryAt(x, Newest(x), Current(x).tail).key.value, b * BLOCK_SIZE,
      f.infos[b].entry);
  }

  function UndoFacts(s: State, f: Facts): Facts
    requires AtUndo(s) && Next(s) == |f.infos| && s.chain[s.producer.i] < |f.owners|
  {
    var b := Committed(s) + s.producer.i;
    f.(infos := f.infos[b := f.infos[b].(phase := Dropped)], owners := f.owners[s.chain[s.producer.i] := GivenUp])
  }

  lemma UndoOtherNumber(s: State, f: Facts, choice: Choice, b: nat)
    requires CanProduce(s, choice) && AtUndo(s) && s.chain[s.producer.i] < |f.owners|
    requires Shaped(s, f) && Shaped(ApplyProduce(s, choice), UndoFacts(s, f))
    requires var mine := Committed(s) + s.producer.i;
      var e := f.infos[mine].entry;
      && e < |s.index.entries| && s.index.entries[e].key == Some(mine)
      && ApplyProduce(s, choice).index == StoreValue(s.index, e, None)
    requires b < |f.infos| && b != Committed(s) + s.producer.i && InfoOk(s, f, b)
    requires f.infos[b].phase != Gone ==> f.infos[b].block != s.chain[s.producer.i]
    ensures InfoOk(ApplyProduce(s, choice), UndoFacts(s, f), b)
  {
    var s', f' := ApplyProduce(s, choice), UndoFacts(s, f);
    KeepNumber(s.index, f.note, f.infos[b], b, f.owners, s.blocks, s.log, s.head, s.consumers,
               s'.index, f'.note, f'.owners, s'.blocks, s'.head, s'.consumers);
  }

  lemma UndoNumbers(s: State, f: Facts, choice: Choice)
    requires Good(s, f) && CanProduce(s, choice) && AtUndo(s) && s.chain[s.producer.i] < |f.owners|
    requires Shaped(ApplyProduce(s, choice), UndoFacts(s, f))
    ensures forall b :: 0 <= b < |f.infos| ==> InfoOk(ApplyProduce(s, choice), UndoFacts(s, f), b)
  {
    UndoFinds(s, f);
    forall b | 0 <= b < |f.infos| ensures InfoOk(ApplyProduce(s, choice), UndoFacts(s, f), b) {
      if b != Committed(s) + s.producer.i {
        assert InfoOk(s, f, b);
        if f.infos[b].phase != Gone {
          UndoOtherBlock(s, f, b);
        }
        UndoOtherNumber(s, f, choice, b);
      }
    }
  }

  /** The block of another number is not the one being given up. */
  lemma UndoOtherBlock(s: State, f: Facts, b: nat)
    requires Sound(s, f) && AtUndo(s) && b < |f.infos| && b != Committed(s) + s.producer.i && f.infos[b].phase != Gone
    ensures f.infos[b].block != s.chain[s.producer.i]
  {
    var i := s.producer.i;
    assert ReservedAt(s.chain, Committed(s), f.infos, i, i);
    assert InfoOk(s, f, Committed(s) + i);
    assert InfoOk(s, f, b);
  }

  lemma UndoBlocks(s: State, f: Facts, choice: Choice)
    requires Good(s, f) && CanProduce(s, choice) && AtUndo(s) && s.chain[s.producer.i] < |f.owners|
    requires Shaped(ApplyProduce(s, choice), UndoFacts(s, f))
    ensures forall b :: 0 <= b < |s.blocks| ==> BlockOk(ApplyProduce(s, choice), UndoFacts(s, f), b)
  {
    var s', f' := ApplyProduce(s, choice), UndoFacts(s, f);
    UndoFinds(s, f);
    forall b | 0 <= b < |s'.blocks| ensures BlockOk(s', f', b) {
      assert BlockOk(s, f, b);
    }
  }

  lemma UndoThreads(s: State, f: Facts, choice: Choice)
    requires Good(s, f) && CanProduce(s, choice) && AtUndo(s) && s.chain[s.producer.i] < |f.owners|
    requires Shaped(ApplyProduce(s, choice), UndoFacts(s, f))
    ensures forall t :: 0 <= t < |s.consumers| ==> ThreadOk(ApplyProduce(s, choice), UndoFacts(s, f), t)
  {
    UndoFinds(s, f);
    KeepThreads(s, ApplyProduce(s, choice), f, UndoFacts(s, f));
  }

  lemma UndoChain(s: State, f: Facts)
    requires AtUndo(s) && Next(s) == |f.infos| && s.chain[s.producer.i] < |f.owners|
    requires ChainOk(s.chain, Committed(s), f.infos, s.producer.i)
    ensures ChainOk(s.chain, Committed(s), UndoFacts(s, f).infos, s.producer.i + 1)
  {
    var next, infos' := s.producer.i + 1, UndoFacts(s, f).infos;
    forall j | 0 <= j < |s.chain| ensures ReservedAt(s.chain, Committed(s), infos', next, j) {
      assert ReservedAt(s.chain, Committed(s), f.infos, s.producer.i, j);
    }
  }

  lemma UndoSettled(x: Index, n: Note, e: nat, b: nat, mark: int)
    requires 0 < |x.headers| == |n.offset| == |n.mark| && Capacity(Current(x)) > 0 && e < |x.entries|
    requires Settled(x, n, b, mark)
    ensures Settled(StoreValue(x, e, None), n, b, mark)
  {
    assert forall c :: EntryOf(StoreValue(x, e, None), n, c) == EntryOf(x, n, c);
  }

  lemma UndoProducer(s: State, f: Facts, choice: Choice, e: nat)
    requires CanProduce(s, choice) && AtUndo(s) && s.chain[s.producer.i] < |f.owners| && e < |s.index.entries|
    requires Shaped(s, f) && ProducerOk(s, f) && Shaped(ApplyProduce(s, choice), UndoFacts(s, f))
    requires ApplyProduce(s, choice).index == StoreValue(s.index, e, None)
    ensures ProducerOk(ApplyProduce(s, choice), UndoFacts(s, f))
  {
    UndoChain(s, f);
    UndoSettled(s.index, f.note, e, Next(s), Next(s) - 1 - s.producer.i);
  }

  /** What the undo clears is the entry of exactly the number it takes back, which held the reserved block. */
  lemma UndoIndex(s: State, f: Facts, choice: Choice)
    requires Good(s, f) && CanProduce(s, choice) && AtUndo(s)
    ensures s.chain[s.producer.i] < |f.owners| && Next(s) == |f.infos|
    ensures var b, x, x' := Committed(s) + s.producer.i, s.index, ApplyProduce(s, choice).index;
      var e := f.infos[b].entry;
      e < |x.entries| && x.entries[e] == Entry(Some(b), Some(s.chain[s.producer.i])) && x' == StoreValue(x, e, None)
    ensures IndexOk(ApplyProduce(s, choice).index, f.note) && Shaped(ApplyProduce(s, choice), UndoFacts(s, f))
  {
    UndoFinds(s, f);
    StoreValueOk(s.index, f.note, f.infos[Committed(s) + s.producer.i].entry, None);
  }

  /** Taking back a reserved number clears that number's entry, the one its block is in, and no other. */
  lemma UndoStep(s: State, f: Facts, choice: Choice)
    requires Good(s, f) && CanProduce(s, choice) && AtUndo(s)
    ensures s.chain[s.producer.i] < |f.owners| && Next(s) == |f.infos| && Good(ApplyProduce(s, choice), UndoFacts(s, f))
    ensures var b, x, x' := Committed(s) + s.producer.i, s.index, ApplyProduce(s, choice).index;
      var e := f.infos[b].entry;
      e < |x.entries| && x.entries[e] == Entry(Some(b), Some(s.chain[s.producer.i])) && x' == StoreValue(x, e, None)
  {
    UndoIndex(s, f, choice);
    UndoNumbers(s, f, choice);
    UndoBlocks(s, f, choice);
    UndoThreads(s, f, choice);
    UndoProducer(s, f, choice, f.infos[Committed(s) + s.producer.i].entry);
  }

  /** The producer with every reserved number taken back. */
  predicate AtUndone(s: State) {
    s.producer.Undoing? && s.producer.i == |s.chain|
  }

  function UndoneFacts(s: State, f: Facts): Facts
    requires Committed(s) <= |f.infos|
  {
    f.(infos := f.infos[..Committed(s)])
  }

  /** The entry of a number with a keyed entry is at the number's slot. */
  lemma KeyedEntry(x: Index, n: Note, entry: nat, b: nat)
    requires IndexOk(x, n) && entry < |x.entries| && x.entries[entry].key == Some(b)
    ensures EntryOf(x, n, b) == entry
  {
    assert RingOk(x, n, Newest(x)) && EntryOk(x, n, entry);
    SameSlot(x, n, Newest(x), b, n.home[entry]);
  }

  lemma UndoneRemnants(s: State, f: Facts)
    requires Good(s, f) && AtUndone(s)
    ensures Remnants(s.index, f.note, Committed(s))
  {
    forall b | Committed(s) <= b < f.note.top
      ensures EntryOf(s.index, f.note, b) < |s.index.entries|
      ensures s.index.entries[EntryOf(s.index, f.note, b)] == Entry(Some(b), None)
    {
      if b < Next(s) {
        assert ReservedAt(s.chain, Committed(s), f.infos, |s.chain|, b - Committed(s));
        assert InfoOk(s, f, b);
        KeyedEntry(s.index, f.note, f.infos[b].entry, b);
      }
    }
  }

  lemma UndoneBlocks(s: State, f: Facts)
    requires Sound(s, f) && AtUndone(s)
    ensures forall j :: 0 <= j < |s.chain| ==> s.chain[j] < |s.blocks| && f.owners[s.chain[j]] == GivenUp
    ensures forall b :: Committed(s) <= b < |f.infos| ==> f.infos[b].phase == Dropped
  {
    forall j | 0 <= j < |s.chain| ensures s.chain[j] < |s.blocks| && f.owners[s.chain[j]] == GivenUp {
      assert ReservedAt(s.chain, Committed(s), f.infos, |s.chain|, j);
      assert InfoOk(s, f, Committed(s) + j);
    }
    forall b | Committed(s) <= b < |f.infos| ensures f.infos[b].phase == Dropped {
      assert ReservedAt(s.chain, Committed(s), f.infos, |s.chain|, b - Committed(s));
    }
  }

  lemma UndoneStep(s: State, f: Facts, choice: Choice)
    requires Good(s, f) && CanProduce(s, choice) && AtUndone(s)
    ensures Good(ApplyProduce(s, choice), UndoneFacts(s, f))
  {
    var s', f' := ApplyProduce(s, choice), UndoneFacts(s, f);
    UndoneRemnants(s, f);
    UndoneBlocks(s, f);
    forall b | 0 <= b < |f'.infos| ensures InfoOk(s', f', b) {
      assert InfoOk(s, f, b);
    }
    forall b | 0 <= b < |s'.blocks| ensures BlockOk(s', f', b) {
      assert BlockOk(s, f, b);
    }
    KeepThreads(s, s', f, f');
  }

  lemma FillingStep(s: State, f: Facts, choice: Choice)
    requires Good(s, f) && CanProduce(s, choice) && s.producer.Filling?
    ensures Good(ApplyProduce(s, choice), f)
  {
    if AtWrite(s.producer) {
      WriteStep(s, f, choice);
    } else {
      PublishStep(s, f, choice);
    }
  }

  lemma UndoingStep(s: State, f: Facts, choice: Choice)
    requires Good(s, f) && CanProduce(s, choice) && s.producer.Undoing?
    ensures exists f' :: Good(ApplyProduce(s, choice), f')
  {
    if AtUndo(s) {
      UndoStep(s, f, choice);
    } else {
      UndoneStep(s, f, choice);
    }
  }
}
