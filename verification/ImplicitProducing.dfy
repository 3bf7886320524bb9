/** The producer's steps, and those of its environment, keep the implicit queue's invariant. */
module ImplicitProducing {
  import opened Basics
  import opened Words
  import opened BlockIndex
  import opened BlockLookups
  import opened BlockGrowth
  import opened ImplicitQueue
  import opened ImplicitFrames

  /** A step that leaves the consumers alone and keeps what they rely on. */
  lemma KeepThreads(s: State, s': State, f: Facts, f': Facts)
    requires Sound(s, f) && Shaped(s', f') && s'.consumers == s.consumers && s'.head == s.head && s.log <= s'.log
    requires HeadersKept(s.index, f.note, s'.index, f'.note, Committed(s))
    requires forall t :: 0 <= t < |s.consumers| ==> InfosKept(f.infos, f'.infos, f.owners, f'.owners, Committed(s), t)
    ensures forall t :: 0 <= t < |s'.consumers| ==> ThreadOk(s', f', t)
  {
    forall t | 0 <= t < |s'.consumers| ensures ThreadOk(s', f', t) {
      KeepThread(s, f, t, s'.index, f'.note, f'.infos, f'.owners, s'.log, s'.head);
    }
  }

  /** The producer has no block in hand that is neither in the index nor given up. */
  predicate EmptyHanded(s: State) {
    !s.producer.Resetting? && !s.producer.Valuing?
  }

  /** A step of the producer on the index alone. */
  lemma IndexStep(s: State, s': State, f: Facts, f': Facts)
    requires Sound(s, f) && EmptyHanded(s)
    requires s' == s.(index := s'.index, producer := s'.producer) && f' == f.(note := f'.note)
    requires forall b :: Owed(s.producer, s.chain, b) ==> Owed(s'.producer, s.chain, b)
    requires Fitting(s'.index, f'.note) && HeadersKept(s.index, f.note, s'.index, f'.note, Committed(s))
    requires forall b :: 0 <= b < |f.infos| && f.infos[b].phase != Gone && f.infos[b].entry < |s.index.entries| ==>
      s'.index.entries[f.infos[b].entry] == s.index.entries[f.infos[b].entry]
    requires forall b :: 0 <= b < |f.infos| && (f.infos[b].phase == Live || f.infos[b].phase.Dying?) ==>
      f'.note.floor[Newest(s'.index)] <= b
    requires f'.note.floor[Newest(s'.index)] <= Committed(s) && ProducerOk(s', f')
    ensures Sound(s', f')
  {
    forall b | 0 <= b < |f.infos| ensures InfoOk(s', f', b) {
      assert InfoOk(s, f, b);
      KeepNumber(s.index, f.note, f.infos[b], b, f.owners, s.blocks, s.log, s.head, s.consumers,
                 s'.index, f'.note, f'.owners, s'.blocks, s'.head, s'.consumers);
    }
    forall b | 0 <= b < |s'.blocks| ensures BlockOk(s', f', b) {
      assert BlockOk(s, f, b);
    }
    KeepThreads(s, s', f, f');
  }

  /** A step of the producer on nothing but its own control. */
  lemma ControlStep(s: State, s': State, f: Facts)
    requires Sound(s, f) && EmptyHanded(s) && s' == s.(producer := s'.producer) && ProducerOk(s', f)
    requires forall b :: Owed(s.producer, s.chain, b) ==> Owed(s'.producer, s.chain, b)
    ensures Sound(s', f)
  {
    FloorsBelow(s, f);
    IndexStep(s, s', f, f);
  }

  lemma FloorsBelow(s: State, f: Facts)
    requires Sound(s, f)
    ensures forall b :: 0 <= b < |f.infos| && (f.infos[b].phase == Live || f.infos[b].phase.Dying?) ==>
      f.note.floor[Newest(s.index)] <= b
  {
    forall b | 0 <= b < |f.infos| && (f.infos[b].phase == Live || f.infos[b].phase.Dying?)
      ensures f.note.floor[Newest(s.index)] <= b
    {
      assert InfoOk(s, f, b);
    }
  }

  predicate TakingBack(s: State) {
    s.producer.Undoing? || s.producer.Stepping?
  }

  /** Unless the producer is undoing an enqueue, no number is dropped. */
  lemma NoneDropped(s: State, f: Facts, b: nat)
    requires Sound(s, f) && b < |f.infos| && !TakingBack(s)
    ensures f.infos[b].phase != Dropped
  {
    assert InfoOk(s, f, b);
    if b >= Committed(s) {
      assert ReservedAt(s.chain, Committed(s), f.infos, 0, b - Committed(s));
    }
  }

  /* ---------- Starting, and deciding what to do next ---------- */

  lemma EnqueueStep(s: State, f: Facts, items: seq<int>)
    requires Sound(s, f) && Enabled(s, Enqueue(items))
    ensures Sound(Apply(s, Enqueue(items)), f)
  {
    ControlStep(s, Apply(s, Enqueue(items)), f);
  }

  lemma ReservingStep(s: State, f: Facts, choice: Choice)
    requires Sound(s, f) && CanProduce(s, choice) && s.producer.Reserving?
    ensures Sound(ApplyProduce(s, choice), f)
  {
    ControlStep(s, ApplyProduce(s, choice), f);
  }

  /* ---------- Inserting into the index ---------- */

  /** The slot the producer inserts through is the next number's. */
  lemma InsertionSlot(s: State, f: Facts)
    requires Good(s, f) && s.producer.Inserting?
    ensures var e := Current(s.index).index[NextSlot(Current(s.index))];
      e == EntryOf(s.index, f.note, Next(s)) && e < |s.index.entries| && Next(s) <= f.note.top
  {
    NextSlotIsNext(s.index, f.note);
    assert RingOk(s.index, f.note, Newest(s.index));
  }

  /** Numbers taken back earlier that lie above `n` are less than a turn of the ring above it. */
  lemma RemnantsNear(x: Index, note: Note, n: nat, c: int)
    requires IndexOk(x, note) && Remnants(x, note, n) && n <= c < note.top
    ensures c - n < |x.entries|
  {
    assert EntryOk(x, note, EntryOf(x, note, n));
  }

  lemma StoringKeyProducer(s: State, s': State, f: Facts, f': Facts)
    requires Good(s, f) && s.producer.StoringKey?
    requires s' == s.(index := StoreKey(s.index, s.producer.entry, Next(s)),
      producer := KeyStored(s.producer.items, s.producer.entry))
    requires f' == f.(note := KeyNote(f.note, Next(s))) && Shaped(s', f')
    ensures ProducerOk(s', f')
  {
    var n := Next(s);
    forall c | n + 1 <= c < f'.note.top
      ensures EntryOf(s'.index, f'.note, c) < |s'.index.entries|
      ensures s'.index.entries[EntryOf(s'.index, f'.note, c)] == Entry(Some(c), None)
    {
      RemnantsNear(s.index, f.note, n, c);
      EntriesApart(s.index, f.note, c, n);
      assert EntryOf(s'.index, f'.note, c) == EntryOf(s.index, f.note, c);
    }
    assert EntryOf(s'.index, f'.note, n) == EntryOf(s.index, f.note, n);
  }

  /** No number in use has the entry that takes the new key. */
  lemma StoringKeyKeeps(s: State, f: Facts)
    requires Sound(s, f) && s.producer.StoringKey?
    ensures forall b :: 0 <= b < |f.infos| && f.infos[b].phase != Gone ==> f.infos[b].entry != s.producer.entry
  {
    forall b | 0 <= b < |f.infos| && f.infos[b].phase != Gone ensures f.infos[b].entry != s.producer.entry {
      assert InfoOk(s, f, b);
      NoneDropped(s, f, b);
    }
  }

  lemma StoringKeyStep(s: State, f: Facts, choice: Choice)
    requires Good(s, f) && CanProduce(s, choice) && s.producer.StoringKey?
    ensures Good(ApplyProduce(s, choice), f.(note := KeyNote(f.note, Next(s))))
  {
    var s', f' := ApplyProduce(s, choice), f.(note := KeyNote(f.note, Next(s)));
    assert RingOk(s.index, f.note, Newest(s.index));
    StoreKeyOk(s.index, f.note, Next(s));
    StoringKeyProducer(s, s', f, f');
    StoringKeyKeeps(s, f);
    FloorsBelow(s, f);
    StoringKeyHeaders(s, s', f, f');
    IndexStep(s, s', f, f');
  }

  lemma StoringKeyHeaders(s: State, s': State, f: Facts, f': Facts)
    requires Shaped(s, f) && Fitting(s'.index, f'.note) && s.producer.StoringKey?
    requires s.producer.entry < |s.index.entries|
    requires s'.index == StoreKey(s.index, s.producer.entry, Next(s)) && f'.note == KeyNote(f.note, Next(s))
    ensures HeadersKept(s.index, f.note, s'.index, f'.note, Committed(s))
    ensures forall e :: 0 <= e < |s.index.entries| && e != s.producer.entry ==>
      s'.index.entries[e] == s.index.entries[e]
    ensures f'.note.floor == f.note.floor && Newest(s'.index) == Newest(s.index)
  {}

  /** When the next number's entry is in use, no number was taken back and the ring is full. */
  lemma InsertingStep(s: State, f: Facts, choice: Choice)
    requires Good(s, f) && CanProduce(s, choice) && s.producer.Inserting?
    ensures Good(ApplyProduce(s, choice), f)
  {
    InsertionSlot(s, f);
    assert EntryOk(s.index, f.note, EntryOf(s.index, f.note, Next(s)));
    ControlStep(s, ApplyProduce(s, choice), f);
  }

  /* ---------- Growing the index ---------- */

  lemma FullRing(s: State, f: Facts)
    requires Good(s, f) && s.producer.Growing? && 2 * Capacity(Current(s.index)) <= BLOCK_WORDS
    ensures CanGrow(s.index, f.note)
  {
    RoomToGrow(s.index, f.note);
    assert RingOk(s.index, f.note, Newest(s.index));
  }

  /** The numbers in use are among those the full ring stands for. */
  lemma InUseAreRecent(s: State, f: Facts, b: nat)
    requires Good(s, f) && b < |f.infos| && (f.infos[b].phase == Live || f.infos[b].phase.Dying?)
    ensures Oldest(s.index, f.note) <= b && f.note.floor[Newest(s.index)] <= b && f.infos[b].entry < |s.index.entries|
  {
    assert InfoOk(s, f, b);
    assert EntryOk(s.index, f.note, f.infos[b].entry);
  }

  lemma AllInUseAreRecent(s: State, f: Facts)
    requires Good(s, f)
    ensures forall b :: 0 <= b < |f.infos| && (f.infos[b].phase == Live || f.infos[b].phase.Dying?) ==>
      Oldest(s.index, f.note) <= b && f.note.floor[Newest(s.index)] <= b
  {
    forall b | 0 <= b < |f.infos| && (f.infos[b].phase == Live || f.infos[b].phase.Dying?)
      ensures Oldest(s.index, f.note) <= b && f.note.floor[Newest(s.index)] <= b
    {
      InUseAreRecent(s, f, b);
    }
  }

  lemma GrowFloor(s: State, f: Facts)
    requires Good(s, f) && s.producer.Growing?
    ensures Oldest(s.index, f.note) <= Committed(s)
  {
    if |s.chain| > 0 {
      assert ReservedAt(s.chain, Committed(s), f.infos, 0, 0);
      InUseAreRecent(s, f, Committed(s));
    }
  }

  /** After growing, the next slot holds a fresh entry. */
  lemma GrownProducer(s: State, s': State, f: Facts, f': Facts)
    requires Good(s, f) && s.producer.Growing? && CanGrow(s.index, f.note) && Fitting(s'.index, f'.note)
    requires s' == s.(index := s'.index, producer := StoringKey(s.producer.items, EntryOf(s'.index, f'.note, Next(s))))
    requires f' == f.(note := GrowNote(s.index, f.note)) && Shaped(s', f')
    requires |s'.index.entries| == 2 * |s.index.entries|
    requires EntryOf(s'.index, f'.note, f.note.top) == |s.index.entries|
    requires s'.index.entries[|s.index.entries|].key == None
    ensures ProducerOk(s', f')
  {}

  lemma GrowStep(s: State, f: Facts, choice: Choice)
    requires Good(s, f) && CanProduce(s, choice) && s.producer.Growing?
    requires choice.granted && 2 * Capacity(Current(s.index)) <= BLOCK_WORDS
    ensures Good(ApplyProduce(s, choice), f.(note := GrowNote(s.index, f.note)))
  {
    var s', f' := ApplyProduce(s, choice), f.(note := GrowNote(s.index, f.note));
    GrownShape(s, f, choice);
    AllInUseAreRecent(s, f);
    GrownHeaders(s, s', f, f', choice.garbage);
    IndexStep(s, s', f, f');
  }

  /** The index after growing, and what the producer knows of it. */
  lemma GrownShape(s: State, f: Facts, choice: Choice)
    requires Good(s, f) && CanProduce(s, choice) && s.producer.Growing?
    requires choice.granted && 2 * Capacity(Current(s.index)) <= BLOCK_WORDS
    ensures |f.note.home| == |s.index.entries|
    ensures var s', f' := ApplyProduce(s, choice), f.(note := GrowNote(s.index, f.note));
      Shaped(s', f') && IndexOk(s'.index, f'.note) && ProducerOk(s', f') && Oldest(s.index, f.note) <= Committed(s)
  {
    var s', f' := ApplyProduce(s, choice), f.(note := GrowNote(s.index, f.note));
    FullRing(s, f);
    GrowOk(s.index, f.note, choice.garbage);
    GrowSized(s.index, f.note, choice.garbage);
    GrowFloor(s, f);
    NextSlotIsNext(s'.index, f'.note);
    GrownProducer(s, s', f, f');
  }

  /** Growing supersedes the newest header, marked at the last number before the next one. */
  lemma GrownHeaders(s: State, s': State, f: Facts, f': Facts, garbage: nat -> Option<nat>)
    requires Shaped(s, f) && Shaped(s', f') && ProducerOk(s, f) && s.producer.Growing?
    requires Capacity(Current(s.index)) > 0 && |f.note.home| == |s.index.entries|
    requires s'.index == Grow(s.index, garbage) && f'.note == GrowNote(s.index, f.note)
    ensures HeadersKept(s.index, f.note, s'.index, f'.note, Committed(s))
    ensures forall e :: 0 <= e < |s.index.entries| ==> s'.index.entries[e] == s.index.entries[e]
    ensures var floor := f.note.floor[Newest(s.index)];
      f'.note.floor[Newest(s'.index)] == if floor > Oldest(s.index, f.note) then floor else Oldest(s.index, f.note)
  {}

  lemma GrowingStep(s: State, f: Facts, choice: Choice)
    requires Good(s, f) && CanProduce(s, choice) && s.producer.Growing?
    ensures exists f' :: Good(ApplyProduce(s, choice), f')
  {
    if choice.granted && 2 * Capacity(Current(s.index)) <= BLOCK_WORDS {
      GrowStep(s, f, choice);
    } else {
      ControlStep(s, ApplyProduce(s, choice), f);
      assert Good(ApplyProduce(s, choice), f);
    }
  }

  /* ---------- Moving the tail ---------- */

  /** A step that moves the newest header's tail to the slot of number `mark`. */
  lemma TailStep(s: State, s': State, f: Facts, mark: int)
    requires Good(s, f) && EmptyHanded(s) && -1 <= mark < f.note.top
    requires forall b :: Owed(s.producer, s.chain, b) ==> Owed(s'.producer, s.chain, b)
    requires s' == s.(index := StoreTail(s.index, SlotOf(s.index, f.note, Newest(s.index), mark)),
      producer := s'.producer)
    requires ProducerOk(s', f.(note := f.note.(mark := f.note.mark[Newest(s.index) := mark])))
    ensures Good(s', f.(note := f.note.(mark := f.note.mark[Newest(s.index) := mark])))
  {
    StoreTailOk(s.index, f.note, mark);
    FloorsBelow(s, f);
    IndexStep(s, s', f, f.(note := f.note.(mark := f.note.mark[Newest(s.index) := mark])));
  }

  lemma TailShaped(s: State, s': State, f: Facts, mark: int)
    requires Shaped(s, f)
    requires s' == s.(index := StoreTail(s.index, SlotOf(s.index, f.note, Newest(s.index), mark)),
      producer := s'.producer)
    ensures var f' := f.(note := f.note.(mark := f.note.mark[Newest(s.index) := mark]));
      && Shaped(s', f')
      && (forall low :: Remnants(s.index, f.note, low) ==> Remnants(s'.index, f'.note, low))
      && (forall b :: EntryOf(s'.index, f'.note, b) == EntryOf(s.index, f.note, b))
  {
    var f' := f.(note := f.note.(mark := f.note.mark[Newest(s.index) := mark]));
    assert Current(s'.index).index == Current(s.index).index;
    assert forall b :: EntryOf(s'.index, f'.note, b) == EntryOf(s.index, f.note, b);
  }

  lemma KeyStoredStep(s: State, f: Facts, choice: Choice)
    requires Good(s, f) && CanProduce(s, choice) && s.producer.KeyStored?
    ensures exists f' :: Good(ApplyProduce(s, choice), f')
  {
    NextSlotIsNext(s.index, f.note);
    TailShaped(s, ApplyProduce(s, choice), f, Next(s));
    TailStep(s, ApplyProduce(s, choice), f, Next(s));
  }

  lemma RewindingStep(s: State, f: Facts, choice: Choice)
    requires Good(s, f) && CanProduce(s, choice) && s.producer.Rewinding?
    ensures exists f' :: Good(ApplyProduce(s, choice), f')
  {
    PreviousSlotIsPrevious(s.index, f.note);
    TailShaped(s, ApplyProduce(s, choice), f, Next(s) - 1);
    TailStep(s, ApplyProduce(s, choice), f, Next(s) - 1);
  }

  lemma SteppingStep(s: State, f: Facts, choice: Choice)
    requires Good(s, f) && CanProduce(s, choice) && s.producer.Stepping?
    ensures exists f' :: Good(ApplyProduce(s, choice), f')
  {
    var mark := Next(s) - 2 - s.producer.i;
    SteppingMark(s, f);
    TailShaped(s, ApplyProduce(s, choice), f, mark);
    assert ProducerOk(ApplyProduce(s, choice), f.(note := f.note.(mark := f.note.mark[Newest(s.index) := mark])));
    TailStep(s, ApplyProduce(s, choice), f, mark);
  }

  /** The slot before the tail is the one of the number before. */
  lemma SteppingMark(s: State, f: Facts)
    requires Good(s, f) && s.producer.Stepping?
    ensures var mark, x := Next(s) - 2 - s.producer.i, s.index;
      && -1 <= mark < f.note.top && Capacity(Current(x)) > 0
      && (Current(x).tail - 1) % Capacity(Current(x)) == SlotOf(x, f.note, Newest(x), mark)
  {
    PreviousSlotIsPrevious(s.index, f.note);
    assert RingOk(s.index, f.note, Newest(s.index));
  }

  /* ---------- Taking back an insertion ---------- */

  /** An entry holding the key of a number being inserted is no other number's. */
  lemma ClearingStep(s: State, f: Facts, choice: Choice)
    requires Good(s, f) && CanProduce(s, choice) && s.producer.Clearing?
    ensures Good(ApplyProduce(s, choice), f)
  {
    var s' := ApplyProduce(s, choice);
    StoreValueOk(s.index, f.note, s.producer.entry, None);
    ClearingKeeps(s, f);
    FloorsBelow(s, f);
    ClearedProducer(s, s', f);
    IndexStep(s, s', f, f);
  }

  lemma ClearedProducer(s: State, s': State, f: Facts)
    requires Shaped(s, f) && Shaped(s', f) && ProducerOk(s, f) && s.producer.Clearing?
    requires s.producer.entry < |s.index.entries|
    requires s' == s.(index := StoreValue(s.index, s.producer.entry, None), producer := Undoing(0))
    ensures ProducerOk(s', f)
  {
    assert forall b :: EntryOf(s'.index, f.note, b) == EntryOf(s.index, f.note, b);
    assert Settled(s'.index, f.note, Next(s), Next(s) - 1);
  }

  lemma ClearingKeeps(s: State, f: Facts)
    requires Sound(s, f) && s.producer.Clearing?
    ensures forall b :: 0 <= b < |f.infos| && f.infos[b].phase != Gone ==> f.infos[b].entry != s.producer.entry
  {
    forall b | 0 <= b < |f.infos| && f.infos[b].phase != Gone ensures f.infos[b].entry != s.producer.entry {
      assert InfoOk(s, f, b);
    }
  }

  /** The producer is at one of its steps on the index alone. */
  predicate OnIndex(p: Producer) {
    p.Inserting? || p.StoringKey? || p.Growing? || p.KeyStored? || p.Rewinding? || p.Clearing? || p.Stepping?
  }

  lemma OnIndexStep(s: State, f: Facts, choice: Choice)
    requires Good(s, f) && CanProduce(s, choice) && OnIndex(s.producer)
    ensures exists f' :: Good(ApplyProduce(s, choice), f')
  {
    match s.producer
    case Inserting(_) => InsertingStep(s, f, choice);
    case StoringKey(_, _) => StoringKeyStep(s, f, choice);
    case Growing(_) => GrowingStep(s, f, choice);
    case KeyStored(_, _) => KeyStoredStep(s, f, choice);
    case Rewinding(_) => RewindingStep(s, f, choice);
    case Clearing(_) => ClearingStep(s, f, choice);
    case Stepping(_) => SteppingStep(s, f, choice);
  }
}
