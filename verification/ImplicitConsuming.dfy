/** The consumers' steps keep the implicit queue's invariant. */
module ImplicitConsuming {
  import opened Basics
  import opened Words
  import opened BlockIndex
  import opened BlockLookups
  import opened ImplicitQueue
  import opened ImplicitFrames

  predicate LeavingStage(c: Consumer) {
    c.Busy? && (c.stage.Unlisting? || c.stage.Releasing?)
  }

  /** A step of consumer `t`, not at its leaving stages, that changes neither blocks nor the facts
      about them, and keeps every block's count of uncounted indices. */
  lemma ConsumerStep(s: State, s': State, f: Facts, t: nat)
    requires Sound(s, f) && t < |s.consumers| == |s'.consumers| && s.head <= s'.head <= |s.log|
    requires s' == s.(consumers := s.consumers[t := s'.consumers[t]], head := s'.head)
    requires !LeavingStage(s.consumers[t])
    requires ThreadOk(s', f, t)
    requires forall b :: 0 <= b < |f.infos| ==>
      Unclaimed(b, s'.head) + Load(s'.consumers, b) == Unclaimed(b, s.head) + Load(s.consumers, b)
    ensures Sound(s', f)
  {
    forall b | 0 <= b < |f.infos| ensures InfoOk(s', f, b) {
      assert InfoOk(s, f, b);
      KeepNumber(s.index, f.note, f.infos[b], b, f.owners, s.blocks, s.log, s.head, s.consumers,
                 s.index, f.note, f.owners, s.blocks, s'.head, s'.consumers);
    }
    forall u | 0 <= u < |s'.consumers| ensures ThreadOk(s', f, u) {
      if u != t {
        KeepThread(s, f, u, s.index, f.note, f.infos, f.owners, s.log, s'.head);
      }
    }
    forall b | 0 <= b < |s'.blocks| ensures BlockOk(s', f, b) {
      assert BlockOk(s, f, b);
    }
    KeepProducer(s, s', f, f);
  }

  /** A consumer's step that changes nothing shared and keeps its uncounted claims. */
  lemma QuietConsume(s: State, s': State, f: Facts, t: nat)
    requires Sound(s, f) && t < |s.consumers| == |s'.consumers|
    requires s' == s.(consumers := s.consumers[t := s'.consumers[t]])
    requires Low(s'.consumers[t]) == Low(s.consumers[t]) && High(s'.consumers[t]) == High(s.consumers[t])
    requires !LeavingStage(s.consumers[t]) && ThreadOk(s', f, t)
    ensures Sound(s', f)
  {
    forall b | 0 <= b < |f.infos| ensures Load(s'.consumers, b) == Load(s.consumers, b) {
      LoadUpdate(s.consumers, t, s'.consumers[t], b);
    }
    ConsumerStep(s, s', f, t);
  }

  /** A claim moves its indices from the unclaimed ones to the consumer's. */
  lemma ClaimCounts(b: nat, head: nat, count: nat)
    ensures Unclaimed(b, head) == Unclaimed(b, head + count) + Overlap(b, head, head + count)
  {}

  lemma ClaimStep(s: State, f: Facts, t: nat, count: nat)
    requires Sound(s, f) && Enabled(s, Claim(t, count))
    ensures Sound(Apply(s, Claim(t, count)), f)
  {
    var s' := Apply(s, Claim(t, count));
    forall b | 0 <= b < |f.infos|
      ensures Unclaimed(b, s'.head) + Load(s'.consumers, b) == Unclaimed(b, s.head) + Load(s.consumers, b)
    {
      ClaimAdds(s, t, count, b);
    }
    assert ThreadOk(s', f, t);
    ConsumerStep(s, s', f, t);
  }

  lemma ClaimAdds(s: State, t: nat, count: nat, b: nat)
    requires Enabled(s, Claim(t, count))
    ensures var s' := Apply(s, Claim(t, count));
      Unclaimed(b, s'.head) + Load(s'.consumers, b) == Unclaimed(b, s.head) + Load(s.consumers, b)
  {
    LoadUpdate(s.consumers, t, Apply(s, Claim(t, count)).consumers[t], b);
    EmptyOverlap(b, 0);
    ClaimCounts(b, s.head, count);
  }

  /** Loading the newest header: it has the entries of all blocks claimed. */
  lemma LoadHeaderStep(s: State, f: Facts, t: nat)
    requires Good(s, f) && Enabled(s, Consume(t)) && s.consumers[t].Busy? && s.consumers[t].stage.Claimed?
    ensures Sound(Apply(s, Consume(t)), f)
  {
    LoadHeaderThread(s, f, t);
    QuietConsume(s, Apply(s, Consume(t)), f, t);
  }

  lemma LoadHeaderThread(s: State, f: Facts, t: nat)
    requires Good(s, f) && Enabled(s, Consume(t)) && s.consumers[t].Busy? && s.consumers[t].stage.Claimed?
    ensures ThreadOk(Apply(s, Consume(t)), f, t)
  {
    assert ThreadOk(s, f, t);
    NewestReaches(s, f, t);
  }

  lemma NewestReaches(s: State, f: Facts, t: nat)
    requires Good(s, f) && t < |s.consumers| && s.consumers[t].Busy? && s.consumers[t].i < High(s.consumers[t])
    ensures var c := s.consumers[t];
      Reaches(s.index, f.infos, Newest(s.index), c.i, High(c)) && f.note.floor[Newest(s.index)] <= c.i / BLOCK_SIZE
  {
    var c := s.consumers[t];
    forall b | 0 <= b < |f.infos| && Within(b, c.i, High(c)) ensures f.infos[b].entry < Capacity(Current(s.index)) {
      ClaimedIsLive(s, f, t, b);
    }
    ClaimedIsLive(s, f, t, c.i / BLOCK_SIZE);
  }

  /** The newest header's tail never goes below the last published block. */
  lemma MarkReached(s: State, f: Facts)
    requires Sound(s, f)
    ensures f.note.mark[Newest(s.index)] >= Committed(s) - 1
  {}

  lemma LoadTailStep(s: State, f: Facts, t: nat)
    requires Good(s, f) && Enabled(s, Consume(t)) && s.consumers[t].Busy? && s.consumers[t].stage.HeaderLoaded?
    ensures Sound(Apply(s, Consume(t)), f)
  {
    LoadTailThread(s, f, t);
    QuietConsume(s, Apply(s, Consume(t)), f, t);
  }

  lemma LoadTailThread(s: State, f: Facts, t: nat)
    requires Good(s, f) && Enabled(s, Consume(t)) && s.consumers[t].Busy? && s.consumers[t].stage.HeaderLoaded?
    ensures ThreadOk(Apply(s, Consume(t)), f, t)
  {
    var c := s.consumers[t];
    assert ThreadOk(s, f, t);
    MarkReached(s, f);
    assert RingOk(s.index, f.note, c.stage.h);
    assert c.i / BLOCK_SIZE <= Committed(s) - 1;
  }

  /** Computing the slot, from a header and a tail that may both be stale by now. */
  lemma LookupStep(s: State, f: Facts, t: nat)
    requires Good(s, f) && Enabled(s, Consume(t)) && s.consumers[t].Busy? && s.consumers[t].stage.TailLoaded?
    ensures Sound(Apply(s, Consume(t)), f)
  {
    LookupThread(s, f, t);
    QuietConsume(s, Apply(s, Consume(t)), f, t);
  }

  lemma LookupThread(s: State, f: Facts, t: nat)
    requires Good(s, f) && Enabled(s, Consume(t)) && s.consumers[t].Busy? && s.consumers[t].stage.TailLoaded?
    ensures ThreadOk(Apply(s, Consume(t)), f, t)
  {
    var c := s.consumers[t];
    var h, tail, b := c.stage.h, c.stage.tail, c.i / BLOCK_SIZE;
    assert ThreadOk(s, f, t);
    ClaimedIsLive(s, f, t, b);
    KeyedSlot(s.index, f.note, h, tail);
    assert RingOk(s.index, f.note, h);
    LookupFinds(s.index, f.note, h, tail, EntryAt(s.index, h, tail).key.value, c.i, f.infos[b].entry);
  }

  lemma SegmentBounds(start: nat, limit: nat)
    requires start < limit
    ensures start < SegmentEnd(start, limit) <= limit
    ensures SegmentEnd(start, limit) <= (start / BLOCK_SIZE + 1) * BLOCK_SIZE
    ensures SegmentEnd(start, limit) == limit || SegmentEnd(start, limit) == (start / BLOCK_SIZE + 1) * BLOCK_SIZE
  {}

  /** The consumer at a slot finds its block there. */
  lemma FindsBlock(s: State, f: Facts, t: nat)
    requires Good(s, f) && t < |s.consumers| && s.consumers[t].Busy? && s.consumers[t].stage.AtSlot?
    ensures var c := s.consumers[t];
      && c.i / BLOCK_SIZE < |f.infos| && f.infos[c.i / BLOCK_SIZE].block < |s.blocks|
      && SlotInRange(s.index, c.stage.h, c.stage.slot)
      && EntryAt(s.index, c.stage.h, c.stage.slot).value == Some(f.infos[c.i / BLOCK_SIZE].block)
  {
    var c := s.consumers[t];
    assert ThreadOk(s, f, t);
    ClaimedIsLive(s, f, t, c.i / BLOCK_SIZE);
    PinnedSlot(s.index, f.note, f.infos[c.i / BLOCK_SIZE], c.stage.h, c.i / BLOCK_SIZE);
  }

  lemma LoadBlockStep(s: State, f: Facts, t: nat)
    requires Good(s, f) && Enabled(s, Consume(t)) && s.consumers[t].Busy? && s.consumers[t].stage.AtSlot?
    ensures Sound(Apply(s, Consume(t)), f)
  {
    LoadBlockThread(s, f, t);
    QuietConsume(s, Apply(s, Consume(t)), f, t);
  }

  lemma LoadBlockThread(s: State, f: Facts, t: nat)
    requires Good(s, f) && Enabled(s, Consume(t)) && s.consumers[t].Busy? && s.consumers[t].stage.AtSlot?
    ensures ThreadOk(Apply(s, Consume(t)), f, t)
  {
    var c := s.consumers[t];
    FindsBlock(s, f, t);
    assert ThreadOk(s, f, t);
    SegmentBounds(c.i, High(c));
  }

  /** A moving consumer still short of the end of its run. */
  predicate MidRun(c: Consumer) {
    c.Busy? && c.stage.Moving? && c.i + c.stage.moved < SegmentEnd(c.i, c.first + c.count)
  }

  /** What a moving consumer reads is the element published at that index. */
  lemma ReadsElement(s: State, f: Facts, t: nat)
    requires Sound(s, f) && t < |s.consumers| && MidRun(s.consumers[t])
    ensures var c := s.consumers[t];
      var i := c.i + c.stage.moved;
      c.stage.block < |s.blocks| && |s.blocks[c.stage.block].cells| == BLOCK_SIZE && i < |s.log|
      && s.blocks[c.stage.block].cells[i % BLOCK_SIZE] == s.log[i]
  {
    var c := s.consumers[t];
    var i := c.i + c.stage.moved;
    assert ThreadOk(s, f, t);
    InSegment(c.i, i, High(c));
    ClaimedIsLive(s, f, t, c.i / BLOCK_SIZE);
    CellHolds(s.blocks[f.infos[c.i / BLOCK_SIZE].block].cells, s.log, c.i / BLOCK_SIZE, i);
  }

  lemma InSegment(start: nat, i: nat, limit: nat)
    requires start <= i < SegmentEnd(start, limit)
    ensures i / BLOCK_SIZE == start / BLOCK_SIZE && i < limit
  {}

  lemma CellHolds(cells: seq<int>, log: seq<int>, b: nat, i: nat)
    requires CellsOk(cells, log, b) && i / BLOCK_SIZE == b && i < |log|
    ensures cells[i % BLOCK_SIZE] == log[i]
  {
    assert i == b * BLOCK_SIZE + i % BLOCK_SIZE;
  }

  lemma MoveThread(s: State, f: Facts, t: nat)
    requires Fitting(s.index, f.note) && CanConsume(s, t) && ThreadOk(s, f, t) && MidRun(s.consumers[t])
    requires var c := s.consumers[t];
      c.i + c.stage.moved < |s.log|
        && s.blocks[c.stage.block].cells[(c.i + c.stage.moved) % BLOCK_SIZE] == s.log[c.i + c.stage.moved]
    ensures ThreadOk(ApplyConsume(s, t), f, t)
  {
    var c := s.consumers[t];
    var i := c.i + c.stage.moved;
    assert s.log[c.first..i + 1] == s.log[c.first..i] + [s.log[i]];
  }

  lemma MoveStep(s: State, f: Facts, t: nat)
    requires Sound(s, f) && Enabled(s, Consume(t)) && MidRun(s.consumers[t])
    ensures Sound(Apply(s, Consume(t)), f)
  {
    ReadsElement(s, f, t);
    assert ThreadOk(s, f, t);
    MoveThread(s, f, t);
    QuietConsume(s, Apply(s, Consume(t)), f, t);
  }

  lemma ReturnStep(s: State, f: Facts, t: nat)
    requires Sound(s, f) && Enabled(s, Consume(t)) && s.consumers[t].Done?
    ensures Sound(Apply(s, Consume(t)), f)
  {
    QuietConsume(s, Apply(s, Consume(t)), f, t);
  }

  /* ---------- The end of a run within a block ---------- */

  /** A moving consumer at the end of its run. */
  predicate EndOfRun(c: Consumer) {
    c.Busy? && c.stage.Moving? && c.i + c.stage.moved == SegmentEnd(c.i, c.first + c.count)
  }

  /** Counting a finished run moves it from the claims to the block's counter; no other block's
      count changes. */
  lemma RunCounts(b: nat, start: nat, limit: nat)
    requires start < limit
    ensures Overlap(b, SegmentEnd(start, limit), limit)
         == Overlap(b, start, limit) - (if b == start / BLOCK_SIZE then SegmentEnd(start, limit) - start else 0)
  {}

  /** The consumer's own facts after counting, when elements of the block remain with others. */
  lemma AdvanceOk(
      x: Index, n: Note, infos: seq<Info>, owners: seq<Owner>, log: seq<int>, head: nat, c: Consumer, h: nat,
      slot: nat, t: nat)
    requires Fitting(x, n) && c.Busy? && HeaderInRange(x, h) && c.first <= c.i <= High(c) <= head && 0 < c.count
    requires Reaches(x, infos, h, c.i, High(c)) && slot == SlotOf(x, n, h, (c.i - 1) / BLOCK_SIZE)
    requires c.i == High(c) || c.i % BLOCK_SIZE == 0
    requires GotOk(log, c.first, c.i, c.got)
    ensures ConsumerOk(x, n, infos, owners, log, head, Advance(x, c, h, slot), t)
  {
    if c.i < High(c) {
      assert c.i / BLOCK_SIZE == (c.i - 1) / BLOCK_SIZE + 1;
      ModAdd((c.i - 1) / BLOCK_SIZE + n.offset[h], 1, Capacity(x.headers[h]));
    }
  }

  lemma ReachesFewer(x: Index, infos: seq<Info>, infos': seq<Info>, h: nat, low: nat, low': nat, high: nat)
    requires Reaches(x, infos, h, low, high) && low <= low' && |infos'| == |infos|
    requires forall b :: 0 <= b < |infos| ==> infos'[b].entry == infos[b].entry
    ensures Reaches(x, infos', h, low', high)
  {}

  /** The stage of a consumer that just counted a run: it advances, or takes the block off the index. */
  lemma CountedThread(s: State, f: Facts, f': Facts, t: nat)
    requires Fitting(s.index, f.note) && CanConsume(s, t) && ThreadOk(s, f, t) && EndOfRun(s.consumers[t])
    requires var c := s.consumers[t];
      var full := s.blocks[c.stage.block].counter + c.stage.moved == BLOCK_SIZE;
      && c.i / BLOCK_SIZE < |f.infos| && f'.note == f.note
      && f'.infos ==
           if full then f.infos[c.i / BLOCK_SIZE := f.infos[c.i / BLOCK_SIZE].(phase := Dying(t))] else f.infos
    ensures ConsumerOk(s.index, f'.note, f'.infos, f'.owners, s.log, s.head, ApplyConsume(s, t).consumers[t], t)
  {
    var c := s.consumers[t];
    var end := c.i + c.stage.moved;
    SegmentBounds(c.i, High(c));
    LastOfRun(c.i, end, High(c));
    ReachesFewer(s.index, f.infos, f'.infos, c.stage.h, c.i, end, High(c));
    AdvanceOk(s.index, f.note, f'.infos, f'.owners, s.log, s.head, c.(i := end), c.stage.h, c.stage.slot, t);
  }

  lemma LastOfRun(start: nat, end: nat, limit: nat)
    requires start < limit && end == SegmentEnd(start, limit)
    ensures start < end && (end - 1) / BLOCK_SIZE == start / BLOCK_SIZE && Within(start / BLOCK_SIZE, start, limit)
    ensures end == limit || end % BLOCK_SIZE == 0
  {}

  /** The facts after consumer `t` counts its run. */
  function CountFacts(s: State, f: Facts, t: nat): Facts
    requires CanConsume(s, t) && EndOfRun(s.consumers[t])
    requires s.consumers[t].i / BLOCK_SIZE < |f.infos| && |f.owners| == |s.blocks|
  {
    var c := s.consumers[t];
    var b := c.i / BLOCK_SIZE;
    if s.blocks[c.stage.block].counter + c.stage.moved == BLOCK_SIZE then
      f.(infos := f.infos[b := f.infos[b].(phase := Dying(t))], owners := f.owners[c.stage.block := Leaving(t)])
    else f
  }

  /** What the consumer counting its run knows of the block. */
  lemma CountedBlock(s: State, f: Facts, t: nat)
    requires Sound(s, f) && CanConsume(s, t) && EndOfRun(s.consumers[t])
    ensures var c := s.consumers[t];
      var b := c.i / BLOCK_SIZE;
      && b < Committed(s) && b < |f.infos| && f.infos[b].phase == Live && f.infos[b].block == c.stage.block < |s.blocks|
      && f.owners[c.stage.block] == InUse(b) && c.i < High(c) && c.i + c.stage.moved <= High(c)
      && s.blocks[c.stage.block].counter + Unclaimed(b, s.head) + Load(s.consumers, b) == BLOCK_SIZE
  {
    var c := s.consumers[t];
    assert ThreadOk(s, f, t);
    ClaimedIsLive(s, f, t, c.i / BLOCK_SIZE);
    SegmentBounds(c.i, High(c));
  }

  lemma EmptyOverlap(b: nat, i: nat)
    ensures Overlap(b, i, i) == 0
  {}

  /** What the consumer has left to count after its run. */
  lemma CountedConsumer(s: State, t: nat, b: nat)
    requires CanConsume(s, t) && EndOfRun(s.consumers[t])
    ensures var c, c' := s.consumers[t], ApplyConsume(s, t).consumers[t];
      ApplyConsume(s, t).consumers == s.consumers[t := c']
        && Overlap(b, Low(c'), High(c')) == Overlap(b, c.i + c.stage.moved, High(c))
  {
    EmptyOverlap(b, 0);
    EmptyOverlap(b, s.consumers[t].i + s.consumers[t].stage.moved);
  }

  lemma CountLoad(s: State, t: nat, b: nat)
    requires CanConsume(s, t) && EndOfRun(s.consumers[t]) && s.consumers[t].i < High(s.consumers[t])
    ensures var c := s.consumers[t];
      Load(ApplyConsume(s, t).consumers, b)
        == Load(s.consumers, b) - (if b == c.i / BLOCK_SIZE then c.stage.moved else 0)
  {
    var c, c' := s.consumers[t], ApplyConsume(s, t).consumers[t];
    CountedConsumer(s, t, b);
    LoadUpdate(s.consumers, t, c', b);
    RunCounts(b, c.i, High(c));
  }

  lemma CountShaped(s: State, f: Facts, t: nat)
    requires Sound(s, f) && CanConsume(s, t) && EndOfRun(s.consumers[t])
    requires s.consumers[t].i / BLOCK_SIZE < |f.infos|
    ensures Shaped(ApplyConsume(s, t), CountFacts(s, f, t))
  {}

  lemma CountOtherNumber(s: State, f: Facts, t: nat, b: nat)
    requires Sound(s, f) && CanConsume(s, t) && EndOfRun(s.consumers[t])
    requires s.consumers[t].i / BLOCK_SIZE < |f.infos| && b < |f.infos| && b != s.consumers[t].i / BLOCK_SIZE
    requires Shaped(ApplyConsume(s, t), CountFacts(s, f, t))
    ensures InfoOk(ApplyConsume(s, t), CountFacts(s, f, t), b)
  {
    var s', f' := ApplyConsume(s, t), CountFacts(s, f, t);
    CountedBlock(s, f, t);
    CountLoad(s, t, b);
    assert InfoOk(s, f, b);
    KeepNumber(s.index, f.note, f.infos[b], b, f.owners, s.blocks, s.log, s.head, s.consumers,
               s'.index, f'.note, f'.owners, s'.blocks, s'.head, s'.consumers);
  }

  lemma CountOwnNumber(s: State, f: Facts, t: nat)
    requires Sound(s, f) && CanConsume(s, t) && EndOfRun(s.consumers[t])
    requires s.consumers[t].i / BLOCK_SIZE < |f.infos|
    requires Shaped(ApplyConsume(s, t), CountFacts(s, f, t))
    ensures InfoOk(ApplyConsume(s, t), CountFacts(s, f, t), s.consumers[t].i / BLOCK_SIZE)
  {
    CountedBlock(s, f, t);
    CountLoad(s, t, s.consumers[t].i / BLOCK_SIZE);
    assert InfoOk(s, f, s.consumers[t].i / BLOCK_SIZE);
  }

  lemma CountOthers(s: State, f: Facts, t: nat)
    requires Sound(s, f) && CanConsume(s, t) && EndOfRun(s.consumers[t])
    requires s.consumers[t].i / BLOCK_SIZE < |f.infos|
    requires Shaped(ApplyConsume(s, t), CountFacts(s, f, t))
    ensures forall b :: 0 <= b < |s.blocks| ==> BlockOk(ApplyConsume(s, t), CountFacts(s, f, t), b)
    ensures forall u :: 0 <= u < |s.consumers| && u != t ==> ThreadOk(ApplyConsume(s, t), CountFacts(s, f, t), u)
  {
    var s', f' := ApplyConsume(s, t), CountFacts(s, f, t);
    CountedBlock(s, f, t);
    forall b | 0 <= b < |s'.blocks| ensures BlockOk(s', f', b) {
      assert BlockOk(s, f, b);
    }
    forall u | 0 <= u < |s'.consumers| && u != t ensures ThreadOk(s', f', u) {
      KeepThread(s, f, u, s'.index, f'.note, f'.infos, f'.owners, s'.log, s'.head);
    }
  }

  lemma CountProducer(s: State, f: Facts, t: nat)
    requires Sound(s, f) && CanConsume(s, t) && EndOfRun(s.consumers[t])
    requires s.consumers[t].i / BLOCK_SIZE < |f.infos|
    requires Shaped(ApplyConsume(s, t), CountFacts(s, f, t))
    ensures ProducerOk(ApplyConsume(s, t), CountFacts(s, f, t))
  {
    CountedBlock(s, f, t);
    KeepProducer(s, ApplyConsume(s, t), f, CountFacts(s, f, t));
  }

  lemma CountNumbers(s: State, f: Facts, t: nat)
    requires Sound(s, f) && CanConsume(s, t) && EndOfRun(s.consumers[t])
    requires s.consumers[t].i / BLOCK_SIZE < |f.infos|
    requires Shaped(ApplyConsume(s, t), CountFacts(s, f, t))
    ensures forall b :: 0 <= b < |f.infos| ==> InfoOk(ApplyConsume(s, t), CountFacts(s, f, t), b)
  {
    forall b | 0 <= b < |f.infos| ensures InfoOk(ApplyConsume(s, t), CountFacts(s, f, t), b) {
      if b == s.consumers[t].i / BLOCK_SIZE {
        CountOwnNumber(s, f, t);
      } else {
        CountOtherNumber(s, f, t, b);
      }
    }
  }

  lemma CountStep(s: State, f: Facts, t: nat)
    requires Sound(s, f) && CanConsume(s, t) && EndOfRun(s.consumers[t])
    ensures s.consumers[t].i / BLOCK_SIZE < |f.infos| && Sound(ApplyConsume(s, t), CountFacts(s, f, t))
  {
    CountedBlock(s, f, t);
    CountShaped(s, f, t);
    CountNumbers(s, f, t);
    CountOthers(s, f, t);
    CountedThread(s, f, CountFacts(s, f, t), t);
    CountProducer(s, f, t);
  }

  /* ---------- Taking a block off the index and releasing it ---------- */

  /** A consumer at one of the two steps that give its last block back. */
  predicate AtUnlisting(c: Consumer) {
    c.Busy? && c.stage.Unlisting?
  }

  predicate AtReleasing(c: Consumer) {
    c.Busy? && c.stage.Releasing?
  }

  function UnlistFacts(s: State, f: Facts, t: nat): Facts
    requires t < |s.consumers| && AtUnlisting(s.consumers[t]) && 0 <= LastNumber(s.consumers[t]) < |f.infos|
  {
    var b := LastNumber(s.consumers[t]);
    f.(infos := f.infos[b := f.infos[b].(phase := Gone)])
  }

  /** The slot the consumer keeps is still the one of its block's entry, which holds the block. */
  lemma UnlistedEntry(s: State, f: Facts, t: nat)
    requires Good(s, f) && t < |s.consumers| && AtUnlisting(s.consumers[t])
    ensures var c := s.consumers[t];
      var b := LastNumber(c);
      && 0 <= b < |f.infos| && f.infos[b].phase == Dying(t) && InfoOk(s, f, b) && b < Committed(s)
      && SlotInRange(s.index, c.stage.h, c.stage.slot)
      && s.index.headers[c.stage.h].index[c.stage.slot] == f.infos[b].entry
      && EntryAt(s.index, c.stage.h, c.stage.slot) == Entry(Some(b), Some(c.stage.block))
  {
    var c := s.consumers[t];
    assert ThreadOk(s, f, t);
    var b := LastNumber(c);
    assert InfoOk(s, f, b);
    PinnedSlot(s.index, f.note, f.infos[b], c.stage.h, b);
  }

  lemma UnlistShaped(s: State, f: Facts, t: nat)
    requires Good(s, f) && t < |s.consumers| && AtUnlisting(s.consumers[t])
    ensures CanConsume(s, t) && 0 <= LastNumber(s.consumers[t]) < |f.infos|
    ensures var s' := ApplyConsume(s, t);
      && IndexOk(s'.index, f.note) && Shaped(s', UnlistFacts(s, f, t))
      && f.infos[LastNumber(s.consumers[t])].entry < |s.index.entries|
      && s'.index == StoreValue(s.index, f.infos[LastNumber(s.consumers[t])].entry, None)
  {
    var c := s.consumers[t];
    UnlistedEntry(s, f, t);
    StoreValueOk(s.index, f.note, f.infos[LastNumber(c)].entry, None);
  }

  lemma UnlistLoad(s: State, t: nat, b: nat)
    requires CanConsume(s, t) && AtUnlisting(s.consumers[t])
    ensures Load(ApplyConsume(s, t).consumers, b) == Load(s.consumers, b)
  {
    LoadUpdate(s.consumers, t, ApplyConsume(s, t).consumers[t], b);
  }

  lemma UnlistOtherNumber(s: State, f: Facts, t: nat, b: nat)
    requires CanConsume(s, t) && AtUnlisting(s.consumers[t])
    requires 0 <= LastNumber(s.consumers[t]) < |f.infos| && b < |f.infos| && b != LastNumber(s.consumers[t])
    requires Shaped(s, f) && Shaped(ApplyConsume(s, t), UnlistFacts(s, f, t)) && InfoOk(s, f, b)
    requires var last := LastNumber(s.consumers[t]);
      var e := f.infos[last].entry;
      && e < |s.index.entries| && s.index.entries[e].key == Some(last) && f.infos[b].phase != Dying(t)
      && ApplyConsume(s, t).index == StoreValue(s.index, e, None)
    ensures InfoOk(ApplyConsume(s, t), UnlistFacts(s, f, t), b)
  {
    var s', f' := ApplyConsume(s, t), UnlistFacts(s, f, t);
    UnlistLoad(s, t, b);
    KeepNumber(s.index, f.note, f.infos[b], b, f.owners, s.blocks, s.log, s.head, s.consumers,
               s'.index, f'.note, f'.owners, s'.blocks, s'.head, s'.consumers);
  }

  lemma UnlistNumbers(s: State, f: Facts, t: nat)
    requires Good(s, f) && CanConsume(s, t) && AtUnlisting(s.consumers[t])
    requires 0 <= LastNumber(s.consumers[t]) < |f.infos|
    requires Shaped(ApplyConsume(s, t), UnlistFacts(s, f, t))
    ensures forall b :: 0 <= b < |f.infos| ==> InfoOk(ApplyConsume(s, t), UnlistFacts(s, f, t), b)
  {
    UnlistedEntry(s, f, t);
    forall b | 0 <= b < |f.infos| ensures InfoOk(ApplyConsume(s, t), UnlistFacts(s, f, t), b) {
      if b == LastNumber(s.consumers[t]) {
        UnlistLoad(s, t, b);
      } else {
        assert InfoOk(s, f, b);
        UnlistOtherNumber(s, f, t, b);
      }
    }
  }

  lemma UnlistBlocks(s: State, f: Facts, t: nat)
    requires Sound(s, f) && CanConsume(s, t) && AtUnlisting(s.consumers[t])
    requires 0 <= LastNumber(s.consumers[t]) < |f.infos| && f.infos[LastNumber(s.consumers[t])].phase == Dying(t)
    requires Shaped(ApplyConsume(s, t), UnlistFacts(s, f, t))
    ensures forall b :: 0 <= b < |s.blocks| ==> BlockOk(ApplyConsume(s, t), UnlistFacts(s, f, t), b)
  {
    forall b | 0 <= b < |s.blocks| ensures BlockOk(ApplyConsume(s, t), UnlistFacts(s, f, t), b) {
      assert BlockOk(s, f, b);
    }
  }

  lemma UnlistThreads(s: State, f: Facts, t: nat)
    requires Good(s, f) && CanConsume(s, t) && AtUnlisting(s.consumers[t])
    requires 0 <= LastNumber(s.consumers[t]) < |f.infos|
    requires Shaped(ApplyConsume(s, t), UnlistFacts(s, f, t))
    ensures forall u :: 0 <= u < |s.consumers| ==> ThreadOk(ApplyConsume(s, t), UnlistFacts(s, f, t), u)
  {
    var s', f' := ApplyConsume(s, t), UnlistFacts(s, f, t);
    UnlistedEntry(s, f, t);
    forall u | 0 <= u < |s'.consumers| ensures ThreadOk(s', f', u) {
      if u == t {
        UnlistOwnThread(s, f, t);
      } else {
        UnlistOtherThread(s, f, t, u);
      }
    }
  }

  lemma UnlistOwnThread(s: State, f: Facts, t: nat)
    requires Shaped(s, f) && CanConsume(s, t) && AtUnlisting(s.consumers[t]) && ThreadOk(s, f, t)
    requires 0 <= LastNumber(s.consumers[t]) < |f.infos| && Shaped(ApplyConsume(s, t), UnlistFacts(s, f, t))
    requires InfoOk(s, f, LastNumber(s.consumers[t]))
    ensures ThreadOk(ApplyConsume(s, t), UnlistFacts(s, f, t), t)
  {
    var c := s.consumers[t];
    var f' := UnlistFacts(s, f, t);
    assert Reaches(ApplyConsume(s, t).index, f'.infos, c.stage.h, c.i, High(c));
  }

  lemma UnlistOtherThread(s: State, f: Facts, t: nat, u: nat)
    requires Sound(s, f) && CanConsume(s, t) && AtUnlisting(s.consumers[t]) && u < |s.consumers| && u != t
    requires 0 <= LastNumber(s.consumers[t]) < |f.infos| && f.infos[LastNumber(s.consumers[t])].phase == Dying(t)
    requires Shaped(ApplyConsume(s, t), UnlistFacts(s, f, t))
    ensures ThreadOk(ApplyConsume(s, t), UnlistFacts(s, f, t), u)
  {
    var s', f' := ApplyConsume(s, t), UnlistFacts(s, f, t);
    assert HeadersKept(s.index, f.note, s'.index, f'.note, Committed(s));
    KeepThread(s, f, u, s'.index, f'.note, f'.infos, f'.owners, s'.log, s'.head);
  }

  lemma UnlistProducer(s: State, f: Facts, t: nat)
    requires Good(s, f) && CanConsume(s, t) && AtUnlisting(s.consumers[t])
    requires 0 <= LastNumber(s.consumers[t]) < |f.infos|
    requires Shaped(ApplyConsume(s, t), UnlistFacts(s, f, t))
    ensures ProducerOk(ApplyConsume(s, t), UnlistFacts(s, f, t))
  {
    UnlistedEntry(s, f, t);
    KeepProducer(s, ApplyConsume(s, t), f, UnlistFacts(s, f, t));
  }

  /** Taking a block off the index clears the entry of exactly that block and its number, and no other. */
  lemma UnlistStep(s: State, f: Facts, t: nat)
    requires Good(s, f) && CanConsume(s, t) && AtUnlisting(s.consumers[t])
    ensures 0 <= LastNumber(s.consumers[t]) < |f.infos| && Good(ApplyConsume(s, t), UnlistFacts(s, f, t))
    ensures var c, x := s.consumers[t], s.index;
      var e := f.infos[LastNumber(c)].entry;
      && e < |x.entries| && x.entries[e] == Entry(Some(LastNumber(c)), Some(c.stage.block))
      && ApplyConsume(s, t).index == StoreValue(x, e, None)
  {
    UnlistShaped(s, f, t);
    UnlistNumbers(s, f, t);
    UnlistedEntry(s, f, t);
    UnlistBlocks(s, f, t);
    UnlistThreads(s, f, t);
    UnlistProducer(s, f, t);
  }

  function ReleaseFacts(s: State, f: Facts, t: nat): Facts
    requires t < |s.consumers| && AtReleasing(s.consumers[t]) && s.consumers[t].stage.block < |f.owners|
  {
    f.(owners := f.owners[s.consumers[t].stage.block := Pooled])
  }

  lemma ReleaseNumber(s: State, f: Facts, t: nat, b: nat)
    requires Sound(s, f) && CanConsume(s, t) && AtReleasing(s.consumers[t]) && b < |f.infos|
    requires s.consumers[t].stage.block < |f.owners| && f.owners[s.consumers[t].stage.block] == Leaving(t)
    ensures InfoOk(ApplyConsume(s, t), ReleaseFacts(s, f, t), b)
  {
    var s', f' := ApplyConsume(s, t), ReleaseFacts(s, f, t);
    assert ThreadOk(s, f, t);
    LoadUpdate(s.consumers, t, s'.consumers[t], b);
    EmptyOverlap(b, 0);
    EmptyOverlap(b, s.consumers[t].i);
    assert InfoOk(s, f, b);
    KeepNumber(s.index, f.note, f.infos[b], b, f.owners, s.blocks, s.log, s.head, s.consumers,
               s'.index, f'.note, f'.owners, s'.blocks, s'.head, s'.consumers);
  }

  lemma ReleaseOthers(s: State, f: Facts, t: nat)
    requires Sound(s, f) && CanConsume(s, t) && AtReleasing(s.consumers[t])
    requires s.consumers[t].stage.block < |f.owners| && f.owners[s.consumers[t].stage.block] == Leaving(t)
    ensures forall b :: 0 <= b < |s.blocks| ==> BlockOk(ApplyConsume(s, t), ReleaseFacts(s, f, t), b)
    ensures forall u :: 0 <= u < |s.consumers| ==> ThreadOk(ApplyConsume(s, t), ReleaseFacts(s, f, t), u)
  {
    var s', f' := ApplyConsume(s, t), ReleaseFacts(s, f, t);
    forall b | 0 <= b < |s'.blocks| ensures BlockOk(s', f', b) {
      assert BlockOk(s, f, b);
    }
    forall u | 0 <= u < |s'.consumers| ensures ThreadOk(s', f', u) {
      if u == t {
        var c := s.consumers[t];
        assert ThreadOk(s, f, t);
        AdvanceOk(s.index, f.note, f.infos, f'.owners, s.log, s.head, c, c.stage.h, c.stage.slot, t);
      } else {
        KeepThread(s, f, u, s'.index, f'.note, f'.infos, f'.owners, s'.log, s'.head);
      }
    }
  }

  lemma ReleaseStep(s: State, f: Facts, t: nat)
    requires Sound(s, f) && CanConsume(s, t) && AtReleasing(s.consumers[t])
    ensures s.consumers[t].stage.block < |f.owners| && Sound(ApplyConsume(s, t), ReleaseFacts(s, f, t))
  {
    assert ThreadOk(s, f, t);
    forall b | 0 <= b < |f.infos| ensures InfoOk(ApplyConsume(s, t), ReleaseFacts(s, f, t), b) {
      ReleaseNumber(s, f, t, b);
    }
    ReleaseOthers(s, f, t);
    KeepProducer(s, ApplyConsume(s, t), f, ReleaseFacts(s, f, t));
  }
}
