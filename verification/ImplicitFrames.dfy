/** What each part of the implicit queue's invariant needs a step to leave alone. */
module ImplicitFrames {
  import opened Basics
  import opened Words
  import opened BlockIndex
  import opened BlockLookups
  import opened ImplicitQueue

  lemma {:induction false} LoadUpdate(consumers: seq<Consumer>, t: nat, c: Consumer, b: nat)
    requires t < |consumers|
    ensures Load(consumers[t := c], b)
         == Load(consumers, b) - Overlap(b, Low(consumers[t]), High(consumers[t])) + Overlap(b, Low(c), High(c))
  {
    var last := |consumers| - 1;
    if t == last {
      assert consumers[t := c][..last] == consumers[..last];
    } else {
      assert consumers[t := c][..last] == consumers[..last][t := c];
      LoadUpdate(consumers[..last], t, c, b);
    }
  }

  lemma {:induction false} LoadCovers(consumers: seq<Consumer>, t: nat, b: nat)
    requires t < |consumers|
    ensures Load(consumers, b) >= Overlap(b, Low(consumers[t]), High(consumers[t]))
  {
    if t < |consumers| - 1 {
      LoadCovers(consumers[..|consumers| - 1], t, b);
    }
  }

  /** A block with a claimed, uncounted index is live. */
  lemma ClaimedIsLive(s: State, f: Facts, t: nat, b: nat)
    requires Sound(s, f) && t < |s.consumers|
    requires Within(b, Low(s.consumers[t]), High(s.consumers[t]))
    ensures b < Committed(s) <= |f.infos| && f.infos[b].phase == Live && InfoOk(s, f, b)
  {
    LoadCovers(s.consumers, t, b);
    assert ThreadOk(s, f, t);
    assert InfoOk(s, f, b);
  }

  /** A pinned block number's entry is found at its slot in every header that has the entry. */
  lemma PinnedSlot(x: Index, n: Note, i: Info, h: nat, b: nat)
    requires IndexOk(x, n) && Pinned(x, n, i, b) && h < |x.headers| && i.entry < Capacity(x.headers[h])
    ensures Fitting(x, n) && SlotInRange(x, h, SlotOf(x, n, h, b)) && x.headers[h].index[SlotOf(x, n, h, b)] == i.entry
  {
    assert RingOk(x, n, h) && EntryOk(x, n, i.entry);
    SameSlot(x, n, h, b, n.home[i.entry]);
  }

  /* ---------- What survives a step ---------- */

  /** Published headers keep their rings, offsets and floors; superseded ones their marks too, and a
      newly superseded one is marked at or after the last committed block; keyed entries stay keyed. */
  ghost predicate HeadersKept(x: Index, n: Note, x': Index, n': Note, committed: nat)
    requires Fitting(x, n) && Fitting(x', n')
  {
    && |x.headers| <= |x'.headers| && |x.entries| <= |x'.entries|
    && (forall h :: 0 <= h < |x.headers| ==>
          && x'.headers[h].index == x.headers[h].index
          && n'.offset[h] == n.offset[h] && n'.floor[h] == n.floor[h])
    && (forall h :: 0 <= h < Newest(x) ==> n'.mark[h] == n.mark[h])
    && (Newest(x) < Newest(x') ==> n'.mark[Newest(x)] >= committed - 1)
    && (forall e :: 0 <= e < |x.entries| && x.entries[e].key.Some? ==> x'.entries[e].key.Some?)
  }

  /** What a step keeps of the blocks that consumer `t` deals with. */
  ghost predicate InfosKept(
      infos: seq<Info>, infos': seq<Info>, owners: seq<Owner>, owners': seq<Owner>, committed: nat, t: nat) {
    && committed <= |infos| && committed <= |infos'|
    && (forall b :: 0 <= b < committed && infos[b].phase == Live ==>
          infos'[b].block == infos[b].block && infos'[b].entry == infos[b].entry)
    && (forall b :: 0 <= b < |infos| && infos[b].phase == Dying(t) ==> b < |infos'| && infos'[b] == infos[b])
    && (forall b :: 0 <= b < |owners| && owners[b] == Leaving(t) ==> b < |owners'| && owners'[b] == Leaving(t))
  }

  /** The block numbers with an index in [low, high) keep their blocks and entries. */
  ghost predicate RangeKept(infos: seq<Info>, infos': seq<Info>, low: nat, high: nat) {
    forall b :: 0 <= b < |infos'| && Within(b, low, high) ==>
      b < |infos| && infos'[b].entry == infos[b].entry && infos'[b].block == infos[b].block
  }

  /** What is kept of header `h` for the indices in [low, high). */
  lemma ReachesKept(
      x: Index, n: Note, infos: seq<Info>, x': Index, n': Note, infos': seq<Info>, committed: nat, h: nat,
        low: nat, high: nat)
    requires Fitting(x, n) && Fitting(x', n') && HeadersKept(x, n, x', n', committed)
    requires RangeKept(infos, infos', low, high) && Reaches(x, infos, h, low, high)
    ensures Reaches(x', infos', h, low, high)
    ensures h < |x'.headers| && x'.headers[h].index == x.headers[h].index
    ensures forall b :: SlotOf(x', n', h, b) == SlotOf(x, n, h, b)
  {}

  /** The stages before a slot is known. */
  lemma EarlyStageKept(
      x: Index, n: Note, infos: seq<Info>, owners: seq<Owner>, log: seq<int>, c: Consumer, t: nat,
      x': Index, n': Note, infos': seq<Info>, owners': seq<Owner>, log': seq<int>)
    requires Fitting(x, n) && Fitting(x', n') && c.Busy? && StageOk(x, n, infos, owners, log, c, t)
    requires HeadersKept(x, n, x', n', BlocksFor(|log|))
    requires RangeKept(infos, infos', c.i, High(c)) && c.i <= High(c) <= |log|
    requires c.stage.Claimed? || c.stage.HeaderLoaded? || c.stage.TailLoaded?
    ensures StageOk(x', n', infos', owners', log', c, t)
  {
    if !c.stage.Claimed? {
      ReachesKept(x, n, infos, x', n', infos', BlocksFor(|log|), c.stage.h, c.i, High(c));
      assert c.i / BLOCK_SIZE <= BlocksFor(|log|) - 1;
    }
  }

  lemma StageKept(
      x: Index, n: Note, infos: seq<Info>, owners: seq<Owner>, log: seq<int>, c: Consumer, t: nat,
      x': Index, n': Note, infos': seq<Info>, owners': seq<Owner>, log': seq<int>)
    requires Fitting(x, n) && Fitting(x', n') && c.Busy? && StageOk(x, n, infos, owners, log, c, t)
    requires HeadersKept(x, n, x', n', BlocksFor(|log|))
    requires InfosKept(infos, infos', owners, owners', BlocksFor(|log|), t)
    requires RangeKept(infos, infos', c.i, High(c)) && log <= log' && c.i <= High(c) <= |log|
    ensures StageOk(x', n', infos', owners', log', c, t)
  {
    if c.stage.Claimed? || c.stage.HeaderLoaded? || c.stage.TailLoaded? {
      EarlyStageKept(x, n, infos, owners, log, c, t, x', n', infos', owners', log');
    } else if c.stage.AtSlot? || c.stage.Moving? {
      ReachesKept(x, n, infos, x', n', infos', BlocksFor(|log|), c.stage.h, c.i, High(c));
      assert c.stage.Moving? ==> Within(c.i / BLOCK_SIZE, c.i, High(c)) && c.i / BLOCK_SIZE < BlocksFor(|log|);
    } else {
      LeavingStageKept(x, n, infos, owners, log, c, t, x', n', infos', owners', log');
    }
  }

  /** The stages in which the consumer gives a block back. */
  lemma LeavingStageKept(
      x: Index, n: Note, infos: seq<Info>, owners: seq<Owner>, log: seq<int>, c: Consumer, t: nat,
      x': Index, n': Note, infos': seq<Info>, owners': seq<Owner>, log': seq<int>)
    requires Fitting(x, n) && Fitting(x', n') && c.Busy? && StageOk(x, n, infos, owners, log, c, t)
    requires HeadersKept(x, n, x', n', BlocksFor(|log|)) && InfosKept(infos, infos', owners, owners', BlocksFor(|log|), t)
    requires RangeKept(infos, infos', c.i, High(c)) && log <= log' && c.i <= High(c) <= |log|
    requires c.stage.Unlisting? || c.stage.Releasing?
    ensures StageOk(x', n', infos', owners', log', c, t)
  {
    ReachesKept(x, n, infos, x', n', infos', BlocksFor(|log|), c.stage.h, c.i, High(c));
  }

  lemma KeepThread(
      s: State, f: Facts, t: nat,
      x': Index, n': Note, infos': seq<Info>, owners': seq<Owner>, log': seq<int>, head': nat)
    requires Sound(s, f) && t < |s.consumers| && s.log <= log' && s.head <= head'
    requires Fitting(x', n') && HeadersKept(s.index, f.note, x', n', Committed(s))
    requires InfosKept(f.infos, infos', f.owners, owners', Committed(s), t)
    ensures ConsumerOk(x', n', infos', owners', log', head', s.consumers[t], t)
  {
    var c := s.consumers[t];
    assert ThreadOk(s, f, t);
    if c.Busy? {
      forall b | 0 <= b < |infos'| && Within(b, c.i, High(c))
        ensures b < |f.infos| && infos'[b].entry == f.infos[b].entry && infos'[b].block == f.infos[b].block
      {
        ClaimedIsLive(s, f, t, b);
      }
      StageKept(s.index, f.note, f.infos, f.owners, s.log, c, t, x', n', infos', owners', log');
    }
  }

  /** A block number's facts survive a step that leaves alone its entry, its block and its count. */
  lemma KeepNumber(
      x: Index, n: Note, i: Info, b: nat, owners: seq<Owner>, blocks: seq<Block>, log: seq<int>, head: nat,
        consumers: seq<Consumer>,
      x': Index, n': Note, owners': seq<Owner>, blocks': seq<Block>, head': nat, consumers': seq<Consumer>)
    requires Fitting(x, n) && Fitting(x', n') && |owners| == |blocks| && |owners'| == |blocks'|
    requires NumberOk(x, n, i, b, owners, blocks, log, head, consumers)
    requires i.phase != Gone && i.entry < |x.entries| ==>
      i.entry < |x'.entries| && x'.entries[i.entry] == x.entries[i.entry]
    requires i.phase != Gone && i.block < |blocks| ==>
      i.block < |blocks'| && owners'[i.block] == owners[i.block] && blocks'[i.block] == blocks[i.block]
    requires i.phase == Live || i.phase.Dying? ==> n'.floor[Newest(x')] <= b
    requires Unclaimed(b, head') + Load(consumers', b) == Unclaimed(b, head) + Load(consumers, b)
    requires |consumers'| == |consumers|
    requires i.phase.Dying? && i.phase.t < |consumers| ==>
      consumers'[i.phase.t] == consumers[i.phase.t]
    ensures NumberOk(x', n', i, b, owners', blocks', log, head', consumers')
  {}

  /** Element `j` of the enqueue being filled in goes to a block in use under its number. */
  lemma WriteBlockInUse(s: State, f: Facts, j: nat)
    requires Sound(s, f) && s.producer.Filling? && j < |s.producer.items|
    ensures (|s.log| + j) / BLOCK_SIZE < Next(s)
    ensures var b := WriteBlock(s, |s.log| + j);
      b < |s.blocks| && f.owners[b] == InUse((|s.log| + j) / BLOCK_SIZE)
  {
    var n := (|s.log| + j) / BLOCK_SIZE;
    assert InfoOk(s, f, n);
    if n >= Committed(s) {
      assert ReservedAt(s.chain, Committed(s), f.infos, 0, n - Committed(s));
    }
  }

  /** The producer's facts survive any step that is not its own: chains, tail and log stay, entries
      keep their keys, and only blocks the producer does not hold change. */
  ghost predicate ProducerFrame(s: State, s': State, f: Facts, f': Facts)
    requires Shaped(s, f)
  {
    && s'.producer == s.producer && s'.chain == s.chain && s'.tailBlock == s.tailBlock && s'.log == s.log
    && s'.index.headers == s.index.headers && f'.note == f.note && |s'.index.entries| == |s.index.entries|
    && (forall e :: 0 <= e < |s.index.entries| ==>
          && s'.index.entries[e].key == s.index.entries[e].key
          && (s.index.entries[e].value == None ==> s'.index.entries[e].value == None))
    && |f'.infos| == |f.infos|
    && (forall b :: 0 <= b < |f.infos| ==>
          f'.infos[b].block == f.infos[b].block && (b >= Committed(s) ==> f'.infos[b].phase == f.infos[b].phase))
    && |s.blocks| <= |s'.blocks| == |f'.owners|
    && (forall b :: 0 <= b < |s.blocks| && (f.owners[b] == Acquired || f.owners[b] == GivenUp) ==>
          f'.owners[b] == f.owners[b] && s'.blocks[b].counter == s.blocks[b].counter)
    && (forall b :: 0 <= b < |s.blocks| && f.owners[b].InUse? ==> s'.blocks[b].cells == s.blocks[b].cells)
  }

  lemma PlacesKept(s: State, s': State, f: Facts, f': Facts)
    requires Shaped(s, f) && ProducerFrame(s, s', f, f') && Shaped(s', f')
    ensures forall b :: EntryOf(s'.index, f'.note, b) == EntryOf(s.index, f.note, b)
    ensures forall b, mark :: Settled(s.index, f.note, b, mark) ==> Settled(s'.index, f'.note, b, mark)
    ensures forall e, b, mark :: InsertingAt(s.index, f.note, e, b, mark) ==> InsertingAt(s'.index, f'.note, e, b, mark)
  {
    assert forall b :: EntryOf(s'.index, f'.note, b) == EntryOf(s.index, f.note, b);
    assert forall low :: Remnants(s.index, f.note, low) ==> Remnants(s'.index, f'.note, low);
  }

  lemma ChainKept(chain: seq<nat>, committed: nat, infos: seq<Info>, infos': seq<Info>)
    requires |infos'| == |infos|
    requires forall b :: committed <= b < |infos| ==>
      infos'[b].block == infos[b].block && infos'[b].phase == infos[b].phase
    ensures forall i: nat :: ChainOk(chain, committed, infos, i) ==> ChainOk(chain, committed, infos', i)
  {
    forall i: nat | ChainOk(chain, committed, infos, i) ensures ChainOk(chain, committed, infos', i) {
      forall j | 0 <= j < |chain| ensures ReservedAt(chain, committed, infos', i, j) {
        assert ReservedAt(chain, committed, infos, i, j);
      }
    }
  }

  lemma FilledKept(s: State, s': State, f: Facts, f': Facts)
    requires Sound(s, f) && ProducerFrame(s, s', f, f') && Shaped(s', f') && s.producer.Filling?
    ensures forall j :: 0 <= j < s.producer.done ==> FilledAt(s', s.producer.items, j)
  {
    forall j | 0 <= j < s.producer.done ensures FilledAt(s', s.producer.items, j) {
      assert FilledAt(s, s.producer.items, j);
      WriteBlockInUse(s, f, j);
    }
  }

  lemma KeepControl(s: State, s': State, f: Facts, f': Facts)
    requires Shaped(s, f) && ControlOk(s, f) && ProducerFrame(s, s', f, f') && Shaped(s', f') && !s.producer.Filling?
    ensures ControlOk(s', f')
  {
    PlacesKept(s, s', f, f');
    ChainKept(s.chain, Committed(s), f.infos, f'.infos);
  }

  lemma KeepProducer(s: State, s': State, f: Facts, f': Facts)
    requires Sound(s, f) && ProducerFrame(s, s', f, f') && Shaped(s', f')
    ensures ProducerOk(s', f')
  {
    if s.producer.Filling? {
      FilledKept(s, s', f, f');
      PlacesKept(s, s', f, f');
    } else {
      KeepControl(s, s', f, f');
    }
    ChainKept(s.chain, Committed(s), f.infos, f'.infos);
  }
}
