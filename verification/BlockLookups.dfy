/** Lookups through any header ever published, and the changes the producer makes to the newest. */
module BlockLookups {
  import opened Basics
  import opened Words
  import opened Powers
  import opened BlockIndex

  lemma CapacityDivides(x: Index, n: Note, h: nat) returns (m: nat)
    requires Sized(x, n) && h < |x.headers|
    ensures m > 0 && m * Capacity(x.headers[h]) == |x.entries|
  {
    var last := Newest(x);
    m := Pow2(last - h);
    Pow2Positive(last - h);
    Pow2Sum(last - h, h);
    assert |x.entries| == INITIAL_CAPACITY * Pow2(last);
    Regroup(m, INITIAL_CAPACITY, Pow2(h));
  }

  lemma Regroup(m: int, a: int, b: int)
    ensures m * (a * b) == a * (m * b)
  {}

  lemma CapacityDividesWords(x: Index, n: Note, h: nat) returns (m: nat)
    requires Sized(x, n) && h < |x.headers|
    ensures m > 0 && m * Capacity(x.headers[h]) == BLOCK_WORDS
  {
    m := Pow2(54 - h);
    Pow2Positive(54 - h);
    Pow2Sum(54 - h, h);
    WordPowers();
    Regroup(m, INITIAL_CAPACITY, Pow2(h));
  }

  /** Numbers congruent modulo the newest capacity have the same slot in every header. */
  lemma SameSlot(x: Index, n: Note, h: nat, b: int, c: int)
    requires Sized(x, n) && h < |x.headers| && (b - c) % |x.entries| == 0
    ensures SlotOf(x, n, h, b) == SlotOf(x, n, h, c)
  {
    var m := CapacityDivides(x, n, h);
    ModApart(b, c, n.offset[h], Capacity(x.headers[h]), m);
  }

  /** In every header ever published, an entry with a key sits at its key's slot. */
  lemma KeyedSlot(x: Index, n: Note, h: nat, p: nat)
    requires IndexOk(x, n) && h < |x.headers| && p < Capacity(x.headers[h])
    ensures var e := x.headers[h].index[p];
      e < |x.entries| && (x.entries[e].key.Some? ==> p == SlotOf(x, n, h, x.entries[e].key.value))
  {
    assert RingOk(x, n, h);
    var e := x.headers[h].index[p];
    assert EntryOk(x, n, e);
    if x.entries[e].key.Some? {
      SameSlot(x, n, h, x.entries[e].key.value, n.home[e]);
    }
  }

  /** Stale-snapshot lookup: through any header that has the entry pinned to the wanted block, from
      any tail slot and any key read there, at any earlier times, the slot is that entry's. */
  lemma LookupFinds(x: Index, n: Note, h: nat, tail: nat, key: nat, index: nat, entry: nat)
    requires IndexOk(x, n) && h < |x.headers| && tail == SlotOf(x, n, h, key)
    requires entry < Capacity(x.headers[h]) <= |x.entries| && x.entries[entry].key == Some(index / BLOCK_SIZE)
    ensures Lookup(x.headers[h], tail, key, index) == SlotOf(x, n, h, index / BLOCK_SIZE)
    ensures x.headers[h].index[SlotOf(x, n, h, index / BLOCK_SIZE)] == entry
  {
    var size := Capacity(x.headers[h]);
    var b := index / BLOCK_SIZE;
    var m := CapacityDividesWords(x, n, h);
    SlotFromExact(tail, key, index, size, m);
    ModAdd(key + n.offset[h], b - key, size);
    assert RingOk(x, n, h) && EntryOk(x, n, entry);
    SameSlot(x, n, h, b, n.home[entry]);
  }

  /* ---------- The producer's changes ---------- */

  lemma InitialIndexOk(x: Index) returns (n: Note)
    requires IsInitial(x)
    ensures IndexOk(x, n) && n == Note([0], n.home, [-1], [0], 0)
  {
    n := Note([0], seq(INITIAL_CAPACITY, i => i), [-1], [0], 0);
    assert RingOk(x, n, 0);
  }

  lemma StoreValueOk(x: Index, n: Note, entry: nat, value: Option<nat>)
    requires IndexOk(x, n) && entry < |x.entries|
    ensures IndexOk(StoreValue(x, entry, value), n)
  {
    var x' := StoreValue(x, entry, value);
    assert forall e :: 0 <= e < |x.entries| ==> x'.entries[e].key == x.entries[e].key;
    forall h | 0 <= h < |x'.headers| ensures RingOk(x', n, h) {
      assert RingOk(x, n, h);
    }
    forall e | 0 <= e < |x'.entries| ensures EntryOk(x', n, e) {
      assert EntryOk(x, n, e);
    }
    forall b | n.floor[Newest(x)] <= b < n.top ensures Keyed(x', n, b) {
      assert Keyed(x, n, b);
    }
  }

  lemma StoreTailRing(x: Index, n: Note, mark: int, h: nat)
    requires IndexOk(x, n) && -1 <= mark < n.top && h < |x.headers|
    ensures var x', n' := StoreTail(x, SlotOf(x, n, Newest(x), mark)), n.(mark := n.mark[Newest(x) := mark]);
      Sized(x', n') && RingOk(x', n', h)
  {
    var last := Newest(x);
    var x' := StoreTail(x, SlotOf(x, n, last, mark));
    var n' := n.(mark := n.mark[last := mark]);
    assert forall i :: 0 <= i < |x.headers| ==> x'.headers[i].index == x.headers[i].index;
    assert Sized(x', n');
    assert RingOk(x, n, h);
    assert forall b :: SlotOf(x', n', h, b) == SlotOf(x, n, h, b);
    if h == last {
      assert n.floor[last] <= mark ==> Keyed(x, n, mark);
    } else {
      assert x'.headers[h] == x.headers[h];
    }
  }

  /** Moving the tail to the slot of a number that has had a key since the floor, or below it. */
  lemma StoreTailOk(x: Index, n: Note, mark: int)
    requires IndexOk(x, n) && -1 <= mark < n.top
    ensures IndexOk(StoreTail(x, SlotOf(x, n, Newest(x), mark)), n.(mark := n.mark[Newest(x) := mark]))
  {
    var last := Newest(x);
    var x' := StoreTail(x, SlotOf(x, n, last, mark));
    var n' := n.(mark := n.mark[last := mark]);
    forall h | 0 <= h < |x'.headers| ensures Sized(x', n') && RingOk(x', n', h) {
      StoreTailRing(x, n, mark, h);
    }
    StoreTailRing(x, n, mark, last);
    forall e | 0 <= e < |x'.entries| ensures EntryOk(x', n', e) {
      assert EntryOk(x, n, e);
    }
    forall b | n'.floor[last] <= b < n'.top ensures Keyed(x', n', b) {
      assert Keyed(x, n, b);
    }
  }

  lemma NextSlotIsNext(x: Index, n: Note)
    requires IndexOk(x, n)
    ensures NextSlot(Current(x)) == SlotOf(x, n, Newest(x), n.mark[Newest(x)] + 1)
  {
    assert RingOk(x, n, Newest(x));
    ModAdd(n.mark[Newest(x)] + n.offset[Newest(x)], 1, Capacity(Current(x)));
  }

  lemma PreviousSlotIsPrevious(x: Index, n: Note)
    requires IndexOk(x, n)
    ensures (Current(x).tail - 1) % Capacity(Current(x)) == SlotOf(x, n, Newest(x), n.mark[Newest(x)] - 1)
  {
    assert RingOk(x, n, Newest(x));
    ModAdd(n.mark[Newest(x)] + n.offset[Newest(x)], -1, Capacity(Current(x)));
  }

  /** The note after storing block number `b`, the one after the tail's, as a key. */
  function KeyNote(n: Note, b: nat): Note {
    n.(top := if b < n.top then n.top else b + 1)
  }

  /** Numbers less than a turn apart have different entries. */
  lemma EntriesApart(x: Index, n: Note, b: int, c: int)
    requires RingsOk(x, n) && b != c && -|x.entries| < b - c < |x.entries|
    ensures EntryOf(x, n, b) != EntryOf(x, n, c)
  {
    var last := Newest(x);
    assert RingOk(x, n, last);
    if SlotOf(x, n, last, b) == SlotOf(x, n, last, c) {
      ModInjective(b + n.offset[last], c + n.offset[last], |x.entries|);
    }
  }

  lemma StoreKeyEntries(x: Index, n: Note, b: nat, e: nat)
    requires IndexOk(x, n) && b <= n.top && e < |x.entries| && EntryOf(x, n, b) < |x.entries|
    requires b < n.top ==> x.entries[EntryOf(x, n, b)].key == Some(b)
    ensures EntryOk(StoreKey(x, EntryOf(x, n, b), b), KeyNote(n, b), e)
  {
    var mine := EntryOf(x, n, b);
    var size := |x.entries|;
    assert RingOk(x, n, Newest(x));
    assert EntryOk(x, n, e);
    if e == mine {
      HomeCongruent(x, n, b);
    } else if x.entries[e].key == Some(n.top - size) && b == n.top {
      var p := SlotOf(x, n, Newest(x), n.home[e]);
      KeyedSlot(x, n, Newest(x), p);
      ModShift(b + n.offset[Newest(x)], -1, size);
    }
  }

  lemma HomeCongruent(x: Index, n: Note, b: int)
    requires Sized(x, n) && RingOk(x, n, Newest(x)) && EntryOf(x, n, b) < |n.home|
    ensures (b - n.home[EntryOf(x, n, b)]) % |x.entries| == 0
  {
    var last, size := Newest(x), |x.entries|;
    var e := EntryOf(x, n, b);
    var u, v := b + n.offset[last], n.home[e] + n.offset[last];
    assert u % size == v % size;
    assert u == u / size * size + u % size && v == v / size * size + v % size;
    assert b - n.home[e] == (u / size - v / size) * size by {
      assert (u / size - v / size) * size == u / size * size - v / size * size;
    }
    DivModUnique(b - n.home[e], u / size - v / size, 0, size);
  }

  lemma StoreKeyRing(x: Index, n: Note, b: nat, h: nat)
    requires IndexOk(x, n) && EntryOf(x, n, b) < |x.entries| && h < |x.headers|
    ensures var x', n' := StoreKey(x, EntryOf(x, n, b), b), KeyNote(n, b); Sized(x', n') && RingOk(x', n', h)
  {
    var x' := StoreKey(x, EntryOf(x, n, b), b);
    assert RingOk(x, n, h);
    var at := x.headers[h].index[x.headers[h].tail];
    assert x.entries[at].key.Some? ==> x'.entries[at].key.Some?;
  }

  lemma StoreKeyKeyed(x: Index, n: Note, b: nat, c: int)
    requires IndexOk(x, n) && b <= n.top && EntryOf(x, n, b) < |x.entries|
    requires n.floor[Newest(x)] <= c < KeyNote(n, b).top
    requires RingsOk(StoreKey(x, EntryOf(x, n, b), b), KeyNote(n, b))
    ensures Keyed(StoreKey(x, EntryOf(x, n, b), b), KeyNote(n, b), c)
  {
    assert RingOk(x, n, Newest(x));
    assert c < n.top ==> Keyed(x, n, c);
  }

  /** Inserting the next block number: the entry at its slot takes the key. */
  lemma StoreKeyOk(x: Index, n: Note, b: nat)
    requires IndexOk(x, n) && b <= n.top && EntryOf(x, n, b) < |x.entries|
    requires b < n.top ==> x.entries[EntryOf(x, n, b)].key == Some(b)
    ensures IndexOk(StoreKey(x, EntryOf(x, n, b), b), KeyNote(n, b))
  {
    var x' := StoreKey(x, EntryOf(x, n, b), b);
    var n' := KeyNote(n, b);
    forall h | 0 <= h < |x'.headers| ensures Sized(x', n') && RingOk(x', n', h) {
      StoreKeyRing(x, n, b, h);
    }
    StoreKeyRing(x, n, b, 0);
    forall e | 0 <= e < |x'.entries| ensures EntryOk(x', n', e) {
      StoreKeyEntries(x, n, b, e);
    }
    forall c | n'.floor[Newest(x)] <= c < n'.top ensures Keyed(x', n', c) {
      StoreKeyKeyed(x, n, b, c);
    }
  }
}
