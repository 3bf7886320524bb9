/**
 The implicit producer's block index: a chain of headers over shared entries. Each header is a ring
 of twice the capacity of the one before and holds all its entries; consumers may still be reading
 any earlier header while the producer inserts through the newest one.

 Keys are block numbers (the block's base index divided by BLOCK_SIZE); a lookup computes on the
 wrapped 64-bit base indices.
 */
module BlockIndex {
  import opened Basics
  import opened Words
  import opened Powers

  /** Capacity of the first header, `IMPLICIT_INITIAL_INDEX_SIZE`. */
  const INITIAL_CAPACITY: int := 32

  /** A key of None is `INVALID_BLOCK_BASE`. */
  datatype Entry = Entry(key: Option<nat>, value: Option<nat>)

  /** `index` names entries by number; `tail` is the slot of the newest insertion. */
  datatype Header = Header(tail: nat, index: seq<nat>)

  datatype Index = Index(headers: seq<Header>, entries: seq<Entry>)

  function Capacity(h: Header): nat {
    |h.index|
  }

  function Newest(x: Index): nat
    requires |x.headers| > 0
  {
    |x.headers| - 1
  }

  function Current(x: Index): Header
    requires |x.headers| > 0
  {
    x.headers[|x.headers| - 1]
  }

  /** The slot after the newest insertion. */
  function NextSlot(h: Header): nat
    requires Capacity(h) > 0
  {
    (h.tail + 1) % Capacity(h)
  }

  /** `get_block_index_index_for_index`: the slot for `index`, from a tail slot and the key found there. */
  function Lookup(h: Header, tail: nat, key: nat, index: nat): nat
    requires Capacity(h) > 0
  {
    SlotFrom(tail, Wrap(key * BLOCK_SIZE), Wrap(index), Capacity(h))
  }

  /** A freed or never used entry may be given a new key. */
  predicate Reusable(e: Entry) {
    e.key == None || e.value == None
  }

  function StoreKey(x: Index, entry: nat, key: nat): Index
    requires entry < |x.entries|
  {
    x.(entries := x.entries[entry := x.entries[entry].(key := Some(key))])
  }

  function StoreValue(x: Index, entry: nat, value: Option<nat>): Index
    requires entry < |x.entries|
  {
    x.(entries := x.entries[entry := x.entries[entry].(value := value)])
  }

  function StoreTail(x: Index, tail: nat): Index
    requires |x.headers| > 0
  {
    x.(headers := x.headers[|x.headers| - 1 := Current(x).(tail := tail)])
  }

  /** `new_block_index`: a ring of twice the capacity, the old entries first, from the oldest on.
      The values of the new entries are not initialised: `garbage` says what memory held. */
  function Grow(x: Index, garbage: nat -> Option<nat>): Index
    requires |x.headers| > 0 && Capacity(Current(x)) > 0
  {
    var prev := Current(x);
    var c := Capacity(prev);
    var index := seq(2 * c, i requires 0 <= i < 2 * c =>
      if i < c then prev.index[(prev.tail + 1 + i) % c] else |x.entries| + (i - c));
    Index(x.headers + [Header(c - 1, index)], x.entries + seq(c, i requires 0 <= i < c => Entry(None, garbage(i))))
  }

  predicate IsInitial(x: Index) {
    && x.headers == [Header(INITIAL_CAPACITY - 1, seq(INITIAL_CAPACITY, i => i))]
    && |x.entries| == INITIAL_CAPACITY
    && forall e :: 0 <= e < |x.entries| ==> x.entries[e].key == None
  }

  /* ---------- The invariant ---------- */

  /** The largest number of headers whose rings fit the address space. */
  const MAX_HEADERS: int := 55

  /**
   Auxiliary facts about an index.
   - `offset[h]`: block number plus offset is the slot, modulo header h's capacity;
   - `home[e]`: a block number that entry e stands for, modulo the newest capacity;
   - `mark[h]`: the block number whose slot is header h's tail;
   - `floor[h]`: from this number up to `mark[h]`, header h's slots have had keys;
   - `top`: one more than the largest block number ever inserted.
   */
  datatype Note = Note(offset: seq<int>, home: seq<int>, mark: seq<int>, floor: seq<int>, top: nat)

  /** The slot of block number `b` in header `h`: number minus slot is constant modulo capacity. */
  function SlotOf(x: Index, n: Note, h: nat, b: int): nat
    requires h < |x.headers| == |n.offset| && Capacity(x.headers[h]) > 0
  {
    (b + n.offset[h]) % Capacity(x.headers[h])
  }

  ghost predicate Sized(x: Index, n: Note) {
    && 0 < |x.headers| == |n.offset| == |n.mark| == |n.floor| && |x.headers| <= MAX_HEADERS
    && |n.home| == |x.entries| == Capacity(Current(x))
    && forall h :: 0 <= h < |x.headers| ==> Capacity(x.headers[h]) == INITIAL_CAPACITY * Pow2(h) > 0
  }

  /** Header `h` holds every entry created by its time exactly once, at its home number's slot. */
  ghost predicate RingOk(x: Index, n: Note, h: nat)
    requires Sized(x, n) && h < |x.headers|
  {
    var ring := x.headers[h];
    && Capacity(ring) <= |x.entries|
    && (forall p :: 0 <= p < Capacity(ring) ==>
         ring.index[p] < Capacity(ring) && SlotOf(x, n, h, n.home[ring.index[p]]) == p)
    && (forall e :: 0 <= e < Capacity(ring) ==> ring.index[SlotOf(x, n, h, n.home[e])] == e)
    && ring.tail == SlotOf(x, n, h, n.mark[h])
    && 0 <= n.floor[h] && n.mark[h] < n.top
    && (n.floor[h] <= n.mark[h] ==> x.entries[ring.index[ring.tail]].key.Some?)
  }

  /** A key is congruent to its entry's home, and is one of the newest numbers of the ring. */
  ghost predicate EntryOk(x: Index, n: Note, e: nat)
    requires Sized(x, n) && e < |x.entries|
  {
    match x.entries[e].key
    case None => true
    case Some(k) =>
      (k - n.home[e]) % |x.entries| == 0 && n.top - |x.entries| <= k < n.top
  }

  ghost predicate RingsOk(x: Index, n: Note) {
    Sized(x, n) && forall h :: 0 <= h < |x.headers| ==> RingOk(x, n, h)
  }

  /** The entry at block number `b`'s slot in the newest header. */
  function EntryOf(x: Index, n: Note, b: int): nat
    requires 0 < |x.headers| == |n.offset| && Capacity(Current(x)) > 0
  {
    Current(x).index[SlotOf(x, n, Newest(x), b)]
  }

  ghost predicate Keyed(x: Index, n: Note, b: int)
    requires RingsOk(x, n)
  {
    assert RingOk(x, n, Newest(x));
    x.entries[EntryOf(x, n, b)].key.Some?
  }

  ghost predicate IndexOk(x: Index, n: Note) {
    && RingsOk(x, n)
    && (forall e :: 0 <= e < |x.entries| ==> EntryOk(x, n, e))
    && (forall b :: n.floor[Newest(x)] <= b < n.top ==> Keyed(x, n, b))
  }
}
