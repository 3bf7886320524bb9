/** Doubling the ring of a block index keeps what it means. */
module BlockGrowth {
  import opened Basics
  import opened Words
  import opened Powers
  import opened BlockIndex
  import opened BlockLookups

  /** The homes once the ring doubles: the numbers the old slots stand for, oldest first, then the
      numbers to come. */
  function GrowNote(x: Index, n: Note): Note
    requires 0 < |x.headers| == |n.floor| && |n.home| == |x.entries|
  {
    var c := |x.entries|;
    var oldest := n.top - c;
    Note(
      n.offset + [c - n.top],
      seq(2 * c, e requires 0 <= e < 2 * c =>
        if e < c then oldest + (n.home[e] - oldest) % c else n.top + (e - c)),
      n.mark + [n.top - 1],
      n.floor + [if n.floor[Newest(x)] > oldest then n.floor[Newest(x)] else oldest],
      n.top)
  }

  /** A doubled index that fits the address space is at most the last one the offset division supports. */
  lemma RoomToGrow(x: Index, n: Note)
    requires Sized(x, n) && 2 * |x.entries| <= BLOCK_WORDS
    ensures |x.headers| < MAX_HEADERS
  {
    WordPowers();
    assert Pow2(|x.headers|) == 2 * Pow2(|x.headers| - 1);
    Pow2Bounded(|x.headers|, 54);
  }

  /** What growing needs of the newest header: its tail holds the largest number ever inserted. */
  ghost predicate CanGrow(x: Index, n: Note) {
    && Sized(x, n) && RingOk(x, n, Newest(x))
    && n.top > 0 && n.mark[Newest(x)] == n.top - 1 && |x.headers| < MAX_HEADERS
  }

  /** The oldest number the full ring stands for. */
  function Oldest(x: Index, n: Note): int {
    n.top - |x.entries|
  }

  lemma GrowSized(x: Index, n: Note, garbage: nat -> Option<nat>)
    requires CanGrow(x, n)
    ensures Sized(Grow(x, garbage), GrowNote(x, n))
    ensures forall h :: 0 <= h < |x.headers| ==> Grow(x, garbage).headers[h] == x.headers[h]
    ensures forall e :: 0 <= e < |x.entries| ==> Grow(x, garbage).entries[e] == x.entries[e]
  {
    assert Pow2(|x.headers|) == 2 * Pow2(|x.headers| - 1);
  }

  /** In the new ring, slots simply count from the oldest number. */
  lemma GrowSlot(x: Index, n: Note, garbage: nat -> Option<nat>, b: int)
    requires CanGrow(x, n) && Oldest(x, n) <= b < n.top + |x.entries|
    ensures var x', n' := Grow(x, garbage), GrowNote(x, n);
      Sized(x', n') && SlotOf(x', n', Newest(x'), b) == b - Oldest(x, n)
  {
    GrowSized(x, n, garbage);
    var size := |x.entries|;
    assert GrowNote(x, n).offset[|x.headers|] == size - n.top;
    DivModUnique(b - Oldest(x, n), 0, b - Oldest(x, n), 2 * size);
  }

  /** The new ring starts with the old one's entries in the order of their numbers. */
  lemma GrowPlaces(x: Index, n: Note, garbage: nat -> Option<nat>, q: nat)
    requires CanGrow(x, n) && q < |x.entries|
    ensures Current(Grow(x, garbage)).index[q] == EntryOf(x, n, Oldest(x, n) + q)
  {
    var last, size := Newest(x), |x.entries|;
    var t := n.mark[last] + n.offset[last];
    ModAdd(t, 1 + q, size);
    assert (Current(x).tail + 1 + q) % size == (t + 1 + q) % size;
    ModShift(t + 1 + q - size, 1, size);
    assert (t + 1 + q) % size == SlotOf(x, n, last, Oldest(x, n) + q);
  }

  lemma GrowKeeps(x: Index, n: Note, garbage: nat -> Option<nat>, b: int)
    requires CanGrow(x, n) && Oldest(x, n) <= b < n.top
    ensures var x', n' := Grow(x, garbage), GrowNote(x, n); Sized(x', n') && EntryOf(x', n', b) == EntryOf(x, n, b)
  {
    GrowSlot(x, n, garbage, b);
    GrowPlaces(x, n, garbage, b - Oldest(x, n));
  }

  /** An entry's new home is congruent to its old one. */
  lemma GrowHome(x: Index, n: Note, e: nat)
    requires CanGrow(x, n) && e < |x.entries|
    ensures var home := GrowNote(x, n).home[e];
      (home - n.home[e]) % |x.entries| == 0 && Oldest(x, n) <= home < n.top
  {
    var size := |x.entries|;
    var oldest := Oldest(x, n);
    var d := n.home[e] - oldest;
    assert d == d / size * size + d % size;
    DivModUnique(oldest + d % size - n.home[e], -(d / size), 0, size);
  }

  lemma CongruentInWindow(a: int, b: int, c: int, low: int, size: int)
    requires size > 0 && (a - b) % size == 0 && (c - b) % size == 0 && low <= a < low + size && low <= c < low + size
    ensures a == c
  {
    var p, q := (a - b) / size, (c - b) / size;
    assert a - b == p * size && c - b == q * size;
    assert (p - q) * size == p * size - q * size;
    MultipleInGap(p - q, size);
  }

  lemma GrowOldRing(x: Index, n: Note, garbage: nat -> Option<nat>, h: nat)
    requires CanGrow(x, n) && h < |x.headers| && RingOk(x, n, h)
    ensures var x', n' := Grow(x, garbage), GrowNote(x, n); Sized(x', n') && RingOk(x', n', h)
  {
    var x', n' := Grow(x, garbage), GrowNote(x, n);
    GrowSized(x, n, garbage);
    forall e | 0 <= e < Capacity(x.headers[h]) ensures SlotOf(x', n', h, n'.home[e]) == SlotOf(x, n, h, n.home[e]) {
      GrowHome(x, n, e);
      SameSlot(x, n, h, n'.home[e], n.home[e]);
    }
  }

  lemma GrowNewHome(x: Index, n: Note, garbage: nat -> Option<nat>, e: nat)
    requires CanGrow(x, n) && e < 2 * |x.entries|
    ensures var x', n' := Grow(x, garbage), GrowNote(x, n); Sized(x', n') && EntryOf(x', n', n'.home[e]) == e
  {
    var n' := GrowNote(x, n);
    if e < |x.entries| {
      GrowHome(x, n, e);
      GrowKeeps(x, n, garbage, n'.home[e]);
      SameSlot(x, n, Newest(x), n'.home[e], n.home[e]);
    } else {
      GrowSlot(x, n, garbage, n'.home[e]);
    }
  }

  lemma GrowNewPlace(x: Index, n: Note, garbage: nat -> Option<nat>, p: nat)
    requires CanGrow(x, n) && p < 2 * |x.entries|
    ensures var x', n' := Grow(x, garbage), GrowNote(x, n);
      && Sized(x', n') && Current(x').index[p] < |x'.entries|
      && SlotOf(x', n', Newest(x'), n'.home[Current(x').index[p]]) == p
  {
    var x', n' := Grow(x, garbage), GrowNote(x, n);
    var b := Oldest(x, n) + p;
    GrowSlot(x, n, garbage, b);
    if p < |x.entries| {
      GrowPlaces(x, n, garbage, p);
      var e := EntryOf(x, n, b);
      HomeCongruent(x, n, b);
      GrowHome(x, n, e);
      CongruentInWindow(b, n.home[e], n'.home[e], Oldest(x, n), |x.entries|);
    } else {
      assert n'.home[Current(x').index[p]] == b;
    }
  }

  lemma GrowEntry(x: Index, n: Note, garbage: nat -> Option<nat>, e: nat)
    requires CanGrow(x, n) && e < 2 * |x.entries| && (e < |x.entries| ==> EntryOk(x, n, e))
    ensures var x', n' := Grow(x, garbage), GrowNote(x, n); Sized(x', n') && EntryOk(x', n', e)
  {
    GrowSized(x, n, garbage);
    var size := |x.entries|;
    assert e >= size ==> Grow(x, garbage).entries[e].key == None;
    if e < |x.entries| && x.entries[e].key.Some? {
      GrowHome(x, n, e);
      assert Grow(x, garbage).entries[e] == x.entries[e];
      DivModUnique(0, 0, 0, 2 * size);
      CongruentInWindow(x.entries[e].key.value, n.home[e], GrowNote(x, n).home[e], Oldest(x, n), |x.entries|);
    }
  }

  /** The new ring's tail is at the newest number, and its entry has a key if that number's had. */
  lemma GrowNewTail(x: Index, n: Note, garbage: nat -> Option<nat>)
    requires CanGrow(x, n) && IndexOk(x, n)
    ensures var x', n' := Grow(x, garbage), GrowNote(x, n);
      && Sized(x', n') && Current(x').tail == SlotOf(x', n', Newest(x'), n.top - 1)
      && Current(x').index[Current(x').tail] < |x'.entries|
      && (n'.floor[Newest(x')] <= n.top - 1 ==> x'.entries[Current(x').index[Current(x').tail]].key.Some?)
  {
    GrowSized(x, n, garbage);
    GrowSlot(x, n, garbage, n.top - 1);
    GrowKeeps(x, n, garbage, n.top - 1);
    assert RingOk(x, n, Newest(x));
    assert n.floor[Newest(x)] <= n.top - 1 ==> Keyed(x, n, n.top - 1);
  }

  lemma GrowNewRing(x: Index, n: Note, garbage: nat -> Option<nat>)
    requires CanGrow(x, n) && IndexOk(x, n)
    ensures var x', n' := Grow(x, garbage), GrowNote(x, n); Sized(x', n') && RingOk(x', n', Newest(x'))
  {
    var x', n' := Grow(x, garbage), GrowNote(x, n);
    GrowSized(x, n, garbage);
    GrowNewTail(x, n, garbage);
    forall p | 0 <= p < Capacity(Current(x'))
      ensures Current(x').index[p] < |x'.entries| && SlotOf(x', n', Newest(x'), n'.home[Current(x').index[p]]) == p
    {
      GrowNewPlace(x, n, garbage, p);
    }
    forall e | 0 <= e < Capacity(Current(x')) ensures EntryOf(x', n', n'.home[e]) == e {
      GrowNewHome(x, n, garbage, e);
    }
  }

  lemma GrowRing(x: Index, n: Note, garbage: nat -> Option<nat>, h: nat)
    requires CanGrow(x, n) && IndexOk(x, n) && h <= |x.headers|
    ensures Sized(Grow(x, garbage), GrowNote(x, n)) && RingOk(Grow(x, garbage), GrowNote(x, n), h)
  {
    if h < |x.headers| {
      assert RingOk(x, n, h);
      GrowOldRing(x, n, garbage, h);
    } else {
      GrowNewRing(x, n, garbage);
    }
  }

  /** Doubling the ring keeps every fact about it: every number the full ring stands for keeps its
      entry, and the next slot holds a fresh entry. */
  lemma GrowOk(x: Index, n: Note, garbage: nat -> Option<nat>)
    requires CanGrow(x, n) && IndexOk(x, n)
    ensures IndexOk(Grow(x, garbage), GrowNote(x, n))
    ensures forall b :: Oldest(x, n) <= b < n.top ==> EntryOf(Grow(x, garbage), GrowNote(x, n), b) == EntryOf(x, n, b)
    ensures EntryOf(Grow(x, garbage), GrowNote(x, n), n.top) == |x.entries|
  {
    var x', n' := Grow(x, garbage), GrowNote(x, n);
    GrowRing(x, n, garbage, 0);
    forall h | 0 <= h < |x'.headers| ensures RingOk(x', n', h) {
      GrowRing(x, n, garbage, h);
    }
    forall b | Oldest(x, n) <= b < n.top ensures EntryOf(x', n', b) == EntryOf(x, n, b) {
      GrowKeeps(x, n, garbage, b);
    }
    GrowSlot(x, n, garbage, n.top);
    forall e | 0 <= e < |x'.entries| ensures EntryOk(x', n', e) {
      GrowEntry(x, n, garbage, e);
    }
    GrowKeyed(x, n, garbage);
  }

  lemma GrowKeyed(x: Index, n: Note, garbage: nat -> Option<nat>)
    requires CanGrow(x, n) && IndexOk(x, n) && RingsOk(Grow(x, garbage), GrowNote(x, n))
    ensures var x', n' := Grow(x, garbage), GrowNote(x, n);
      forall b :: n'.floor[Newest(x')] <= b < n'.top ==> Keyed(x', n', b)
  {
    var x', n' := Grow(x, garbage), GrowNote(x, n);
    forall b | n'.floor[Newest(x')] <= b < n'.top ensures Keyed(x', n', b) {
      assert Keyed(x, n, b);
      GrowKeeps(x, n, garbage, b);
    }
  }
}
