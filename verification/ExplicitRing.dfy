/** An explicit producer's blocks, and the ring of (base index, block) entries through which consumers
    find them. */
module ExplicitRing {
  import opened Words
  import opened Powers

  /** `EXPLICIT_INITIAL_INDEX_SIZE`. */
  const INITIAL_INDEX_SIZE: int := 32

  /** `BLOCK_SIZE` is at most the threshold, so an explicit block records emptied slots in flags, in
      reverse order of their indices. */
  class Block {
    var next: Block?
    const emptyFlags: array<bool>
    const elements: array<int>

    constructor ()
      ensures fresh(emptyFlags) && fresh(elements) && Sized()
    {
      emptyFlags := new bool[BLOCK_SIZE];
      elements := new int[BLOCK_SIZE];
    }

    predicate Sized() {
      emptyFlags.Length == BLOCK_SIZE && elements.Length == BLOCK_SIZE
    }

    /** The element at position `j` has been dequeued. */
    predicate Emptied(j: nat)
      requires Sized() && j < BLOCK_SIZE
      reads emptyFlags
    {
      emptyFlags[BLOCK_SIZE - 1 - j]
    }

    method IsEmpty() returns (empty: bool)
      requires Sized()
      ensures empty <==> forall j :: 0 <= j < BLOCK_SIZE ==> Emptied(j)
    {
      var i := 0;
      while i < BLOCK_SIZE
        invariant 0 <= i <= BLOCK_SIZE
        invariant forall k :: 0 <= k < i ==> emptyFlags[k]
      {
        if !emptyFlags[i] {
          assert !Emptied(BLOCK_SIZE - 1 - i);
          return false;
        }
        i := i + 1;
      }
      return true;
    }

    method SetEmpty(index: Word)
      requires Sized() && !Emptied(index % BLOCK_SIZE)
      modifies emptyFlags
      ensures forall j :: 0 <= j < BLOCK_SIZE ==> Emptied(j) == (old(Emptied(j)) || j == index % BLOCK_SIZE)
    {
      emptyFlags[BLOCK_SIZE - 1 - index % BLOCK_SIZE] := true;
    }

    method ResetEmpty()
      requires Sized()
      modifies emptyFlags
      ensures forall j :: 0 <= j < BLOCK_SIZE ==> !Emptied(j)
    {
      var i := 0;
      while i < BLOCK_SIZE
        invariant 0 <= i <= BLOCK_SIZE
        invariant forall k :: 0 <= k < i ==> !emptyFlags[k]
      {
        emptyFlags[i] := false;
        i := i + 1;
      }
    }
  }

  datatype IndexEntry = IndexEntry(base: Word, block: Block?)

  class BlockIndexHeader {
    const size: nat
    const entries: array<IndexEntry>
    var front: int

    constructor (size: nat, entries: array<IndexEntry>, front: int)
      ensures this.size == size && this.entries == entries && this.front == front
    {
      this.size, this.entries, this.front := size, entries, front;
    }
  }

  /** A power of two that divides the number of block-aligned index words. */
  ghost predicate RingSize(size: nat) {
    exists n: nat :: n <= 59 && size == Pow2(n)
  }

  lemma RingSizeDivides(size: nat) returns (multiple: nat)
    requires RingSize(size)
    ensures size > 0 && multiple * size == BLOCK_WORDS
  {
    var n: nat :| n <= 59 && size == Pow2(n);
    Pow2Positive(n);
    Pow2Sum(59 - n, n);
    WordPowers();
    multiple := Pow2(59 - n);
  }

  /** A ring no larger than half the block-aligned words can double. */
  lemma RingSizeDoubles(size: nat)
    requires RingSize(size) && 2 * size <= BLOCK_WORDS
    ensures RingSize(2 * size)
  {
    var n: nat :| n <= 59 && size == Pow2(n);
    WordPowers();
    if n == 59 {
      assert false;
    }
    assert 2 * size == Pow2(n + 1);
  }

  /* ---------- The ring of entries ---------- */

  /** The last |blocks| slots before `front` name the blocks in order, with bases BLOCK_SIZE apart. */
  ghost predicate Window(entries: seq<IndexEntry>, front: int, blocks: seq<Block>, first: nat)
    requires |entries| > 0
  {
    forall k :: 0 <= k < |blocks| ==> WindowAt(entries, front, blocks, first, k)
  }

  ghost predicate WindowAt(entries: seq<IndexEntry>, front: int, blocks: seq<Block>, first: nat, k: nat)
    requires |entries| > 0 && k < |blocks|
  {
    entries[Before(front, |blocks| - k, |entries|)] == IndexEntry(Wrap((first + k) * BLOCK_SIZE), blocks[k])
  }

  /** The slot `back` places before `front`. */
  function Before(front: int, back: int, size: nat): (slot: nat)
    requires size > 0
    ensures slot < size
  {
    (front - back) % size
  }

  lemma SlotsApart(front: nat, back: nat, size: nat)
    requires front < size && 0 < back < size
    ensures Before(front, back, size) != front
  {
    if Before(front, back, size) == front {
      DivModUnique(front, 0, front, size);
      ModInjective(front - back, front, size);
    }
  }

  lemma SlotShift(front: nat, back: int, size: nat)
    requires size > 0
    ensures Before((front + 1) % size, back + 1, size) == Before(front, back, size)
  {
    ModAdd(front + 1, -(back + 1), size);
  }

  lemma FrontSlot(front: nat, size: nat)
    requires front < size
    ensures Before((front + 1) % size, 1, size) == front
  {
    SlotShift(front, 0, size);
    DivModUnique(front, 0, front, size);
  }

  lemma WindowAppendAt(
      entries: seq<IndexEntry>, front: nat, front': nat, blocks: seq<Block>, first: nat, block: Block, k: nat)
    requires front < |entries| && |blocks| < |entries| && Window(entries, front, blocks, first) && k <= |blocks|
    requires forall back :: Before(front', back + 1, |entries|) == Before(front, back, |entries|)
    requires Before(front', 1, |entries|) == front
    ensures WindowAt(entries[front := IndexEntry(Wrap((first + |blocks|) * BLOCK_SIZE), block)], front',
                     blocks + [block], first, k)
  {
    if k < |blocks| {
      assert WindowAt(entries, front, blocks, first, k);
      assert Before(front', |blocks| - k + 1, |entries|) == Before(front, |blocks| - k, |entries|);
      SlotsApart(front, |blocks| - k, |entries|);
    }
  }

  /** Adding a block: the ring takes its entry at the front. */
  lemma WindowAppend(entries: seq<IndexEntry>, front: nat, blocks: seq<Block>, first: nat, block: Block)
    requires front < |entries| && |blocks| < |entries| && Window(entries, front, blocks, first)
    ensures Window(entries[front := IndexEntry(Wrap((first + |blocks|) * BLOCK_SIZE), block)],
                   (front + 1) % |entries|, blocks + [block], first)
  {
    var front' := (front + 1) % |entries|;
    FrontSlot(front, |entries|);
    forall back ensures Before(front', back + 1, |entries|) == Before(front, back, |entries|) {
      SlotShift(front, back, |entries|);
    }
    var blocks' := blocks + [block];
    var entries' := entries[front := IndexEntry(Wrap((first + |blocks|) * BLOCK_SIZE), block)];
    forall k | 0 <= k < |blocks'| ensures WindowAt(entries', front', blocks', first, k)
    {
      WindowAppendAt(entries, front, front', blocks, first, block, k);
    }
  }

  /** Reusing the oldest block: its new entry replaces the old one in the window. */
  lemma WindowRotate(entries: seq<IndexEntry>, front: nat, blocks: seq<Block>, first: nat)
    requires front < |entries| && 0 < |blocks| <= |entries| && Window(entries, front, blocks, first)
    ensures Window(entries[front := IndexEntry(Wrap((first + |blocks|) * BLOCK_SIZE), blocks[0])],
      (front + 1) % |entries|,
                   blocks[1..] + [blocks[0]], first + 1)
  {
    WindowTail(entries, front, blocks, first);
    WindowAppend(entries, front, blocks[1..], first + 1, blocks[0]);
  }

  lemma WindowTail(entries: seq<IndexEntry>, front: nat, blocks: seq<Block>, first: nat)
    requires |entries| > 0 && |blocks| > 0 && Window(entries, front, blocks, first)
    ensures Window(entries, front, blocks[1..], first + 1)
  {
    var rest, second := blocks[1..], first + 1;
    forall k | 0 <= k < |rest| ensures WindowAt(entries, front, rest, second, k) {
      assert WindowAt(entries, front, blocks, first, k + 1);
    }
  }

  /** Copying the window, oldest entry first, to the start of a larger ring. */
  lemma WindowCopied(entries: seq<IndexEntry>, front: nat, blocks: seq<Block>, first: nat, entries': seq<IndexEntry>)
    requires |entries| > 0 && Window(entries, front, blocks, first) && |blocks| < |entries'|
    requires forall k :: 0 <= k < |blocks| ==> entries'[k] == entries[Before(front, |blocks| - k, |entries|)]
    ensures Window(entries', |blocks|, blocks, first)
  {
    forall k | 0 <= k < |blocks| ensures WindowAt(entries', |blocks|, blocks, first, k) {
      assert WindowAt(entries, front, blocks, first, k);
      DivModUnique(k, 0, k, |entries'|);
    }
  }

  /** The consumer's lookup from the newest entry reaches the block of any index in the window. */
  lemma LookupFinds(entries: seq<IndexEntry>, front: nat, blocks: seq<Block>, first: nat, index: nat)
    requires RingSize(|entries|) && |entries| > 0 && 0 < |blocks| <= |entries| && Window(entries, front, blocks, first)
    requires first * BLOCK_SIZE <= index < (first + |blocks|) * BLOCK_SIZE
    ensures LookUp(entries, front, index) == blocks[index / BLOCK_SIZE - first]
  {
    var size, n := |entries|, |blocks|;
    var last := first + n - 1;
    var k := index / BLOCK_SIZE - first;
    assert WindowAt(entries, front, blocks, first, n - 1) && WindowAt(entries, front, blocks, first, k);
    LookupSlot(front, last, index, size, n - k);
  }

  lemma LookupSlot(front: nat, last: nat, index: nat, size: nat, back: int)
    requires RingSize(size) && size > 0 && back == last + 1 - index / BLOCK_SIZE
    ensures SlotFrom(Before(front, 1, size), Wrap(last * BLOCK_SIZE), Wrap(index), size) == Before(front, back, size)
  {
    var multiple := RingSizeDivides(size);
    SlotFromExact(Before(front, 1, size), last, index, size, multiple);
    ModAdd(front - 1, 1 - back, size);
  }

  /** The block a lookup reaches for an index, from the newest entry before `front`. */
  function LookUp(entries: seq<IndexEntry>, front: nat, index: nat): Block?
    requires |entries| > 0
  {
    var position := Before(front, 1, |entries|);
    entries[SlotFrom(position, entries[position].base, Wrap(index), |entries|)].block
  }

  /** Growing preserves meaning: for every index of the blocks in use the lookup reaches the same block
      before and after, and the next slot to fill holds none of their entries. */
  lemma GrowKeepsLookups(
      entries: seq<IndexEntry>, front: nat, blocks: seq<Block>, first: nat, entries': seq<IndexEntry>,
      index: nat)
    requires RingSize(|entries|) && |entries| > 0 && 0 < |blocks| <= |entries| && Window(entries, front, blocks, first)
    requires |entries'| == 2 * |entries| && 2 * |entries| <= BLOCK_WORDS
    requires forall k :: 0 <= k < |blocks| ==> entries'[k] == entries[Before(front, |blocks| - k, |entries|)]
    requires first * BLOCK_SIZE <= index < (first + |blocks|) * BLOCK_SIZE
    ensures LookUp(entries, front, index) == LookUp(entries', |blocks|, index) == blocks[index / BLOCK_SIZE - first]
    ensures forall back :: 0 < back <= |blocks| ==> Before(|blocks|, back, |entries'|) != |blocks|
  {
    RingSizeDoubles(|entries|);
    WindowCopied(entries, front, blocks, first, entries');
    LookupFinds(entries, front, blocks, first, index);
    LookupFinds(entries', |blocks|, blocks, first, index);
    forall back | 0 < back <= |blocks| ensures Before(|blocks|, back, |entries'|) != |blocks| {
      SlotsApart(|blocks|, back, |entries'|);
    }
  }
}
