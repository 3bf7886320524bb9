/**
 One explicit producer's sub-queue, used by one thread at a time: a circular linked list of reusable
 blocks, and a ring of index entries that must agree with it. Index words wrap; ghost fields hold the
 indices themselves.
 */
module ExplicitQueue {
  import opened Words
  import opened Powers
  import opened ExplicitRing
  import Bits

  /** What a block brings along: itself and its arrays. */
  ghost function BlockRepr(b: Block?): set<object> {
    if b == null then {} else {b, b.emptyFlags, b.elements}
  }

  /** Blocks of full size that share nothing. */
  ghost predicate Separate(blocks: seq<Block>) {
    && (forall b :: b in blocks ==> b.Sized())
    && (forall i, j :: 0 <= i < j < |blocks| ==> ApartAt(blocks, i, j))
  }

  predicate ApartAt(blocks: seq<Block>, i: nat, j: nat)
    requires i < |blocks| && j < |blocks|
  {
    Apart(blocks[i], blocks[j])
  }

  predicate Apart(a: Block, b: Block) {
    a != b && a.emptyFlags != b.emptyFlags && a.elements != b.elements
  }

  /** The blocks form a circle. */
  ghost predicate Linked(blocks: seq<Block>)
    reads blocks
  {
    && (forall k :: 0 <= k < |blocks| - 1 ==> LinkAt(blocks, k))
    && (|blocks| > 0 ==> blocks[|blocks| - 1].next == blocks[0])
  }

  predicate LinkAt(blocks: seq<Block>, k: nat)
    requires k < |blocks| - 1
    reads blocks[k]
  {
    blocks[k].next == blocks[k + 1]
  }

  ghost function BlockSet(blocks: seq<Block>): set<object> {
    set b | b in blocks
  }

  ghost function FlagArrays(blocks: seq<Block>): set<object> {
    set b | b in blocks :: b.emptyFlags
  }

  ghost function ElementArrays(blocks: seq<Block>): set<object> {
    set b | b in blocks :: b.elements
  }

  lemma SetsAppend(blocks: seq<Block>, b: Block)
    ensures BlockSet(blocks + [b]) == BlockSet(blocks) + {b}
    ensures FlagArrays(blocks + [b]) == FlagArrays(blocks) + {b.emptyFlags}
    ensures ElementArrays(blocks + [b]) == ElementArrays(blocks) + {b.elements}
  {}

  lemma SetsRotate(blocks: seq<Block>)
    requires |blocks| > 0
    ensures var rotated := blocks[1..] + [blocks[0]];
      BlockSet(rotated) == BlockSet(blocks) && FlagArrays(rotated) == FlagArrays(blocks)
        && ElementArrays(rotated) == ElementArrays(blocks)
  {
    var rotated := blocks[1..] + [blocks[0]];
    assert forall b :: b in rotated <==> b in blocks;
  }

  /** Exactly the positions before the head are marked empty; the blocks count from number `first`. */
  ghost predicate Flagged(blocks: seq<Block>, first: nat, head: nat)
    requires Separate(blocks)
    reads FlagArrays(blocks)
  {
    forall k :: 0 <= k < |blocks| ==> FlaggedAt(blocks, first, head, k)
  }

  ghost predicate FlaggedAt(blocks: seq<Block>, first: nat, head: nat, k: nat)
    requires k < |blocks| && blocks[k].Sized()
    reads blocks[k].emptyFlags
  {
    forall j :: 0 <= j < BLOCK_SIZE ==> (blocks[k].Emptied(j) <==> (first + k) * BLOCK_SIZE + j < head)
  }

  /** The blocks hold the contents from index `head` on. */
  ghost predicate Stored(blocks: seq<Block>, first: nat, head: nat, contents: seq<int>)
    requires Separate(blocks)
    reads ElementArrays(blocks)
  {
    forall i :: head <= i < head + |contents| ==>
      InReach(blocks, first, i) && StoredAt(blocks, first, head, contents, i)
  }

  ghost predicate InReach(blocks: seq<Block>, first: nat, i: nat) {
    first <= i / BLOCK_SIZE < first + |blocks| && blocks[i / BLOCK_SIZE - first].Sized()
  }

  ghost predicate StoredAt(blocks: seq<Block>, first: nat, head: nat, contents: seq<int>, i: nat)
    requires InReach(blocks, first, i) && head <= i < head + |contents|
    reads blocks[i / BLOCK_SIZE - first].elements
  {
    blocks[i / BLOCK_SIZE - first].elements[i % BLOCK_SIZE] == contents[i - head]
  }

  /* ---------- Dropping the oldest block, adding a newest one ---------- */

  lemma SeparateAppend(blocks: seq<Block>, b: Block)
    requires Separate(blocks) && b.Sized() && (forall c :: c in blocks ==> Apart(c, b))
    ensures Separate(blocks + [b])
  {
    var all := blocks + [b];
    forall i, j | 0 <= i < j < |all| ensures ApartAt(all, i, j) {
      assert j < |blocks| ==> ApartAt(blocks, i, j);
    }
  }

  lemma SeparateTail(blocks: seq<Block>)
    requires Separate(blocks) && |blocks| > 0
    ensures Separate(blocks[1..]) && forall b :: b in blocks[1..] ==> Apart(b, blocks[0])
  {
    var rest := blocks[1..];
    forall i, j | 0 <= i < j < |rest| ensures ApartAt(rest, i, j) {
      assert ApartAt(blocks, i + 1, j + 1);
    }
    forall i | 0 <= i < |rest| ensures Apart(rest[i], blocks[0]) {
      assert ApartAt(blocks, 0, i + 1);
    }
  }

  lemma FlaggedTail(blocks: seq<Block>, first: nat, head: nat)
    requires Separate(blocks) && |blocks| > 0 && Flagged(blocks, first, head) && Separate(blocks[1..])
    ensures Flagged(blocks[1..], first + 1, head)
  {
    var rest, second := blocks[1..], first + 1;
    forall k | 0 <= k < |rest| ensures FlaggedAt(rest, second, head, k) {
      assert FlaggedAt(blocks, first, head, k + 1);
    }
  }

  /** A block with every element out holds none of the contents. */
  lemma StoredTail(blocks: seq<Block>, first: nat, head: nat, contents: seq<int>)
    requires Separate(blocks) && |blocks| > 0 && Stored(blocks, first, head, contents)
    requires (first + 1) * BLOCK_SIZE <= head
    requires Separate(blocks[1..])
    ensures Stored(blocks[1..], first + 1, head, contents)
  {
    var rest, second := blocks[1..], first + 1;
    forall i | head <= i < head + |contents|
      ensures InReach(rest, second, i) && StoredAt(rest, second, head, contents, i) {
      assert StoredAt(blocks, first, head, contents, i);
    }
  }

  lemma LinkedRotate(blocks: seq<Block>)
    requires |blocks| > 0 && Linked(blocks)
    ensures Linked(blocks[1..] + [blocks[0]])
  {
    var rotated := blocks[1..] + [blocks[0]];
    forall k | 0 <= k < |rotated| - 1 ensures LinkAt(rotated, k) {
      assert k + 1 < |blocks| - 1 ==> LinkAt(blocks, k + 1);
    }
    assert |blocks| > 1 ==> LinkAt(blocks, 0);
  }

  /** A circle of blocks, numbered from `first`, that holds the contents from index `head` on. */
  ghost predicate Holds(blocks: seq<Block>, first: nat, head: nat, contents: seq<int>)
    requires Separate(blocks)
    reads blocks, FlagArrays(blocks), ElementArrays(blocks)
  {
    Linked(blocks) && Flagged(blocks, first, head) && Stored(blocks, first, head, contents)
  }

  /** When every element of the oldest block is out, the others hold the contents. */
  lemma DropOldest(blocks: seq<Block>, first: nat, head: nat, contents: seq<int>)
    requires Separate(blocks) && |blocks| > 0 && Holds(blocks, first, head, contents)
    requires (first + 1) * BLOCK_SIZE <= head
    ensures Separate(blocks[1..]) && Separate(blocks[1..] + [blocks[0]]) && Linked(blocks[1..] + [blocks[0]])
    ensures Flagged(blocks[1..], first + 1, head) && Stored(blocks[1..], first + 1, head, contents)
  {
    LinkedRotate(blocks);
    SeparateTail(blocks);
    FlaggedTail(blocks, first, head);
    StoredTail(blocks, first, head, contents);
    SeparateAppend(blocks[1..], blocks[0]);
  }

  /** Clears the flags of a block about to take the newest number. */
  method ResetForTail(ghost blocks: seq<Block>, b: Block, ghost first: nat, ghost head: nat, ghost contents: seq<int>)
    requires Separate(blocks) && Separate(blocks + [b]) && head <= (first + |blocks|) * BLOCK_SIZE
    requires Linked(blocks + [b]) && Flagged(blocks, first, head) && Stored(blocks, first, head, contents)
    modifies b.emptyFlags
    ensures Holds(blocks + [b], first, head, contents)
  {
    var all := blocks + [b];
    forall k | 0 <= k < |blocks| ensures blocks[k].emptyFlags != b.emptyFlags {
      assert ApartAt(all, k, |blocks|);
    }
    b.ResetEmpty();
    forall k | 0 <= k < |all| ensures FlaggedAt(all, first, head, k) {
      if k < |blocks| {
        assert old(FlaggedAt(blocks, first, head, k));
      }
    }
    forall i | head <= i < head + |contents| ensures InReach(all, first, i) && StoredAt(all, first, head, contents, i) {
      assert old(StoredAt(blocks, first, head, contents, i));
    }
  }

  /** Links a block into the circle after the tail block. */
  method LinkAfterTail(
      ghost blocks: seq<Block>, tailBlock: Block?, b: Block, ghost first: nat, ghost head: nat,
      ghost contents: seq<int>)
    requires Separate(blocks) && Separate(blocks + [b]) && b !in blocks
    requires Holds(blocks, first, head, contents) && tailBlock == (if |blocks| == 0 then null else blocks[|blocks| - 1])
    modifies tailBlock, b
    ensures Linked(blocks + [b]) && Flagged(blocks, first, head) && Stored(blocks, first, head, contents)
  {
    if tailBlock == null {
      b.next := b;
    } else {
      b.next := tailBlock.next;
      tailBlock.next := b;
    }
    var all := blocks + [b];
    forall k | 0 <= k < |all| - 1 ensures LinkAt(all, k) {
      if k < |blocks| - 1 {
        assert old(LinkAt(blocks, k)) && ApartAt(blocks, k, |blocks| - 1);
      }
    }
    assert |blocks| > 1 ==> ApartAt(blocks, 0, |blocks| - 1);
    forall i | head <= i < head + |contents|
      ensures InReach(blocks, first, i) && StoredAt(blocks, first, head, contents, i) {
      assert old(StoredAt(blocks, first, head, contents, i));
    }
  }

  /** Writes an element to the newest block, at the position of the next index. */
  method WriteElement(
      ghost blocks: seq<Block>, block: Block, ghost first: nat, ghost head: nat, ghost tail: nat,
        ghost contents: seq<int>, element: int, position: nat)
    requires Separate(blocks) && |blocks| > 0 && Holds(blocks, first, head, contents) && block == blocks[|blocks| - 1]
    requires tail == head + |contents| && tail / BLOCK_SIZE == first + |blocks| - 1 && position == tail % BLOCK_SIZE
    modifies block.elements
    ensures Holds(blocks, first, head, contents + [element])
  {
    assert block in blocks;
    block.elements[position] := element;
    var longer := contents + [element];
    forall i | head <= i < head + |longer|
      ensures InReach(blocks, first, i) && StoredAt(blocks, first, head, longer, i) {
      if i < tail {
        assert old(StoredAt(blocks, first, head, contents, i));
        var k := i / BLOCK_SIZE - first;
        assert k < |blocks| - 1 ==> ApartAt(blocks, k, |blocks| - 1);
        assert k == |blocks| - 1 ==> i % BLOCK_SIZE != position;
      }
    }
  }

  /** Marks the element at the head as out. */
  method MarkOut(
      ghost blocks: seq<Block>, block: Block, ghost first: nat, ghost head: nat, ghost contents: seq<int>,
      index: Word)
    requires Separate(blocks) && Holds(blocks, first, head, contents) && |contents| > 0
    requires first <= head / BLOCK_SIZE < first + |blocks| && block == blocks[head / BLOCK_SIZE - first]
    requires index % BLOCK_SIZE == head % BLOCK_SIZE
    modifies block.emptyFlags
    ensures Holds(blocks, first, head + 1, contents[1..])
  {
    var mine := head / BLOCK_SIZE - first;
    assert block in blocks && FlaggedAt(blocks, first, head, mine);
    var rest, next := contents[1..], head + 1;
    assert !block.Emptied(index % BLOCK_SIZE);
    block.SetEmpty(index);
    forall k | 0 <= k < |blocks| ensures FlaggedAt(blocks, first, next, k) {
      assert old(FlaggedAt(blocks, first, head, k));
      assert k != mine ==> ApartAt(blocks, if k < mine then k else mine, if k < mine then mine else k);
    }
    forall i | next <= i < next + |rest| ensures InReach(blocks, first, i) && StoredAt(blocks, first, next, rest, i) {
      assert old(StoredAt(blocks, first, head, contents, i));
    }
  }

  /** The limit's check leaves room for one more block within it. */
  lemma WithinLimit(head: nat, tail: nat, first: nat, n: nat, limit: nat)
    requires limit % BLOCK_SIZE == 0 && limit > 0 && tail == (first + n) * BLOCK_SIZE
    requires n > 0 ==> head < (first + 1) * BLOCK_SIZE
    requires n == 0 ==> head == tail
    requires tail - head <= limit - BLOCK_SIZE
    ensures (n + 1) * BLOCK_SIZE <= limit
  {}

  lemma OneMoreOut(optimistic: Word, overcommit: Word, head: nat)
    requires (optimistic - overcommit) % WORD == Wrap(head)
    ensures ((optimistic + 1) % WORD - overcommit) % WORD == Wrap(head + 1)
  {
    ModAdd(optimistic + 1, 0 - overcommit, WORD);
    ModCongruent(optimistic - overcommit, head, 1, WORD);
  }

  /** The fullness check leaves room for one more block within half the index words. */
  lemma RoomForBlock(head: nat, tail: nat, first: nat, n: nat)
    requires head <= tail <= head + HALF && tail == (first + n) * BLOCK_SIZE
    requires n > 0 ==> head < (first + 1) * BLOCK_SIZE
    requires CircularLess(Wrap(head), Wrap(Wrap(tail) + BLOCK_SIZE))
    ensures (n + 1) * BLOCK_SIZE <= HALF
  {
    ModAdd(tail, BLOCK_SIZE, WORD);
    CircularLessExact(head, tail + BLOCK_SIZE);
    assert tail + BLOCK_SIZE - head < HALF by {
      assert tail + BLOCK_SIZE - head <= HALF + BLOCK_SIZE;
      WrapDifference(tail + BLOCK_SIZE, head);
    }
  }

  /** A wrapped index has the same position in its block. */
  lemma WrapPosition(i: nat)
    ensures Wrap(i) % BLOCK_SIZE == i % BLOCK_SIZE
  {
    ModOfMultiple(i, BLOCK_SIZE, BLOCK_WORDS);
  }

  lemma TailAtEnd(tail: nat, end: nat)
    requires tail % BLOCK_SIZE == 0 && tail <= end * BLOCK_SIZE && (end - 1) * BLOCK_SIZE < tail
    ensures tail == end * BLOCK_SIZE
  {}

  /** The oldest block is empty exactly when the head has passed it. */
  lemma EmptyWhenPassed(blocks: seq<Block>, first: nat, head: nat)
    requires Separate(blocks) && |blocks| > 0 && Flagged(blocks, first, head) && blocks[0].Sized()
    ensures (forall j :: 0 <= j < BLOCK_SIZE ==> blocks[0].Emptied(j)) <==> (first + 1) * BLOCK_SIZE <= head
  {
    assert FlaggedAt(blocks, first, head, 0);
    if forall j :: 0 <= j < BLOCK_SIZE ==> blocks[0].Emptied(j) {
      assert blocks[0].Emptied(BLOCK_SIZE - 1);
    }
  }

  /** Twice either size a new producer may start with is a ring size. */
  lemma FirstSizes(poolSize: nat, rounded: nat)
    requires poolSize <= BLOCK_WORDS && if poolSize == 0 then rounded == 0 else Bits.LeastPower(rounded, poolSize)
    ensures RingSize(INITIAL_INDEX_SIZE) && (rounded > 1 ==> RingSize(rounded) && rounded % 2 == 0)
  {
    FirstSize();
    if rounded > 1 {
      var n: nat :| rounded == Pow2(n);
      var top := RoundedFits(poolSize, rounded);
      PowerIsRing(n, top);
    }
  }

  lemma FirstSize()
    ensures RingSize(INITIAL_INDEX_SIZE)
  {
    assert Pow2(5) == INITIAL_INDEX_SIZE;
  }

  lemma PowerIsRing(n: nat, top: nat)
    requires 1 < Pow2(n) <= Pow2(top) && top <= 59
    ensures RingSize(Pow2(n)) && Pow2(n) % 2 == 0
  {
    Pow2Bounded(n, top);
  }

  lemma RoundedFits(poolSize: nat, rounded: nat) returns (top: nat)
    requires poolSize <= BLOCK_WORDS && Bits.LeastPower(rounded, poolSize)
    ensures top == 59 && rounded <= Pow2(top)
  {
    WordPowers();
    top := 59;
  }

  /** Within half the index words, the wrapped comparison of head and tail says whether elements are
      stored, unless they are exactly half the words apart. */
  lemma StoredExactly(head: nat, tail: nat)
    requires head <= tail <= head + HALF
    ensures CircularLess(Wrap(head), Wrap(tail)) <==> 0 < tail - head < HALF
  {
    CircularLessExact(head, tail);
  }

  /** What `MAX_SUBQUEUE_SIZE` can be: a whole number of blocks, or the largest word for no limit. */
  predicate Rounded(limit: Word) {
    limit == WORD - 1 || limit % BLOCK_SIZE == 0
  }

  class ExplicitProducer {
    /** `MAX_SUBQUEUE_SIZE`. */
    const limit: Word

    var tailIndex: Word
    var headIndex: Word
    var dequeueOptimisticCount: Word
    var dequeueOvercommit: Word
    var tailBlock: Block?

    var blockIndex: BlockIndexHeader?
    var pr_blockIndexSlotsUsed: nat
    var pr_blockIndexSize: nat
    var pr_blockIndexFront: nat
    var pr_blockIndexEntries: array?<IndexEntry>

    /** The stored elements, oldest first; all that were ever enqueued; and all that were dequeued. */
    ghost var contents: seq<int>
    ghost var enqueued: seq<int>
    ghost var dequeued: seq<int>

    /** The indices themselves, the circular list starting after the tail block, and the number of its
        first block. */
    ghost var head: nat
    ghost var tail: nat
    ghost var blocks: seq<Block>
    ghost var first: nat

    /** The objects the queue owns. */
    ghost function Repr(): set<object>
      reads this`blocks, this`blockIndex
    {
      {this} + BlockSet(blocks) + FlagArrays(blocks) + ElementArrays(blocks)
      + (if blockIndex == null then {} else {blockIndex, blockIndex.entries})
    }

    /** `claims` is the number of dequeues between raising the optimistic count and raising the head. */
    ghost predicate CountersOk(claims: nat)
      reads this`tailIndex, this`headIndex, this`dequeueOptimisticCount, this`dequeueOvercommit, this`head,
        this`tail, this`contents
    {
      && tailIndex == Wrap(tail) && headIndex == Wrap(head) && head + |contents| == tail
      && (dequeueOptimisticCount - dequeueOvercommit) % WORD == Wrap(head + claims)
      && Rounded(limit)
    }

    /** So many blocks span at most half the index words, and at most the limit. */
    predicate Fits(n: nat) {
      n * BLOCK_SIZE <= HALF && (limit != WORD - 1 ==> n * BLOCK_SIZE <= limit)
    }

    ghost predicate ListOk()
      reads this`blocks, this`first, this`head, this`pr_blockIndexSlotsUsed, this`tailBlock
    {
      && Fits(|blocks|) && first * BLOCK_SIZE <= head
      && pr_blockIndexSlotsUsed == |blocks|
      && tailBlock == (if |blocks| == 0 then null else blocks[|blocks| - 1])
    }

    ghost predicate IndexOk()
      reads this`blocks, this`first, this`blockIndex, this`pr_blockIndexEntries, this`pr_blockIndexSize,
        this`pr_blockIndexFront
      reads blockIndex, if blockIndex == null then {} else {blockIndex.entries}
    {
      if blockIndex == null then |blocks| == 0 && pr_blockIndexEntries == null && RingSize(2 * pr_blockIndexSize)
      else
        && pr_blockIndexEntries == blockIndex.entries
        && blockIndex.size == pr_blockIndexSize == blockIndex.entries.Length
        && RingSize(pr_blockIndexSize) && pr_blockIndexFront < pr_blockIndexSize && |blocks| <= pr_blockIndexSize
        && Window(blockIndex.entries[..], pr_blockIndexFront, blocks, first)
        && (|blocks| > 0 ==> blockIndex.front == Before(pr_blockIndexFront, 1, pr_blockIndexSize))
    }

    /** All but where the tail stands in its block. */
    ghost predicate Coherent(claims: nat)
      reads this, Repr()
    {
      && Separate(blocks) && CountersOk(claims) && ListOk() && IndexOk()
      && Holds(blocks, first, head, contents)
    }

    ghost predicate Valid()
      reads this, Repr()
    {
      Claimed(0)
    }

    /** Elements come out in the order they went in. */
    ghost predicate InOrder()
      reads this`enqueued, this`dequeued, this`contents
    {
      enqueued == dequeued + contents
    }

    ghost predicate Claimed(claims: nat)
      reads this, Repr()
    {
      && Coherent(claims) && InOrder()
      && tail <= (first + |blocks|) * BLOCK_SIZE
      && (if |blocks| == 0 then tail == 0 else (first + |blocks| - 1) * BLOCK_SIZE < tail)
    }

    /** The block ahead of the tail can be used again: all its elements are out. */
    ghost predicate CanReuse()
      reads this
    {
      |blocks| > 0 && (first + 1) * BLOCK_SIZE <= head
    }

    /** The check before a new block is added. */
    predicate Full()
      reads this
    {
      || !CircularLess(headIndex, Wrap(tailIndex + BLOCK_SIZE))
      || (limit != WORD - 1 && (limit == 0 || limit - BLOCK_SIZE < (tailIndex - headIndex) % WORD))
    }

    /** The ring has an entry to spare, or does once it doubles. */
    ghost predicate HasSlot(granted: bool)
      reads this
    {
      granted || (blockIndex != null && |blocks| < pr_blockIndexSize)
    }

    /** `granted` says whether allocating the first index succeeds; the initial pool's blocks fit the
        address space. */
    constructor (limit: Word, initialBlockPoolSize: nat, granted: bool)
      requires Rounded(limit)
      requires initialBlockPoolSize <= BLOCK_WORDS
      ensures Valid() && fresh(Repr()) && contents == [] && this.limit == limit && HasSlot(false) == granted
      ensures head == 0 && tail == 0 && first == 0
    {
      var poolBasedIndexSize := Bits.CeilToPow2(initialBlockPoolSize);
      FirstSizes(initialBlockPoolSize, poolBasedIndexSize);
      this.limit := limit;
      tailIndex, headIndex, dequeueOptimisticCount, dequeueOvercommit := 0, 0, 0, 0;
      tailBlock, blockIndex, pr_blockIndexEntries := null, null, null;
      pr_blockIndexSlotsUsed, pr_blockIndexFront := 0, 0;
      pr_blockIndexSize :=
        if poolBasedIndexSize / 2 > INITIAL_INDEX_SIZE / 2 then poolBasedIndexSize / 2 else INITIAL_INDEX_SIZE / 2;
      contents, head, tail, blocks, first := [], 0, 0, [], 0;
      enqueued, dequeued := [], [];
      new;
      var _ := NewBlockIndex(0, granted);
    }

    /** What growing the index leaves alone. */
    twostate predicate SameQueue()
      reads this
    {
      && contents == old(contents) && enqueued == old(enqueued) && dequeued == old(dequeued)
      && head == old(head) && tail == old(tail) && blocks == old(blocks) && first == old(first)
      && tailIndex == old(tailIndex) && headIndex == old(headIndex) && tailBlock == old(tailBlock)
    }

    /** Doubles the ring, copying the entries in use to its start; `exposed` is their number. */
    method NewBlockIndex(exposed: nat, granted: bool) returns (ok: bool)
      requires Valid() && exposed == |blocks|
      requires blockIndex != null ==> |blocks| == pr_blockIndexSize && RingSize(2 * pr_blockIndexSize)
      modifies this`blockIndex, this`pr_blockIndexSize, this`pr_blockIndexFront, this`pr_blockIndexEntries
      ensures Valid() && ok == granted && SameQueue() && fresh(Repr() - old(Repr()))
      ensures ok ==> HasSlot(false)
      ensures if ok then blockIndex != null && fresh(blockIndex) && fresh(blockIndex.entries)
              else blockIndex == old(blockIndex)
    {
      if !granted {
        return false;
      }
      var _ := RingSizeDivides(2 * pr_blockIndexSize);
      var header := CopiedHeader(2 * pr_blockIndexSize, exposed);
      Install(header, exposed);
      return true;
    }

    /** A new header of the given size that starts with the entries in use, oldest first. */
    method CopiedHeader(newSize: nat, exposed: nat) returns (header: BlockIndexHeader)
      requires IndexOk() && exposed == |blocks| == pr_blockIndexSlotsUsed && RingSize(newSize) && |blocks| < newSize
      ensures fresh(header) && fresh(header.entries) && header.size == header.entries.Length == newSize
      ensures exposed > 0 ==> header.front == Before(exposed, 1, newSize)
      ensures newSize > 0 && Window(header.entries[..], exposed, blocks, first)
    {
      var _ := RingSizeDivides(newSize);
      var newEntries := new IndexEntry[newSize];
      var j := CopyEntries(newEntries, pr_blockIndexSize);
      if pr_blockIndexSlotsUsed != 0 {
        WindowCopied(pr_blockIndexEntries[..], pr_blockIndexFront, blocks, first, newEntries[..]);
        DivModUnique(j - 1, 0, j - 1, newSize);
      }
      header := new BlockIndexHeader(newSize, newEntries, exposed - 1);
    }

    /** Publishes a new header. */
    method Install(header: BlockIndexHeader, front: nat)
      requires header.size == header.entries.Length && RingSize(header.size) && header.size > 0
      requires front > 0 ==> header.front == Before(front, 1, header.size)
      requires front == |blocks| < header.size && Window(header.entries[..], front, blocks, first)
      requires Separate(blocks) && Holds(blocks, first, head, contents)
      modifies this`blockIndex, this`pr_blockIndexSize, this`pr_blockIndexFront, this`pr_blockIndexEntries
      ensures IndexOk() && HasSlot(false) && blockIndex == header && Holds(blocks, first, head, contents)
    {
      pr_blockIndexSize := header.size;
      pr_blockIndexFront := front;
      pr_blockIndexEntries := header.entries;
      blockIndex := header;
    }

    /** The copy loop of `new_block_index`: from the oldest entry in use to the newest. */
    method CopyEntries(newEntries: array<IndexEntry>, oldSize: nat) returns (j: nat)
      requires pr_blockIndexSlotsUsed > 0 ==>
        pr_blockIndexEntries != null && pr_blockIndexEntries.Length == oldSize
          && pr_blockIndexSlotsUsed <= oldSize && pr_blockIndexFront < oldSize
      requires newEntries != pr_blockIndexEntries && pr_blockIndexSlotsUsed <= newEntries.Length
      modifies newEntries
      ensures j == pr_blockIndexSlotsUsed
      ensures forall k :: 0 <= k < j ==>
        newEntries[k] == pr_blockIndexEntries[Before(pr_blockIndexFront, j - k, oldSize)]
    {
      j := 0;
      if pr_blockIndexSlotsUsed != 0 {
        var used, front := pr_blockIndexSlotsUsed, pr_blockIndexFront;
        var i := Before(front, used, oldSize);
        while true
          invariant 0 <= j < used && i == Before(front, used - j, oldSize)
          invariant forall k :: 0 <= k < j ==> newEntries[k] == pr_blockIndexEntries[Before(front, used - k, oldSize)]
          decreases used - j
        {
          newEntries[j] := pr_blockIndexEntries[i];
          j := j + 1;
          ModAdd(front - (used - j + 1), 1, oldSize);
          i := (i + 1) % oldSize;
          if i == front {
            if j < used {
              SlotsApart(front, used - j, oldSize);
            }
            break;
          }
          DivModUnique(front, 0, front, oldSize);
        }
      }
    }

    /** Puts the tail block on the index: its entry at the front makes ring and list agree. */
    method PublishEntry(base: Word)
      requires blockIndex != null && pr_blockIndexEntries == blockIndex.entries
      requires blockIndex.size == pr_blockIndexSize == blockIndex.entries.Length && RingSize(pr_blockIndexSize)
      requires pr_blockIndexFront < pr_blockIndexSize && 0 < |blocks| <= pr_blockIndexSize
      requires Window(blockIndex.entries[..][pr_blockIndexFront := IndexEntry(base, tailBlock)],
                      (pr_blockIndexFront + 1) % pr_blockIndexSize, blocks, first)
      requires Separate(blocks) && Holds(blocks, first, head, contents)
      modifies this`pr_blockIndexFront, blockIndex`front, blockIndex.entries
      ensures IndexOk() && Holds(blocks, first, head, contents)
    {
      FrontSlot(pr_blockIndexFront, pr_blockIndexSize);
      ghost var entries := blockIndex.entries[..];
      ghost var front := pr_blockIndexFront;
      blockIndex.entries[pr_blockIndexFront] := IndexEntry(base, tailBlock);
      blockIndex.front := pr_blockIndexFront;
      pr_blockIndexFront := (pr_blockIndexFront + 1) % pr_blockIndexSize;
      assert blockIndex.entries[..] == entries[front := IndexEntry(base, tailBlock)];
      forall i | head <= i < head + |contents|
        ensures InReach(blocks, first, i) && StoredAt(blocks, first, head, contents, i) {
        assert old(StoredAt(blocks, first, head, contents, i));
      }
    }

    /** Makes `block` the tail block of the given circle. */
    method SetTail(block: Block, used: nat, ghost circle: seq<Block>, ghost number: nat)
      requires Separate(circle) && |circle| > 0 && block == circle[|circle| - 1]
      requires Holds(circle, number, head, contents)
      modifies this`tailBlock, this`pr_blockIndexSlotsUsed, this`blocks, this`first
      ensures tailBlock == block && pr_blockIndexSlotsUsed == used && blocks == circle && first == number
      ensures Holds(blocks, first, head, contents)
    {
      tailBlock, pr_blockIndexSlotsUsed := block, used;
      blocks, first := circle, number;
    }

    /** Makes the block ahead, whose elements are all out, the tail block. */
    method ReuseBlock()
      requires Separate(blocks) && ListOk() && CanReuse() && head <= (first + |blocks|) * BLOCK_SIZE
      requires Holds(blocks, first, head, contents)
      modifies this`tailBlock, this`pr_blockIndexSlotsUsed, this`blocks, this`first
      modifies blocks[0].emptyFlags
      ensures Separate(blocks) && ListOk() && blocks == old(blocks[1..] + [blocks[0]]) && first == old(first) + 1
      ensures Holds(blocks, first, head, contents)
    {
      var block := tailBlock.next;
      ghost var rest, circle := blocks[1..], blocks[1..] + [block];
      DropOldest(blocks, first, head, contents);
      ResetForTail(rest, block, first + 1, head, contents);
      SetTail(block, pr_blockIndexSlotsUsed, circle, first + 1);
    }

    /** Links a newly acquired block in after the tail block and makes it the tail block. */
    method InsertBlock(newBlock: Block)
      requires Separate(blocks) && ListOk() && newBlock.Sized() && (forall b :: b in blocks ==> Apart(b, newBlock))
      requires Fits(|blocks| + 1) && head <= (first + |blocks|) * BLOCK_SIZE
      requires Holds(blocks, first, head, contents)
      modifies this`tailBlock, this`pr_blockIndexSlotsUsed, this`blocks, this`first
      modifies tailBlock, newBlock, newBlock.emptyFlags
      ensures Separate(blocks) && ListOk() && blocks == old(blocks) + [newBlock] && first == old(first)
      ensures Holds(blocks, first, head, contents)
    {
      SeparateAppend(blocks, newBlock);
      LinkAfterTail(blocks, tailBlock, newBlock, first, head, contents);
      ResetForTail(blocks, newBlock, first, head, contents);
      SetTail(newBlock, pr_blockIndexSlotsUsed + 1, blocks + [newBlock], first);
    }

    /** The new-block branch of `enqueue` that reuses the block ahead. */
    method StartReused()
      requires Valid() && tail % BLOCK_SIZE == 0 && CanReuse() && blockIndex != null
      modifies this, blocks[0].emptyFlags, blockIndex, blockIndex.entries
      ensures Coherent(0) && InOrder() && SameElements() && first == old(first) + 1
      ensures |blocks| > 0 && tail == (first + |blocks| - 1) * BLOCK_SIZE && Repr() == old(Repr())
    {
      SetsRotate(blocks);
      ghost var entries := blockIndex.entries[..];
      TailAtEnd(tail, first + |blocks|);
      WindowRotate(entries, pr_blockIndexFront, blocks, first);
      ReuseBlock();
      assert blockIndex.entries[..] == entries;
      PublishEntry(tailIndex);
    }

    /** The new-block branch of `enqueue` that adds a block. */
    method StartAdded(newBlock: Block)
      requires Valid() && tail % BLOCK_SIZE == 0 && Fits(|blocks| + 1) && HasSlot(false) && blockIndex != null
      requires newBlock.Sized() && (forall b :: b in blocks ==> Apart(b, newBlock))
      modifies this, tailBlock, newBlock, newBlock.emptyFlags, blockIndex, blockIndex.entries
      ensures Coherent(0) && InOrder() && SameElements() && first == old(first) && blockIndex == old(blockIndex)
      ensures |blocks| > 0 && tail == (first + |blocks| - 1) * BLOCK_SIZE && blocks == old(blocks) + [newBlock]
    {
      ghost var entries := blockIndex.entries[..];
      TailAtEnd(tail, first + |blocks|);
      WindowAppend(entries, pr_blockIndexFront, blocks, first, newBlock);
      InsertBlock(newBlock);
      assert blockIndex.entries[..] == entries;
      PublishEntry(tailIndex);
    }

    /** The queue may have taken ownership of the new block and of new memory, and of nothing else. */
    twostate predicate OwnsMore(newBlock: Block?)
      reads this`blocks, this`blockIndex
    {
      forall o :: o in Repr() && o !in old(Repr()) && o !in BlockRepr(newBlock) ==> fresh(o)
    }

    /** The elements and the indices stay as they were. */
    twostate predicate SameElements()
      reads this
    {
      && contents == old(contents) && enqueued == old(enqueued) && dequeued == old(dequeued) && head == old(head)
      && tail == old(tail)
      && tailIndex == old(tailIndex) && headIndex == old(headIndex)
    }

    /** `newBlock` is what requisitioning a block would give, and `granted` whether allocating an index
        would succeed. */
    ghost predicate Offered(newBlock: Block?)
      reads this
    {
      newBlock != null ==> newBlock.Sized() && BlockRepr(newBlock) !! Repr()
    }

    lemma OfferedApart(newBlock: Block)
      requires Offered(newBlock)
      ensures forall b :: b in blocks ==> Apart(b, newBlock)
    {
      assert newBlock in BlockRepr(newBlock) && newBlock.emptyFlags in BlockRepr(newBlock)
        && newBlock.elements in BlockRepr(newBlock);
      forall b | b in blocks ensures Apart(b, newBlock) {
        assert b in Repr() && b.emptyFlags in Repr() && b.elements in Repr();
      }
    }

    /** The block ahead exists and is empty. */
    method NextIsEmpty() returns (reuse: bool)
      requires Separate(blocks) && ListOk() && Holds(blocks, first, head, contents)
      ensures reuse <==> CanReuse()
    {
      if tailBlock == null {
        return false;
      }
      var next := tailBlock.next;
      reuse := next.IsEmpty();
      EmptyWhenPassed(blocks, first, head);
    }

    lemma AddFits()
      requires Valid() && tail % BLOCK_SIZE == 0 && !CanReuse() && !Full()
      ensures Fits(|blocks| + 1)
      ensures |blocks| == pr_blockIndexSize ==> RingSize(2 * pr_blockIndexSize)
    {
      TailAtEnd(tail, first + |blocks|);
      RoomForBlock(head, tail, first, |blocks|);
      WrapDifference(tail, head);
      if limit != WORD - 1 {
        WithinLimit(head, tail, first, |blocks|, limit);
      }
      if |blocks| == pr_blockIndexSize {
        RingSizeDoubles(pr_blockIndexSize);
      }
    }

    /** Makes sure that the index has a slot to spare, doubling it if it is full. */
    method EnsureSlot(granted: bool) returns (ok: bool)
      requires Valid() && tail % BLOCK_SIZE == 0 && !CanReuse() && !Full()
      modifies this`blockIndex, this`pr_blockIndexSize, this`pr_blockIndexFront, this`pr_blockIndexEntries
      ensures Valid() && SameQueue() && fresh(Repr() - old(Repr()))
      ensures ok == old(HasSlot(granted)) && (ok ==> HasSlot(false))
      ensures blockIndex != old(blockIndex) ==> blockIndex != null && fresh(blockIndex) && fresh(blockIndex.entries)
    {
      AddFits();
      if blockIndex == null || pr_blockIndexSlotsUsed == pr_blockIndexSize {
        ok := NewBlockIndex(pr_blockIndexSlotsUsed, granted);
      } else {
        ok := true;
      }
    }

    /** Adding a block after the fullness check. */
    method AddBlock(newBlock: Block?, granted: bool) returns (ok: bool)
      requires Valid() && tail % BLOCK_SIZE == 0 && !CanReuse() && !Full() && Offered(newBlock)
      modifies Repr(), BlockRepr(newBlock)
      ensures Coherent(0) && InOrder() && SameElements() && first == old(first)
      ensures ok == (old(HasSlot(granted)) && newBlock != null)
      ensures if ok then |blocks| > 0 && tail == (first + |blocks| - 1) * BLOCK_SIZE else Valid()
      ensures OwnsMore(newBlock)
    {
      AddFits();
      ok := EnsureSlot(granted);
      if !ok || newBlock == null {
        return false;
      }
      AddOffered(newBlock);
    }

    method AddOffered(newBlock: Block)
      requires Valid() && tail % BLOCK_SIZE == 0 && Fits(|blocks| + 1) && HasSlot(false) && blockIndex != null
      requires Offered(newBlock)
      modifies Repr(), BlockRepr(newBlock)
      ensures Coherent(0) && InOrder() && SameElements() && first == old(first)
      ensures |blocks| > 0 && tail == (first + |blocks| - 1) * BLOCK_SIZE
      ensures Repr() <= old(Repr()) + BlockRepr(newBlock)
    {
      OfferedApart(newBlock);
      SetsAppend(blocks, newBlock);
      assert tailBlock != null ==> tailBlock in Repr();
      StartAdded(newBlock);
    }

    /** The new-block branch of `enqueue`, taken at the end of the tail block. */
    method StartBlock(newBlock: Block?, granted: bool) returns (ok: bool)
      requires Valid() && tail % BLOCK_SIZE == 0 && Offered(newBlock)
      modifies Repr(), BlockRepr(newBlock)
      ensures Coherent(0) && InOrder() && SameElements() && first == old(if CanReuse() then first + 1 else first)
      ensures ok == old(CanReuse() || (!Full() && HasSlot(granted) && newBlock != null))
      ensures if ok then |blocks| > 0 && tail == (first + |blocks| - 1) * BLOCK_SIZE else Valid()
      ensures OwnsMore(newBlock)
    {
      var reuse := NextIsEmpty();
      if reuse {
        StartReused();
        ok := true;
      } else if Full() {
        ok := false;
      } else {
        ok := AddBlock(newBlock, granted);
      }
    }

    /** Writes the element at the tail and publishes the new tail. */
    method StoreElement(element: int)
      requires Coherent(0) && InOrder()
      requires |blocks| > 0 && (first + |blocks| - 1) * BLOCK_SIZE <= tail < (first + |blocks|) * BLOCK_SIZE
      modifies this`tailIndex, this`tail, this`contents, this`enqueued, blocks[|blocks| - 1].elements
      ensures Valid() && Repr() == old(Repr())
      ensures contents == old(contents) + [element] && enqueued == old(enqueued) + [element] && tail == old(tail) + 1
    {
      ghost var longer := contents + [element];
      DivModUnique(tail, first + |blocks| - 1, tail - (first + |blocks| - 1) * BLOCK_SIZE, BLOCK_SIZE);
      WrapPosition(tail);
      WriteElement(blocks, tailBlock, first, head, tail, contents, element, tailIndex % BLOCK_SIZE);
      enqueued := enqueued + [element];
      RaiseTail(longer);
    }

    /** Moves the tail past an element just written. */
    method RaiseTail(ghost longer: seq<int>)
      requires Separate(blocks) && Holds(blocks, first, head, longer) && tailIndex == Wrap(tail)
      modifies this`tail, this`tailIndex, this`contents
      ensures tail == old(tail) + 1 && tailIndex == Wrap(tail) && contents == longer
      ensures Holds(blocks, first, head, contents)
    {
      ModAdd(tail, 1, WORD);
      tailIndex := (tailIndex + 1) % WORD;
      tail, contents := tail + 1, longer;
    }

    lemma TailInBlock()
      requires Valid() && tail % BLOCK_SIZE != 0
      ensures |blocks| > 0 && (first + |blocks| - 1) * BLOCK_SIZE <= tail < (first + |blocks|) * BLOCK_SIZE
    {}

    /** There is a place for one more element, possibly in a block that can be had. */
    ghost predicate Room(newBlock: Block?, granted: bool)
      reads this
    {
      tail % BLOCK_SIZE != 0 || CanReuse() || (AllowsBlock() && HasSlot(granted) && newBlock != null)
    }

    /** With another whole block the elements stay below half the words and within the limit. */
    ghost predicate AllowsBlock()
      reads this
    {
      |contents| + BLOCK_SIZE < HALF && (limit == WORD - 1 || |contents| + BLOCK_SIZE <= limit)
    }

    /** The check made on words before a block is added says just that. */
    lemma FullExact()
      requires Valid()
      ensures Full() <==> !AllowsBlock()
    {
      ModAdd(tail, BLOCK_SIZE, WORD);
      WrapDifference(tail, head);
      CircularLessExact(head, tail + BLOCK_SIZE);
      if tail + BLOCK_SIZE - head >= HALF {
        WrapDifference(tail + BLOCK_SIZE, head);
      }
    }

    /** `enqueue`: appends the element, or leaves the contents alone exactly when there is no room. */
    method Enqueue(element: int, newBlock: Block?, granted: bool) returns (ok: bool)
      requires Valid() && Offered(newBlock)
      modifies Repr(), BlockRepr(newBlock)
      ensures Valid() && OwnsMore(newBlock)
      ensures ok == old(Room(newBlock, granted))
      ensures contents == if ok then old(contents) + [element] else old(contents)
      ensures enqueued == (if ok then old(enqueued) + [element] else old(enqueued)) && dequeued == old(dequeued)
      ensures head == old(head) && tail == old(tail) + (if ok then 1 else 0)
      ensures first == old(if tail % BLOCK_SIZE == 0 && CanReuse() then first + 1 else first)
    {
      WrapPosition(tail);
      if tailIndex % BLOCK_SIZE == 0 {
        FullExact();
        ok := StartBlock(newBlock, granted);
        if ok {
          StoreElement(element);
        }
      } else {
        TailInBlock();
        StoreElement(element);
        ok := true;
      }
    }

    /** The block that the consumer's lookup finds for the head index is the oldest that holds anything. */
    method FindHeadBlock(index: Word) returns (block: Block)
      requires Claimed(1) && |contents| > 0 && index == headIndex
      ensures first <= head / BLOCK_SIZE < first + |blocks| && block == blocks[head / BLOCK_SIZE - first]
    {
      var entries, position := blockIndex.entries, blockIndex.front;
      assert StoredAt(blocks, first, head, contents, head);
      LookupFinds(entries[..], pr_blockIndexFront, blocks, first, head);
      block := entries[SlotFrom(position, entries[position].base, index, blockIndex.size)].block;
    }

    /** Marks the head's element as out and moves the head. */
    method EmptyHead(block: Block, index: Word)
      requires Claimed(1) && |contents| > 0 && index == headIndex
      requires first <= head / BLOCK_SIZE < first + |blocks| && block == blocks[head / BLOCK_SIZE - first]
      modifies this`head, this`headIndex, this`contents, this`dequeued, block.emptyFlags
      ensures Valid() && contents == old(contents[1..]) && head == old(head) + 1
      ensures dequeued == old(dequeued) + [old(contents[0])]
    {
      ghost var rest := contents[1..];
      WrapPosition(head);
      MarkOut(blocks, block, first, head, contents, index);
      assert contents == [contents[0]] + rest;
      dequeued := dequeued + [contents[0]];
      RaiseHead(rest);
    }

    /** Moves the head past an element marked as out. */
    method RaiseHead(ghost rest: seq<int>)
      requires Separate(blocks) && Holds(blocks, first, head + 1, rest) && headIndex == Wrap(head)
      modifies this`head, this`headIndex, this`contents
      ensures head == old(head) + 1 && headIndex == Wrap(head) && contents == rest
      ensures Holds(blocks, first, head, contents)
    {
      ModAdd(head, 1, WORD);
      headIndex := (headIndex + 1) % WORD;
      head, contents := head + 1, rest;
    }

    /** `dequeue`: takes the oldest element. Exactly half the index words of stored elements, which the
        block-reuse path does not rule out, read as none. */
    method Dequeue() returns (ok: bool, element: int)
      requires Valid()
      modifies Repr()
      ensures Valid() && Repr() == old(Repr())
      ensures ok == (0 < |old(contents)| < HALF)
      ensures if ok then element == old(contents[0]) && contents == old(contents[1..]) else contents == old(contents)
      ensures dequeued == (if ok then old(dequeued) + [element] else old(dequeued)) && enqueued == old(enqueued)
      ensures head == old(head) + (if ok then 1 else 0) && tail == old(tail) && first == old(first)
    {
      var overcommit := dequeueOvercommit;
      StoredExactly(head, tail);
      if CircularLess((dequeueOptimisticCount - overcommit) % WORD, tailIndex) {
        var myDequeueCount := dequeueOptimisticCount;
        OneMoreOut(dequeueOptimisticCount, overcommit, head);
        dequeueOptimisticCount := (dequeueOptimisticCount + 1) % WORD;
        if CircularLess((myDequeueCount - overcommit) % WORD, tailIndex) {
          element := TakeHead();
          return true, element;
        } else {
          assert false;
        }
      }
      return false, 0;
    }

    /** The part of `dequeue` after its claim is known to be good. */
    method TakeHead() returns (element: int)
      requires Claimed(1) && |contents| > 0
      modifies Repr()
      ensures Valid() && Repr() == old(Repr())
      ensures element == old(contents[0]) && contents == old(contents[1..])
      ensures dequeued == old(dequeued) + [element] && enqueued == old(enqueued)
      ensures head == old(head) + 1 && tail == old(tail) && first == old(first)
    {
      var index := headIndex;
      var block := FindHeadBlock(index);
      HeadElement();
      WrapPosition(head);
      element := block.elements[index % BLOCK_SIZE];
      EmptyHead(block, index);
    }

    lemma HeadElement()
      requires Claimed(1) && |contents| > 0
      ensures InReach(blocks, first, head)
      ensures blocks[head / BLOCK_SIZE - first].elements[head % BLOCK_SIZE] == contents[0]
    {
      assert StoredAt(blocks, first, head, contents, head);
    }

    /** However blocks are reused, never more elements are stored than the limit allows. */
    lemma StaysWithinLimit()
      requires Valid()
      ensures |contents| <= HALF && (limit != WORD - 1 ==> |contents| <= limit)
    {}

    /** `size_approx` with no operation under way. */
    function SizeApprox(): (size: Word)
      requires Valid()
      reads this, Repr()
      ensures size == if |contents| < HALF then |contents| else 0
    {
      StoredExactly(head, tail);
      if CircularLess(headIndex, tailIndex) then
        WrapDifference(tail, head);
        (tailIndex - headIndex) % WORD
      else
        0
    }
  }
}
