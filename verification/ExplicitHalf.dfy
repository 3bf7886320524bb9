/** How an explicit producer comes to hold exactly 2^63 elements, which every check reads as none. */
module ExplicitHalf {
  import opened Words
  import opened ExplicitRing
  import opened ExplicitQueue

  /** An enqueue at index `i` finds room without reusing a block. */
  ghost predicate RoomAt(head: nat, i: nat) {
    i % BLOCK_SIZE != 0 || i + BLOCK_SIZE - head < HALF
  }

  ghost predicate RoomFrom(head: nat, tail: nat, count: nat) {
    forall i :: tail <= i < tail + count ==> RoomAt(head, i)
  }

  /** One enqueue with every allocation granted. */
  method Add(q: ExplicitProducer)
    requires q.Valid() && q.limit == WORD - 1 && (RoomAt(q.head, q.tail) || q.CanReuse())
    modifies q.Repr()
    ensures q.Valid() && q.OwnsMore(null) && |q.contents| == |old(q.contents)| + 1
    ensures q.head == old(q.head) && q.tail == old(q.tail) + 1
    ensures q.first == old(if q.tail % BLOCK_SIZE == 0 && q.CanReuse() then q.first + 1 else q.first)
  {
    var block := new Block();
    var ok := q.Enqueue(0, block, true);
  }

  method AddMany(q: ExplicitProducer, count: nat)
    requires q.Valid() && q.limit == WORD - 1 && q.head < (q.first + 1) * BLOCK_SIZE
    requires RoomFrom(q.head, q.tail, count)
    modifies q.Repr()
    ensures q.Valid() && q.OwnsMore(null) && |q.contents| == |old(q.contents)| + count
    ensures q.head == old(q.head) && q.tail == old(q.tail) + count && q.first == old(q.first)
  {
    ghost var head, tail, first, size := q.head, q.tail, q.first, |q.contents|;
    var i := 0;
    while i < count
      invariant 0 <= i <= count && q.Valid() && q.OwnsMore(null)
      invariant |q.contents| == size + i && q.head == head && q.tail == tail + i && q.first == first
    {
      assert RoomAt(head, tail + i);
      Add(q);
      i := i + 1;
    }
  }

  method TakeMany(q: ExplicitProducer, count: nat)
    requires q.Valid() && count <= |q.contents| < HALF
    modifies q.Repr()
    ensures q.Valid() && q.Repr() == old(q.Repr()) && |q.contents| == |old(q.contents)| - count
    ensures q.head == old(q.head) + count && q.tail == old(q.tail) && q.first == old(q.first)
  {
    var i := 0;
    while i < count
      invariant 0 <= i <= count && q.Valid() && q.Repr() == old(q.Repr())
      invariant |q.contents| == |old(q.contents)| - i
      invariant q.head == old(q.head) + i && q.tail == old(q.tail) && q.first == old(q.first)
    {
      var ok, element := q.Dequeue();
      i := i + 1;
    }
  }

  /** With one element out, the checks let every block up to index 2^63 in. */
  lemma RoomBelowHalf()
    ensures RoomFrom(1, 1, HALF - 1)
  {}

  /** No check is made within the block that starts there. */
  lemma RoomWithinBlock()
    ensures RoomFrom(BLOCK_SIZE, HALF + 1, BLOCK_SIZE - 1)
  {}

  /** Everything but the last block, and the first block empty. */
  method FillWords() returns (q: ExplicitProducer)
    ensures fresh(q.Repr()) && q.Valid() && q.limit == WORD - 1
    ensures q.head == BLOCK_SIZE && q.tail == HALF && q.first == 0 && |q.contents| == HALF - BLOCK_SIZE
  {
    q := new ExplicitProducer(WORD - 1, 0, true);
    Add(q);
    TakeMany(q, 1);
    assert q.head == 1 && q.tail == 1 && q.first == 0 && fresh(q.Repr());
    RoomBelowHalf();
    AddMany(q, HALF - 1);
    TakeMany(q, BLOCK_SIZE - 1);
  }

  /** A producer without a size limit reaches 2^63 elements by enqueues and dequeues that all succeed, and
      the next dequeue then fails: one element out of the first block lets the last block in, and once
      the first block is empty it is reused without a check. */
  method ReachHalf() returns (q: ExplicitProducer, ok: bool)
    ensures fresh(q.Repr()) && q.Valid() && |q.contents| == HALF && !ok
  {
    q := FillWords();
    Add(q);
    assert fresh(q.Repr());
    RoomWithinBlock();
    AddMany(q, BLOCK_SIZE - 1);
    assert fresh(q.Repr());
    var element;
    ok, element := q.Dequeue();
  }
}
