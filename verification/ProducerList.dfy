/**
 The queue as a linked list of explicit producers, used by one thread at a time. A node stands for the
 part of a producer that links it into the list.
 */
module ProducerList {
  import opened Words
  import ExplicitQueue
  import ExplicitRing

  type Producer = ExplicitQueue.ExplicitProducer

  /** Sub-queues whose elements a dequeue finds: exactly half the index words of them read as none. */
  predicate Ready(elements: seq<int>) {
    0 < |elements| < HALF
  }

  class ProducerNode {
    var next: ProducerNode?
    const queue: Producer

    constructor (queue: Producer, next: ProducerNode?)
      ensures this.queue == queue && this.next == next
    {
      this.queue, this.next := queue, next;
    }
  }

  predicate LinkAt(nodes: seq<ProducerNode>, k: nat)
    requires k < |nodes|
    reads nodes[k]
  {
    nodes[k].next == if k + 1 < |nodes| then nodes[k + 1] else null
  }

  /** A list of nodes. */
  ghost predicate Linked(nodes: seq<ProducerNode>, tail: ProducerNode?)
    reads nodes
  {
    && tail == (if |nodes| == 0 then null else nodes[0])
    && forall k :: 0 <= k < |nodes| ==> LinkAt(nodes, k)
  }

  ghost function QueuesOf(nodes: seq<ProducerNode>): set<object> {
    set n | n in nodes :: n.queue
  }

  /** Everything the producers own. */
  ghost function Owned(nodes: seq<ProducerNode>): set<object>
    reads QueuesOf(nodes)
  {
    set n, o | n in nodes && o in n.queue.Repr() :: o
  }

  ghost predicate ValidAt(nodes: seq<ProducerNode>, k: nat)
    requires k < |nodes|
    reads nodes[k].queue, nodes[k].queue.Repr()
  {
    nodes[k].queue.Valid()
  }

  ghost predicate ApartAt(nodes: seq<ProducerNode>, j: nat, k: nat)
    requires j < |nodes| && k < |nodes|
    reads nodes[j].queue, nodes[k].queue
  {
    ShareNothing(nodes[j].queue, nodes[k].queue)
  }

  ghost predicate ShareNothing(a: Producer, b: Producer)
    reads a, b
  {
    a.Repr() !! b.Repr()
  }

  ghost predicate AllValid(nodes: seq<ProducerNode>)
    reads QueuesOf(nodes), Owned(nodes)
  {
    forall k :: 0 <= k < |nodes| ==> ValidAt(nodes, k)
  }

  /** No two producers share anything. */
  ghost predicate AllApart(nodes: seq<ProducerNode>)
    reads QueuesOf(nodes)
  {
    forall j, k :: 0 <= j < k < |nodes| ==> ApartAt(nodes, j, k)
  }

  /** A producer's elements: all that went in, all that came out, and those stored, oldest first. */
  datatype Stream = Stream(enqueued: seq<int>, dequeued: seq<int>, contents: seq<int>)

  ghost function StreamOf(q: Producer): Stream
    reads q
  {
    Stream(q.enqueued, q.dequeued, q.contents)
  }

  ghost function Streams(nodes: seq<ProducerNode>): (s: seq<Stream>)
    reads QueuesOf(nodes)
    ensures |s| == |nodes| && forall k :: 0 <= k < |nodes| ==> s[k] == StreamOf(nodes[k].queue)
  {
    if |nodes| == 0 then []
    else
      assert forall n :: n in nodes[..|nodes| - 1] ==> n in nodes;
      Streams(nodes[..|nodes| - 1]) + [StreamOf(nodes[|nodes| - 1].queue)]
  }

  predicate StreamInOrder(s: Stream) {
    s.enqueued == s.dequeued + s.contents
  }

  function Put(s: Stream, element: int): Stream {
    Stream(s.enqueued + [element], s.dequeued, s.contents + [element])
  }

  function Took(s: Stream): Stream
    requires |s.contents| > 0
  {
    Stream(s.enqueued, s.dequeued + [s.contents[0]], s.contents[1..])
  }

  predicate SomeReady(streams: seq<Stream>) {
    exists k :: 0 <= k < |streams| && Ready(streams[k].contents)
  }

  /** How many of the first `k` sub-queues are ready. */
  function ReadyBefore(streams: seq<Stream>, k: nat): nat
    requires k <= |streams|
  {
    if k == 0 then 0 else ReadyBefore(streams, k - 1) + (if Ready(streams[k - 1].contents) then 1 else 0)
  }

  lemma {:induction false} ReadyBeforeGrows(streams: seq<Stream>, j: nat, k: nat)
    requires j <= k <= |streams|
    ensures ReadyBefore(streams, j) <= ReadyBefore(streams, k)
  {
    if j < k {
      ReadyBeforeGrows(streams, j, k - 1);
    }
  }

  /** The longest of the first three ready sub-queues, the first such if several are. */
  ghost predicate IsBest(streams: seq<Stream>, at: nat) {
    && at < |streams| && Ready(streams[at].contents) && ReadyBefore(streams, at) < 3
    && forall j :: 0 <= j < |streams| && Ready(streams[j].contents) && ReadyBefore(streams, j) < 3 ==>
         if j < at then |streams[j].contents| < |streams[at].contents|
           else |streams[j].contents| <= |streams[at].contents|
  }

  /** The state of the scoring loop after `k` sub-queues. */
  ghost predicate Scored(streams: seq<Stream>, k: nat, count: nat, bestSize: nat, at: nat) {
    && k <= |streams| && count == ReadyBefore(streams, k)
    && if count == 0 then bestSize == 0
       else
         && at < k && Ready(streams[at].contents) && bestSize == |streams[at].contents| && ReadyBefore(streams, at) < 3
         && forall j :: 0 <= j < k && Ready(streams[j].contents) ==>
              if j < at then |streams[j].contents| < bestSize else |streams[j].contents| <= bestSize
  }

  /** One more sub-queue scored, while fewer than three were ready. */
  lemma ScoreNext(streams: seq<Stream>, k: nat, count: nat, bestSize: nat, at: nat)
    requires Scored(streams, k, count, bestSize, at) && count < 3 && k < |streams|
    ensures var size := if Ready(streams[k].contents) then |streams[k].contents| else 0;
      if size > bestSize then Scored(streams, k + 1, count + 1, size, k)
      else Scored(streams, k + 1, if size > 0 then count + 1 else count, bestSize, at)
  {
    if count == 0 {
      forall j | 0 <= j < k ensures !Ready(streams[j].contents) {
        ReadyBeforeGrows(streams, j + 1, k);
      }
    }
  }

  lemma ScoreEnd(streams: seq<Stream>, k: nat, count: nat, bestSize: nat, at: nat)
    requires Scored(streams, k, count, bestSize, at) && (count >= 3 || k == |streams|)
    ensures if count > 0 then IsBest(streams, at) && SomeReady(streams) else !SomeReady(streams)
  {
    forall j | 0 <= j < |streams| && Ready(streams[j].contents)
      ensures j < k || ReadyBefore(streams, j) >= 3
      ensures j < k ==> count > 0
    {
      if j < k {
        ReadyBeforeGrows(streams, j + 1, k);
      } else {
        ReadyBeforeGrows(streams, k, j);
      }
    }
  }

  /** What `size_approx` counts: all stored elements but those of a sub-queue with exactly 2^63. */
  function Seen(streams: seq<Stream>): nat {
    if |streams| == 0 then 0
    else
      var last := streams[|streams| - 1].contents;
      Seen(streams[..|streams| - 1]) + (if Ready(last) then |last| else 0)
  }

  lemma SeenStep(streams: seq<Stream>, k: nat, size: Word)
    requires k < |streams| && size == Wrap(Seen(streams[..k]))
    ensures (size + (if Ready(streams[k].contents) then |streams[k].contents| else 0)) % WORD
      == Wrap(Seen(streams[..k + 1]))
  {
    assert streams[..k + 1][..k] == streams[..k];
    ModAdd(Seen(streams[..k]), if Ready(streams[k].contents) then |streams[k].contents| else 0, WORD);
  }

  /** The number of elements stored in all sub-queues. */
  function Total(streams: seq<Stream>): nat {
    if |streams| == 0 then 0 else Total(streams[..|streams| - 1]) + |streams[|streams| - 1].contents|
  }

  /** Nothing is missed exactly when no sub-queue holds 2^63 elements or more. */
  lemma {:induction false} SeenIsTotal(streams: seq<Stream>)
    ensures Seen(streams) <= Total(streams)
    ensures Seen(streams) == Total(streams) <==> forall k :: 0 <= k < |streams| ==> |streams[k].contents| < HALF
  {
    if |streams| > 0 {
      var last := |streams| - 1;
      SeenIsTotal(streams[..last]);
      assert streams == streams[..last] + [streams[last]];
    }
  }

  /** A producer none of whose objects change stays as it was. */
  twostate lemma ProducerKept(q: Producer)
    requires old(q.Valid()) && forall o :: o in old(q.Repr()) ==> unchanged(o)
    ensures q.Valid() && q.Repr() == old(q.Repr()) && StreamOf(q) == old(StreamOf(q))
  {
    assert q in old(q.Repr());
  }

  /** An enqueue to a producer, in terms of its stream. */
  method EnqueueTo(q: Producer, element: int, newBlock: ExplicitRing.Block?, granted: bool) returns (ok: bool)
    requires q.Valid() && q.Offered(newBlock)
    modifies q.Repr(), ExplicitQueue.BlockRepr(newBlock)
    ensures q.Valid() && q.OwnsMore(newBlock) && ok == old(q.Room(newBlock, granted))
    ensures StreamOf(q) == old(if q.Room(newBlock, granted) then Put(StreamOf(q), element) else StreamOf(q))
  {
    ok := q.Enqueue(element, newBlock, granted);
  }

  /** What a producer owned existed. */
  twostate lemma OwnedExisted(q: Producer)
    ensures forall o :: o in old(q.Repr()) ==> old(allocated(o))
  {}

  lemma LongerValid(node: ProducerNode, nodes: seq<ProducerNode>)
    requires AllValid(nodes) && node.queue.Valid()
    ensures AllValid([node] + nodes)
  {
    var longer := [node] + nodes;
    forall k | 0 <= k < |longer| ensures ValidAt(longer, k) {
      if k > 0 {
        assert ValidAt(nodes, k - 1) && longer[k] == nodes[k - 1];
      }
    }
  }

  lemma LongerStreams(node: ProducerNode, nodes: seq<ProducerNode>)
    ensures Streams([node] + nodes) == [StreamOf(node.queue)] + Streams(nodes)
  {
    var longer := [node] + nodes;
    forall k | 0 <= k < |longer| ensures Streams(longer)[k] == ([StreamOf(node.queue)] + Streams(nodes))[k] {
      assert k > 0 ==> longer[k] == nodes[k - 1];
    }
  }

  lemma LongerApart(node: ProducerNode, nodes: seq<ProducerNode>)
    requires AllApart(nodes) && forall k :: 0 <= k < |nodes| ==> ShareNothing(node.queue, nodes[k].queue)
    ensures AllApart([node] + nodes)
  {
    var longer := [node] + nodes;
    forall j, k | 0 <= j < k < |longer| ensures ApartAt(longer, j, k) {
      assert longer[k] == nodes[k - 1];
      if j > 0 {
        assert ApartAt(nodes, j - 1, k - 1) && longer[j] == nodes[j - 1];
      }
    }
  }

  class ConcurrentQueue {
    var producerListTail: ProducerNode?

    /** The list from its tail pointer on, newest producer first. */
    ghost var nodes: seq<ProducerNode>

    ghost predicate Valid()
      reads this, nodes, QueuesOf(nodes), Owned(nodes)
    {
      Linked(nodes, producerListTail) && AllValid(nodes) && AllApart(nodes)
    }

    constructor ()
      ensures Valid() && nodes == []
    {
      producerListTail := null;
      nodes := [];
    }

    lemma NodeOk(k: nat)
      requires Valid() && k < |nodes|
      ensures nodes[k].queue.Valid() && LinkAt(nodes, k) && Streams(nodes)[k] == StreamOf(nodes[k].queue)
    {
      assert ValidAt(nodes, k);
    }

    /** `add_producer`: the node of a new producer, linked to the list's tail, becomes its tail. */
    method AddProducer(node: ProducerNode)
      requires Valid() && node.queue.Valid() && StreamOf(node.queue) == Stream([], [], [])
      requires node.next == producerListTail
      requires forall k :: 0 <= k < |nodes| ==> ShareNothing(node.queue, nodes[k].queue)
      modifies this
      ensures Valid() && nodes == [node] + old(nodes)
      ensures Streams(nodes) == [Stream([], [], [])] + old(Streams(nodes))
    {
      ghost var longer := [node] + nodes;
      LongerOk(node, longer);
      SetList(node, longer);
    }

    lemma LongerOk(node: ProducerNode, longer: seq<ProducerNode>)
      requires Valid() && node.queue.Valid() && longer == [node] + nodes && node.next == producerListTail
      requires forall k :: 0 <= k < |nodes| ==> ShareNothing(node.queue, nodes[k].queue)
      ensures Linked(longer, node) && AllValid(longer) && AllApart(longer)
      ensures Streams(longer) == [StreamOf(node.queue)] + Streams(nodes)
    {
      LongerLinked(node, longer);
      LongerValid(node, nodes);
      LongerApart(node, nodes);
      LongerStreams(node, nodes);
    }

    lemma LongerLinked(node: ProducerNode, longer: seq<ProducerNode>)
      requires Linked(nodes, producerListTail) && longer == [node] + nodes && node.next == producerListTail
      ensures Linked(longer, node)
    {
      forall k | 0 <= k < |longer| ensures LinkAt(longer, k) {
        assert k > 0 ==> LinkAt(nodes, k - 1) && longer[k] == nodes[k - 1];
      }
    }

    method SetList(tail: ProducerNode, ghost longer: seq<ProducerNode>)
      requires Linked(longer, tail) && AllValid(longer) && AllApart(longer)
      modifies this
      ensures Valid() && nodes == longer && Streams(longer) == old(Streams(longer))
    {
      forall k | 0 <= k < |longer| ensures this !in longer[k].queue.Repr() {
        ListApart(longer[k].queue);
      }
      producerListTail := tail;
      nodes := longer;
      forall k | 0 <= k < |longer| ensures ValidAt(longer, k) {
        assert old(ValidAt(longer, k));
      }
      forall j, k | 0 <= j < k < |longer| ensures ApartAt(longer, j, k) {
        assert old(ApartAt(longer, j, k));
      }
    }

    /** `size_approx` with no operation under way. */
    method SizeApprox() returns (size: Word)
      requires Valid()
      ensures size == Wrap(Seen(Streams(nodes)))
    {
      size := 0;
      var ptr := producerListTail;
      ghost var k, streams := 0, Streams(nodes);
      while ptr != null
        invariant Valid() && Streams(nodes) == streams
        invariant 0 <= k <= |nodes| && ptr == (if k < |nodes| then nodes[k] else null)
        invariant size == Wrap(Seen(streams[..k]))
        decreases |nodes| - k
      {
        NodeOk(k);
        SeenStep(streams, k, size);
        var s := ptr.queue.SizeApprox();
        size := (size + s) % WORD;
        ptr := ptr.next;
        k := k + 1;
      }
      assert streams[..k] == streams;
    }

    /** The scoring loop of `try_dequeue`: of the first sub-queues that look non-empty, up to three, the
        longest. */
    method FindBest(ghost streams: seq<Stream>) returns (nonEmptyCount: nat, best: ProducerNode?, ghost at: nat)
      requires Valid() && streams == Streams(nodes)
      ensures Valid() && streams == Streams(nodes)
      ensures nonEmptyCount > 0 <==> SomeReady(streams)
      ensures nonEmptyCount > 0 ==> at < |nodes| && best == nodes[at] && IsBest(streams, at)
    {
      nonEmptyCount, best, at := 0, null, 0;
      var bestSize := 0;
      var ptr := producerListTail;
      ghost var k := 0;
      while nonEmptyCount < 3 && ptr != null
        invariant Valid() && Streams(nodes) == streams
        invariant 0 <= k <= |nodes| && ptr == (if k < |nodes| then nodes[k] else null)
        invariant Scored(streams, k, nonEmptyCount, bestSize, at)
        invariant nonEmptyCount > 0 ==> best == nodes[at]
        decreases |nodes| - k
      {
        NodeOk(k);
        ScoreNext(streams, k, nonEmptyCount, bestSize, at);
        var size := ptr.queue.SizeApprox();
        if size > 0 {
          if size > bestSize {
            bestSize, best, at := size, ptr, k;
          }
          nonEmptyCount := nonEmptyCount + 1;
        }
        ptr := ptr.next;
        k := k + 1;
      }
      ScoreEnd(streams, k, nonEmptyCount, bestSize, at);
    }

    /** The list's own objects are none of a producer's. */
    lemma ListApart(q: Producer)
      ensures this !in q.Repr() && forall n :: n in nodes ==> n !in q.Repr()
    {}

    /** In every state of every sequence of calls, each producer has handed its elements out in the order
        it took them in: what was dequeued from it, followed by what it stores, is what was enqueued. */
    lemma ProducersInOrder()
      requires Valid()
      ensures forall k :: 0 <= k < |nodes| ==> StreamInOrder(Streams(nodes)[k])
    {
      forall k | 0 <= k < |nodes| ensures StreamInOrder(Streams(nodes)[k]) {
        NodeOk(k);
      }
    }

    /** Producer `k` stayed as it was. */
    twostate predicate KeptAt(k: nat)
      requires k < |nodes| && nodes == old(nodes)
      reads this, nodes[k].queue, nodes[k].queue.Repr()
    {
      var q := nodes[k].queue;
      && q.Valid() && q.Repr() == old(q.Repr())
      && StreamOf(q) == old(StreamOf(q))
    }

    /** What the `at`-th producer owns is none of the others'. */
    lemma ApartFromOthers(at: nat)
      requires Valid() && at < |nodes|
      ensures forall k :: 0 <= k < |nodes| && k != at ==> nodes[at].queue.Repr() !! nodes[k].queue.Repr()
    {
      forall k | 0 <= k < |nodes| && k != at ensures nodes[at].queue.Repr() !! nodes[k].queue.Repr() {
        assert ApartAt(nodes, if k < at then k else at, if k < at then at else k);
      }
    }

    /** A change to nothing that the producers other than the `at`-th own keeps them. */
    twostate lemma OthersKept(at: nat, new changed: set<object>)
      requires old(Valid()) && at < |nodes| && nodes == old(nodes)
      requires forall k :: 0 <= k < |nodes| && k != at ==> changed !! old(nodes[k].queue.Repr())
      requires forall o: object :: old(allocated(o)) && o !in changed ==> unchanged(o)
      ensures forall k :: 0 <= k < |nodes| && k != at ==> KeptAt(k)
    {
      forall k | 0 <= k < |nodes| && k != at ensures KeptAt(k) {
        assert old(ValidAt(nodes, k));
        ProducerKept(nodes[k].queue);
      }
    }

    /** What the changed producer has gained is nothing of the others'. */
    twostate lemma StillApart(at: nat, new changed: set<object>)
      requires at < |nodes| && nodes == old(nodes) && old(AllApart(nodes))
      requires forall k :: 0 <= k < |nodes| && k != at ==> KeptAt(k) && changed !! old(nodes[k].queue.Repr())
      requires forall o :: o in nodes[at].queue.Repr() ==> o in changed || !old(allocated(o))
      ensures AllApart(nodes)
    {
      forall j, k | 0 <= j < k < |nodes| ensures ApartAt(nodes, j, k) {
        if j != at && k != at {
          assert old(ApartAt(nodes, j, k)) && KeptAt(j) && KeptAt(k);
        } else {
          var other := if j == at then k else j;
          assert KeptAt(other);
          OwnedExisted(nodes[other].queue);
          assert nodes[at].queue.Repr() !! nodes[other].queue.Repr();
        }
      }
    }

    /** The list is valid again once the one producer that changed is. */
    twostate lemma Reassembled(at: nat, new changed: set<object>)
      requires old(Valid()) && at < |nodes| && nodes == old(nodes) && producerListTail == old(producerListTail)
      requires forall k :: 0 <= k < |nodes| ==>
        if k == at then ValidAt(nodes, k) else changed !! old(nodes[k].queue.Repr())
      requires forall o: object :: old(allocated(o)) && o !in changed ==> unchanged(o)
      requires forall n :: n in nodes ==> n !in changed
      requires forall o :: o in nodes[at].queue.Repr() ==> o in changed || !old(allocated(o))
      ensures Valid() && Streams(nodes) == old(Streams(nodes))[at := StreamOf(nodes[at].queue)]
    {
      OthersKept(at, changed);
      StillApart(at, changed);
      forall k | 0 <= k < |nodes| ensures ValidAt(nodes, k) {
        assert k != at ==> KeptAt(k);
      }
      forall k | 0 <= k < |nodes| ensures LinkAt(nodes, k) {
        assert old(LinkAt(nodes, k)) && nodes[k] in nodes;
      }
      forall k | 0 <= k < |nodes|
        ensures Streams(nodes)[k] == old(Streams(nodes))[at := StreamOf(nodes[at].queue)][k]
      {
        assert k != at ==> KeptAt(k);
      }
    }

    /** A dequeue from one producer. */
    method TakeFrom(best: ProducerNode, ghost at: nat) returns (ok: bool, element: int)
      requires Valid() && at < |nodes| && best == nodes[at]
      modifies best.queue.Repr()
      ensures Valid() && ok == old(Ready(best.queue.contents))
      ensures ok ==> element == old(best.queue.contents[0])
      ensures Streams(nodes) == old(if ok then Streams(nodes)[at := Took(StreamOf(best.queue))] else Streams(nodes))
    {
      ghost var changed := best.queue.Repr();
      ListApart(best.queue);
      ApartFromOthers(at);
      NodeOk(at);
      ok, element := best.queue.Dequeue();
      Reassembled(at, changed);
    }

    /** `try_dequeue`: takes the oldest element of one sub-queue, unless every one reads as empty. With no
        concurrent dequeue the sub-queue picked still has its element, so the loop over the others is
        never reached. */
    method TryDequeue() returns (ok: bool, element: int, ghost at: nat)
      requires Valid()
      modifies Owned(nodes)
      ensures Valid()
      ensures ok <==> old(SomeReady(Streams(nodes)))
      ensures ok ==> at < |nodes| && IsBest(old(Streams(nodes)), at) && element == old(Streams(nodes))[at].contents[0]
      ensures Streams(nodes) ==
        if ok then old(Streams(nodes))[at := Took(old(Streams(nodes))[at])] else old(Streams(nodes))
    {
      var nonEmptyCount, best;
      nonEmptyCount, best, at := FindBest(Streams(nodes));
      if nonEmptyCount == 0 {
        return false, 0, at;
      }
      OwnsAt(at);
      ok, element := TakeFrom(best, at);
      if ok {
        return;
      }
      assert false;
    }

    lemma OwnsAt(at: nat)
      requires at < |nodes|
      ensures nodes[at].queue.Repr() <= Owned(nodes)
    {}

    lemma ChangedApart(at: nat, newBlock: ExplicitRing.Block?, changed: set<object>)
      requires Valid() && at < |nodes| && OfferedToAll(newBlock)
      requires changed == nodes[at].queue.Repr() + ExplicitQueue.BlockRepr(newBlock)
      ensures forall k :: 0 <= k < |nodes| && k != at ==> changed !! nodes[k].queue.Repr()
      ensures this !in changed && forall n :: n in nodes ==> n !in changed
      ensures ValidAt(nodes, at) && nodes[at].queue.Offered(newBlock)
    {
      ListApart(nodes[at].queue);
      ApartFromOthers(at);
    }

    /** An enqueue to one producer of the list. */
    method Enqueue(node: ProducerNode, ghost at: nat, element: int, newBlock: ExplicitRing.Block?, granted: bool)
        returns (ok: bool)
      requires Valid() && at < |nodes| && node == nodes[at] && OfferedToAll(newBlock)
      modifies node.queue.Repr(), ExplicitQueue.BlockRepr(newBlock)
      ensures Valid() && ok == old(node.queue.Room(newBlock, granted))
      ensures Streams(nodes)
        == old(if ok then Streams(nodes)[at := Put(StreamOf(node.queue), element)] else Streams(nodes))
    {
      ghost var changed := node.queue.Repr() + ExplicitQueue.BlockRepr(newBlock);
      ChangedApart(at, newBlock, changed);
      ok := EnqueueTo(node.queue, element, newBlock, granted);
      Reassembled(at, changed);
    }

    /** The block that requisitioning would give belongs to no producer. */
    ghost predicate OfferedToAll(newBlock: ExplicitRing.Block?)
      reads this, QueuesOf(nodes)
    {
      && (newBlock != null ==> newBlock.Sized())
      && forall k :: 0 <= k < |nodes| ==> ExplicitQueue.BlockRepr(newBlock) !! nodes[k].queue.Repr()
    }
  }
}
