/** Consumer tokens: how the rotation of the global offset moves each token along the producer list. */
module Rotation {
  import opened Words
  import opened ProducerList

  const WORD32: int := 0x1_0000_0000

  type Word32 = x: int | 0 <= x < WORD32

  /** Where a token that has seen `seen` rotations stands, counted from the tail of a list of `n`. */
  function Place(n: nat, initialOffset: nat, seen: nat): nat
    requires n > 0
  {
    (n - 1 - initialOffset % n + seen) % n
  }

  /** Before any rotation a token stands where `initialOffset % n` producers are older, for lists run from
      the newest to the oldest; each rotation moves it on to the next, and from the oldest to the newest. */
  lemma RoundRobin(n: nat, initialOffset: nat, seen: nat)
    requires n > 0
    ensures Place(n, initialOffset, 0) < n && n - 1 - Place(n, initialOffset, 0) == initialOffset % n
    ensures var at := Place(n, initialOffset, seen);
      Place(n, initialOffset, seen + 1) == if at == n - 1 then 0 else at + 1
  {
    DivModUnique(n - 1 - initialOffset % n, 0, n - 1 - initialOffset % n, n);
    NextAround(n - 1 - initialOffset % n + seen, n);
  }

  class ConsumerToken {
    const initialOffset: Word32
    var lastKnownGlobalOffset: Word32
    var itemsConsumedFromCurrent: Word32
    var currentProducer: ProducerNode?
    var desiredProducer: ProducerNode?

    /** The rotations seen so far, counted from the initial offset of -1. */
    ghost var seen: nat

    constructor (id: Word32)
      ensures Placed([]) && initialOffset == id && seen == 0 && desiredProducer == null
    {
      initialOffset := id;
      lastKnownGlobalOffset, itemsConsumedFromCurrent := WORD32 - 1, 0;
      currentProducer, desiredProducer := null, null;
      seen := 0;
    }

    ghost predicate Placed(nodes: seq<ProducerNode>)
      reads this
    {
      && lastKnownGlobalOffset == (seen - 1) % WORD32
      && if desiredProducer == null then seen == 0
         else |nodes| > 0 && desiredProducer == nodes[Place(|nodes|, initialOffset, seen)]
    }
  }

  /** Walks `steps` producers along the list, around its end. */
  method Walk(
      ghost nodes: seq<ProducerNode>, tail: ProducerNode, from: ProducerNode, ghost at: nat,
      steps: Word32) returns (to: ProducerNode)
    requires Linked(nodes, tail) && at < |nodes| && from == nodes[at]
    ensures to == nodes[(at + steps) % |nodes|]
  {
    to := from;
    var i := 0;
    DivModUnique(at, 0, at, |nodes|);
    while i != steps
      invariant 0 <= i <= steps && to == nodes[(at + i) % |nodes|]
      decreases steps - i
    {
      NextNode(nodes, tail, at + i);
      to := if to.next == null then tail else to.next;
      i := i + 1;
    }
  }

  lemma NextNode(nodes: seq<ProducerNode>, tail: ProducerNode, x: nat)
    requires |nodes| > 0 && Linked(nodes, tail)
    ensures nodes[(x + 1) % |nodes|] == if nodes[x % |nodes|].next == null then tail else nodes[x % |nodes|].next
  {
    assert LinkAt(nodes, x % |nodes|);
    NextAround(x, |nodes|);
  }

  lemma NextAround(x: nat, n: nat)
    requires n > 0
    ensures (x + 1) % n == if x % n + 1 < n then x % n + 1 else 0
  {
    ModAdd(x, 1, n);
    if x % n + 1 < n {
      DivModUnique(x % n + 1, 0, x % n + 1, n);
    } else {
      DivModUnique(n, 1, 0, n);
    }
  }

  /** `update_current_producer_after_rotation`, over an unchanging list of producers. */
  method UpdateCurrentProducerAfterRotation(
      token: ConsumerToken, tail: ProducerNode?, prodCount: Word32, globalOffset: Word32,
        ghost nodes: seq<ProducerNode>) returns (ok: bool)
    requires Linked(nodes, tail) && prodCount == |nodes| && token.Placed(nodes)
    modifies token
    ensures ok == (|nodes| > 0)
    ensures ok ==>
      token.Placed(nodes) && token.lastKnownGlobalOffset == globalOffset && token.itemsConsumedFromCurrent == 0
    ensures ok ==> token.seen == old(token.seen) + (globalOffset - old(token.lastKnownGlobalOffset)) % WORD32
    ensures ok ==> token.currentProducer == nodes[Place(|nodes|, token.initialOffset, token.seen)]
  {
    if token.desiredProducer == null && tail == null {
      return false;
    }
    ghost var n := |nodes|;
    if token.desiredProducer == null {
      var offset := prodCount - 1 - token.initialOffset % prodCount;
      token.desiredProducer := Walk(nodes, tail, tail, 0, offset);
    }
    var delta := (globalOffset - token.lastKnownGlobalOffset) % WORD32;
    ghost var turns := delta;
    if delta >= prodCount {
      delta := delta % prodCount;
    }
    ghost var at := Place(n, token.initialOffset, token.seen);
    Advance(n, token.initialOffset, token.seen, turns, delta);
    token.desiredProducer := Walk(nodes, tail, token.desiredProducer, at, delta);
    Follow(token.seen, token.lastKnownGlobalOffset, globalOffset);
    token.lastKnownGlobalOffset := globalOffset;
    token.currentProducer := token.desiredProducer;
    token.itemsConsumedFromCurrent := 0;
    token.seen := token.seen + turns;
    return true;
  }

  /** Walking the reduced number of steps leads to the place of the full number. */
  lemma Advance(n: nat, initialOffset: nat, seen: nat, turns: nat, delta: nat)
    requires n > 0 && delta == if turns >= n then turns % n else turns
    ensures (Place(n, initialOffset, seen) + delta) % n == Place(n, initialOffset, seen + turns)
  {
    var start := n - 1 - initialOffset % n + seen;
    ModAdd(start, delta, n);
    if turns >= n {
      ModAdd(turns, start, n);
    }
  }

  /** A token's last known offset goes with the rotations it has seen. */
  lemma Follow(seen: nat, last: Word32, globalOffset: Word32)
    requires last == (seen - 1) % WORD32
    ensures (seen + (globalOffset - last) % WORD32 - 1) % WORD32 == globalOffset
  {}

  /** An update brings a token level with the `rotations` that have happened exactly when fewer than a
      word's worth of them happened since its last one. */
  lemma SeesAll(seen: nat, rotations: nat)
    requires seen <= rotations + 1
    ensures seen + (rotations % WORD32 - (seen - 1) % WORD32) % WORD32 == rotations + 1 <==>
      rotations + 1 - seen < WORD32
  {
    var missed := rotations - (seen - 1);
    assert (rotations % WORD32 - (seen - 1) % WORD32) % WORD32 == missed % WORD32;
  }

  /** The rotations seen after updates at the given totals of rotations. */
  function SeenAfter(totals: seq<nat>): int {
    if |totals| == 0 then 0
    else
      var seen := SeenAfter(totals[..|totals| - 1]);
      seen + (totals[|totals| - 1] % WORD32 - (seen - 1) % WORD32) % WORD32
  }

  /** The totals grow by less than a word's worth between updates. */
  predicate Attentive(totals: seq<nat>) {
    forall k :: 0 <= k < |totals| ==> AttentiveAt(totals, k)
  }

  predicate AttentiveAt(totals: seq<nat>, k: nat)
    requires k < |totals|
  {
    var before := if k == 0 then 0 else totals[k - 1] + 1;
    before <= totals[k] + 1 < before + WORD32
  }

  /** Whatever offsets a token skips, its latest update brings it level. */
  lemma {:induction false} SeenAfterRun(totals: seq<nat>)
    requires Attentive(totals)
    ensures SeenAfter(totals) == if |totals| == 0 then 0 else totals[|totals| - 1] + 1
  {
    if |totals| > 0 {
      var earlier := totals[..|totals| - 1];
      forall k | 0 <= k < |earlier| ensures AttentiveAt(earlier, k) {
        assert AttentiveAt(totals, k);
      }
      assert AttentiveAt(totals, |totals| - 1);
      SeenAfterRun(earlier);
      SeesAll(SeenAfter(earlier), totals[|totals| - 1]);
    }
  }

  /** Tokens that have seen the same rotations stand on distinct producers exactly when their initial
      offsets differ modulo the number of producers. */
  lemma DistinctPlaces(n: nat, a: nat, b: nat, seen: nat)
    requires n > 0
    ensures Place(n, a, seen) == Place(n, b, seen) <==> a % n == b % n
  {
    if Place(n, a, seen) == Place(n, b, seen) {
      ModInjective(n - 1 - a % n + seen, n - 1 - b % n + seen, n);
    }
  }
}
