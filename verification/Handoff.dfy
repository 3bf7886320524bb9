/**
 What the two ends of a producer's sub-queue promise each other: the producer publishes elements at
 the tail, consumers claim indices at the head, and no index is claimed before it is published.
 */
module Handoff {
  datatype Ends = Ends(tail: nat, head: nat)

  predicate Publishes(e: Ends, e': Ends, count: nat) {
    count > 0 && e' == Ends(e.tail + count, e.head)
  }

  predicate Claims(e: Ends, e': Ends, count: nat) {
    count > 0 && e.head + count <= e.tail && e' == Ends(e.tail, e.head + count)
  }

  /** A sub-queue's history: every element published so far, and how many of them have been claimed. */
  datatype Queue<T> = Queue(log: seq<T>, head: nat)
  {
    function BothEnds(): Ends {
      Ends(|log|, head)
    }

    predicate Proper() {
      head <= |log|
    }

    /** The elements still to be claimed. */
    function Stored(): seq<T>
      requires Proper()
    {
      log[head..]
    }
  }

  ghost predicate Appends<T>(q: Queue<T>, q': Queue<T>, items: seq<T>) {
    Publishes(q.BothEnds(), q'.BothEnds(), |items|) && q'.log == q.log + items
  }

  ghost predicate Removes<T>(q: Queue<T>, q': Queue<T>, count: nat) {
    Claims(q.BothEnds(), q'.BothEnds(), count) && q'.log == q.log
  }

  /** What one step may do to a sub-queue. */
  ghost predicate Hands<T(!new)>(q: Queue<T>, q': Queue<T>) {
    q' == q || (exists items: seq<T> :: Appends(q, q', items)) || (exists count: nat :: Removes(q, q', count))
  }

  /** A sub-queue's states from its creation on. */
  ghost predicate History<T(!new)>(queues: seq<Queue<T>>) {
    && |queues| > 0 && queues[0] == Queue([], 0)
    && forall k :: 0 <= k < |queues| - 1 ==> Hands(queues[k], queues[k + 1])
  }

  /** Step `k` claims index `i`. */
  predicate ClaimsAt<T>(queues: seq<Queue<T>>, k: nat, i: nat) {
    k + 1 < |queues| && queues[k].head <= i < queues[k + 1].head
  }

  lemma {:induction false} HistoryGrows<T(!new)>(queues: seq<Queue<T>>, j: nat, k: nat)
    requires History(queues) && j <= k < |queues|
    ensures queues[k].Proper() && queues[j].log <= queues[k].log && queues[j].head <= queues[k].head
  {
    if k > 0 {
      HistoryGrows(queues, if j < k then j else k - 1, k - 1);
      assert Hands(queues[k - 1], queues[k]);
    }
  }

  lemma ClaimedByOne<T(!new)>(queues: seq<Queue<T>>, j: nat, k: nat, i: nat)
    requires History(queues) && ClaimsAt(queues, j, i) && ClaimsAt(queues, k, i)
    ensures j == k
  {
    if j < k {
      HistoryGrows(queues, j + 1, k);
    } else if k < j {
      HistoryGrows(queues, k + 1, j);
    }
  }

  /** Every index below the head was claimed by exactly one step, after its element was published, and
      keeps that element. */
  lemma {:induction false} ClaimedOnce<T(!new)>(queues: seq<Queue<T>>, last: nat, i: nat) returns (k: nat)
    requires History(queues) && last < |queues| && i < queues[last].head
    ensures k < last && ClaimsAt(queues, k, i) && i < |queues[k].log| && i < |queues[last].log|
    ensures queues[k].log[i] == queues[last].log[i]
    ensures forall j: nat :: ClaimsAt(queues, j, i) ==> j == k
  {
    if queues[last - 1].head <= i {
      k := last - 1;
    } else {
      k := ClaimedOnce(queues, last - 1, i);
    }
    assert Hands(queues[k], queues[k + 1]);
    HistoryGrows(queues, k, last);
    forall j: nat | ClaimsAt(queues, j, i) ensures j == k {
      ClaimedByOne(queues, j, k, i);
    }
  }
}
