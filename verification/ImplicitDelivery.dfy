/** The way of an element of an implicit sub-queue from its publication to the dequeue that returns it. */
module ImplicitDelivery {
  import opened Basics
  import opened Handoff
  import opened ImplicitQueue
  import opened ImplicitRuns

  function Queues(states: seq<State>): (queues: seq<Queue<int>>)
    ensures |queues| == |states| && forall k :: 0 <= k < |states| ==> queues[k] == QueueOf(states[k])
  {
    seq(|states|, k requires 0 <= k < |states| => QueueOf(states[k]))
  }

  /** Over every run the sub-queue's history is one that module Handoff allows. */
  lemma QueueHistory(states: seq<State>, steps: seq<Step>)
    requires IsRun(states, steps)
    ensures History(Queues(states))
  {
    forall k | 0 <= k < |steps| ensures Hands(Queues(states)[k], Queues(states)[k + 1]) {
      RunKeepsInv(states, steps, k);
      RefinesHandoff(states[k], steps[k]);
    }
  }

  /** Step `k` is a dequeue that claims index `i`, among others. */
  predicate ClaimsIndex(states: seq<State>, steps: seq<Step>, k: nat, i: nat) {
    k < |steps| && k < |states| && steps[k].Claim? && states[k].head <= i < states[k].head + steps[k].count
  }

  /** Each index below the head was claimed by exactly one dequeue, after its element was published. */
  lemma ClaimedByOneDequeue(states: seq<State>, steps: seq<Step>, last: nat, i: nat) returns (k: nat)
    requires IsRun(states, steps) && last < |states| && i < states[last].head
    ensures k < last && forall j: nat :: ClaimsIndex(states, steps, j, i) <==> j == k
    ensures i < |states[k].log| && i < |states[last].log| && states[k].log[i] == states[last].log[i]
  {
    QueueHistory(states, steps);
    k := ClaimedOnce(Queues(states), last, i);
    forall j: nat ensures ClaimsIndex(states, steps, j, i) <==> ClaimsAt(Queues(states), j, i) {
      if j < |steps| {
        RunKeepsInv(states, steps, j);
        RefinesHandoff(states[j], steps[j]);
      }
    }
  }

  /** How often consumer `c` has claimed index `i` without having returned it. */
  function Has(c: Consumer, i: nat): nat {
    if c.Idle? then 0 else One(c.first <= i < c.first + c.count)
  }

  function InFlight(consumers: seq<Consumer>, i: nat): nat {
    if |consumers| == 0 then 0
    else InFlight(consumers[..|consumers| - 1], i) + Has(consumers[|consumers| - 1], i)
  }

  /** The step is the return of a dequeue that got index `i`. */
  predicate Returns(s: State, step: Step, i: nat) {
    && step.Consume? && step.t < |s.consumers| && s.consumers[step.t].Done?
    && s.consumers[step.t].first <= i < s.consumers[step.t].first + s.consumers[step.t].count
  }

  /** How many dequeues have returned index `i` in the first `n` steps. */
  function Returned(states: seq<State>, steps: seq<Step>, n: nat, i: nat): nat
    requires n <= |steps| <= |states|
  {
    if n == 0 then 0 else Returned(states, steps, n - 1, i) + One(Returns(states[n - 1], steps[n - 1], i))
  }

  lemma {:induction false} InFlightUpdate(consumers: seq<Consumer>, t: nat, c: Consumer, i: nat)
    requires t < |consumers|
    ensures InFlight(consumers[t := c], i) == InFlight(consumers, i) - Has(consumers[t], i) + Has(c, i)
  {
    var last := |consumers| - 1;
    if t == last {
      assert consumers[t := c][..last] == consumers[..last];
    } else {
      assert consumers[t := c][..last] == consumers[..last][t := c];
      InFlightUpdate(consumers[..last], t, c, i);
    }
  }

  lemma {:induction false} NoneInFlight(consumers: seq<Consumer>, i: nat)
    requires forall t :: 0 <= t < |consumers| ==> consumers[t].Idle?
    ensures InFlight(consumers, i) == 0
  {
    if |consumers| > 0 {
      NoneInFlight(consumers[..|consumers| - 1], i);
    }
  }

  /** A dequeue keeps what it claimed until it returns. */
  lemma KeepsClaim(s: State, t: nat, i: nat)
    requires CanConsume(s, t)
    ensures ApplyConsume(s, t).head == s.head
    ensures ApplyConsume(s, t).consumers == s.consumers[t := ApplyConsume(s, t).consumers[t]]
    ensures Has(ApplyConsume(s, t).consumers[t], i) == if s.consumers[t].Done? then 0 else Has(s.consumers[t], i)
  {}

  /** A step brings index `i` into flight by claiming it and out of flight by returning it. */
  lemma FlightStep(s: State, step: Step, i: nat)
    requires Enabled(s, step)
    ensures InFlight(Apply(s, step).consumers, i) + One(Returns(s, step, i)) + One(i < s.head)
         == InFlight(s.consumers, i) + One(i < Apply(s, step).head)
  {
    match step
    case Claim(t, count) => InFlightUpdate(s.consumers, t, Apply(s, step).consumers[t], i);
    case Consume(t) =>
      KeepsClaim(s, t, i);
      InFlightUpdate(s.consumers, t, Apply(s, step).consumers[t], i);
    case Produce(choice) => ProducerClaimsNothing(s, choice);
    case _ =>
  }

  lemma ProducerClaimsNothing(s: State, choice: Choice)
    requires CanProduce(s, choice)
    ensures ApplyProduce(s, choice).head == s.head && ApplyProduce(s, choice).consumers == s.consumers
  {}

  /** At every point of every run, each index below the head is with one dequeue under way or has been
      returned by one, and no other index is or has been. */
  lemma {:induction false} ReturnedOrInFlight(states: seq<State>, steps: seq<Step>, n: nat, i: nat)
    requires IsRun(states, steps) && n <= |steps|
    ensures Returned(states, steps, n, i) + InFlight(states[n].consumers, i) == One(i < states[n].head)
  {
    if n == 0 {
      NoneInFlight(states[0].consumers, i);
    } else {
      ReturnedOrInFlight(states, steps, n - 1, i);
      assert Enabled(states[n - 1], steps[n - 1]) && states[n] == Apply(states[n - 1], steps[n - 1]);
      FlightStep(states[n - 1], steps[n - 1], i);
    }
  }

  /** With no dequeue under way, exactly the first `head` published elements have been returned, each once. */
  lemma EachOnce(states: seq<State>, steps: seq<Step>, n: nat, i: nat)
    requires IsRun(states, steps) && n <= |steps|
    requires forall t :: 0 <= t < |states[n].consumers| ==> states[n].consumers[t].Idle?
    ensures states[n].head <= |states[n].log| && Returned(states, steps, n, i) == One(i < states[n].head)
  {
    ReturnedOrInFlight(states, steps, n, i);
    NoneInFlight(states[n].consumers, i);
    QueueHistory(states, steps);
    HistoryGrows(Queues(states), n, n);
  }

  /** A dequeue that returns index `i` returns the element published there, however the run goes on. */
  lemma ReturnsPublished(states: seq<State>, steps: seq<Step>, k: nat, n: nat, i: nat)
    requires IsRun(states, steps) && k <= n <= |steps| && k < |steps| && Returns(states[k], steps[k], i)
    ensures var c := states[k].consumers[steps[k].t];
      i < |states[n].log| && |c.got| == c.count && c.got[i - c.first] == states[n].log[i]
  {
    RunKeepsInv(states, steps, k);
    Delivers(states[k], steps[k].t);
    QueueHistory(states, steps);
    HistoryGrows(Queues(states), k, n);
  }
}
