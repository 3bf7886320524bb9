/** Where each event of the pipeline is, and what the steps do to its queues. */
module PipelinePlaces {
  import opened Words
  import opened Basics
  import opened Handoff
  import opened Pipeline

  /* ---------- The queues ---------- */

  predicate AllProper(outgoings: seq<Queue<Reply>>) {
    forall w :: 0 <= w < |outgoings| ==> outgoings[w].Proper()
  }

  /** An index being fetched has been claimed, by one worker only. */
  predicate FetchOk(s: State, w: nat)
    requires w < |s.workers|
  {
    s.workers[w].Fetching? ==>
      && s.workers[w].index < s.incomings.head
      && forall v :: 0 <= v < w && s.workers[v].Fetching? ==> s.workers[v].index != s.workers[w].index
  }

  predicate QueuesOk(s: State) {
    && |s.outgoings| == |s.workers| && s.incomings.Proper() && AllProper(s.outgoings)
    && (forall w :: 0 <= w < |s.workers| ==> FetchOk(s, w))
    && (s.main.Receiving? ==> s.main.worker < |s.outgoings| && s.main.index + 1 == s.outgoings[s.main.worker].head)
    && (s.main.Sending? ==> s.main.worker < |s.outgoings|)
  }

  lemma FetchStep(s: State, step: Step, w: nat)
    requires QueuesOk(s) && Enabled(s, step) && w < |s.workers|
    ensures FetchOk(Apply(s, step), w)
  {
    assert FetchOk(s, w);
    if step.Take? {
      forall v | 0 <= v < w && s.workers[v].Fetching? ensures s.workers[v].index < s.incomings.head {
        assert FetchOk(s, v);
      }
    }
  }

  lemma OutgoingsProper(s: State, step: Step)
    requires QueuesOk(s) && Enabled(s, step)
    ensures AllProper(Apply(s, step).outgoings) && |Apply(s, step).outgoings| == |Apply(s, step).workers|
  {}

  lemma QueuesStep(s: State, step: Step)
    requires QueuesOk(s) && Enabled(s, step)
    ensures QueuesOk(Apply(s, step))
  {
    var s' := Apply(s, step);
    OutgoingsProper(s, step);
    forall w | 0 <= w < |s'.workers| ensures FetchOk(s', w) {
      FetchStep(s, step, w);
    }
  }

  /** Every step does to the incoming queue only what the two ends of a sub-queue promise each other. */
  lemma IncomingHands(s: State, step: Step)
    requires QueuesOk(s) && Enabled(s, step)
    ensures Hands(s.incomings, Apply(s, step).incomings)
    ensures step.Take? <==> Apply(s, step).incomings.head > s.incomings.head
  {
    if step.Receive? && step.stored {
      assert Appends(s.incomings, Apply(s, step).incomings, [|s.received|]);
    } else if step.Take? {
      assert Removes(s.incomings, Apply(s, step).incomings, 1);
    }
  }

  /** The same for worker `w`'s outgoing sub-queue. */
  lemma OutgoingHands(s: State, step: Step, w: nat)
    requires QueuesOk(s) && Enabled(s, step) && w < |s.outgoings|
    ensures |Apply(s, step).outgoings| == |s.outgoings| && Hands(s.outgoings[w], Apply(s, step).outgoings[w])
    ensures step.Drain? && step.w == w <==> Apply(s, step).outgoings[w].head > s.outgoings[w].head
  {
    var q, q' := s.outgoings[w], Apply(s, step).outgoings[w];
    if step.Drain? && step.w == w {
      assert Removes(q, q', 1);
    } else if step.Answer? && step.w == w && step.stored {
      assert Appends(q, q', [s.workers[w].reply]);
    } else {
      assert q' == q;
    }
  }

  /* ---------- Where an event is ---------- */

  /** How often event `e` occurs in a list of events. */
  function Count(ids: seq<nat>, e: nat): nat {
    if |ids| == 0 then 0 else One(ids[0] == e) + Count(ids[1..], e)
  }

  /** `log` is the incoming queue's, where a fetching worker is about to read. */
  function InHands(w: Worker, log: seq<nat>, e: nat): nat {
    match w
    case Fetching(i) => One(i < |log| && log[i] == e)
    case Handling(id) => One(id == e)
    case Replying(r) => One(r.event == e)
    case _ => 0
  }

  function Waiting(replies: seq<Reply>, e: nat): nat {
    if |replies| == 0 then 0 else One(replies[0].event == e) + Waiting(replies[1..], e)
  }

  /** How often event `e` is with a worker or stored in its outgoing sub-queue. */
  function Held(workers: seq<Worker>, log: seq<nat>, outgoings: seq<Queue<Reply>>, e: nat): nat
    requires |outgoings| == |workers| && AllProper(outgoings)
  {
    if |workers| == 0 then 0
    else
      var last := |workers| - 1;
      Held(workers[..last], log, outgoings[..last], e) + InHands(workers[last], log, e)
        + Waiting(outgoings[last].Stored(), e)
  }

  function WithMain(m: Main, outgoings: seq<Queue<Reply>>, e: nat): nat {
    match m
    case Receiving(w, i) => One(w < |outgoings| && i < |outgoings[w].log| && outgoings[w].log[i].event == e)
    case Sending(_, r) => One(r.event == e)
    case _ => 0
  }

  function Settled(outcomes: seq<Outcome>, e: nat): nat {
    if |outcomes| == 0 then 0
    else Settled(outcomes[..|outcomes| - 1], e) + One(outcomes[|outcomes| - 1].reply.event == e)
  }

  /** In how many places event `e` is: stored in a queue, in hand, answered or dropped. */
  function Places(s: State, e: nat): nat
    requires QueuesOk(s)
  {
    Count(s.incomings.Stored(), e) + Held(s.workers, s.incomings.log, s.outgoings, e)
    + WithMain(s.main, s.outgoings, e) + Settled(s.outcomes, e) + Count(s.dropped, e)
  }

  lemma {:induction false} HeldUpdate(
      workers: seq<Worker>, log: seq<nat>, outgoings: seq<Queue<Reply>>, w: nat, worker: Worker, q: Queue<Reply>,
        e: nat)
    requires |outgoings| == |workers| && w < |workers| && AllProper(outgoings) && q.Proper()
    ensures Held(workers[w := worker], log, outgoings[w := q], e)
         == Held(workers, log, outgoings, e) - InHands(workers[w], log, e) - Waiting(outgoings[w].Stored(), e)
            + InHands(worker, log, e) + Waiting(q.Stored(), e)
  {
    var last := |workers| - 1;
    if w == last {
      assert workers[w := worker][..last] == workers[..last] && outgoings[w := q][..last] == outgoings[..last];
    } else {
      assert workers[w := worker][..last] == workers[..last][w := worker];
      assert outgoings[w := q][..last] == outgoings[..last][w := q];
      HeldUpdate(workers[..last], log, outgoings[..last], w, worker, q, e);
    }
  }

  /** Publishing another incoming event changes nothing for the workers that are fetching. */
  lemma {:induction false} HeldGrown(workers: seq<Worker>, log: seq<nat>, id: nat, outgoings: seq<Queue<Reply>>, e: nat)
    requires |outgoings| == |workers| && AllProper(outgoings)
    requires forall w :: 0 <= w < |workers| && workers[w].Fetching? ==> workers[w].index < |log|
    ensures Held(workers, log + [id], outgoings, e) == Held(workers, log, outgoings, e)
  {
    if |workers| > 0 {
      HeldGrown(workers[..|workers| - 1], log, id, outgoings[..|workers| - 1], e);
    }
  }

  lemma {:induction false} WaitingAppend(replies: seq<Reply>, r: Reply, e: nat)
    ensures Waiting(replies + [r], e) == Waiting(replies, e) + One(r.event == e)
  {
    if |replies| > 0 {
      assert (replies + [r])[1..] == replies[1..] + [r];
      WaitingAppend(replies[1..], r, e);
    }
  }

  lemma {:induction false} CountAppend(ids: seq<nat>, id: nat, e: nat)
    ensures Count(ids + [id], e) == Count(ids, e) + One(id == e)
  {
    if |ids| > 0 {
      assert (ids + [id])[1..] == ids[1..] + [id];
      CountAppend(ids[1..], id, e);
    }
  }

  predicate WorkerStep(step: Step) {
    step.Wake? || step.Take? || step.TakeEmpty? || step.Fetch? || step.Handle? || step.Answer?
  }

  lemma HandleCounts(s: State, w: nat, serverTime: int, e: nat)
    requires Enabled(s, Handle(w, serverTime))
    ensures var s' := Handled(s, w, serverTime);
      && |s'.workers| == |s.workers| && s'.outgoings == s.outgoings && s'.incomings == s.incomings
      && s'.main == s.main && s'.outcomes == s.outcomes
      && InHands(s'.workers[w], s.incomings.log, e) + Count(s'.dropped, e)
         == InHands(s.workers[w], s.incomings.log, e) + Count(s.dropped, e)
  {
    CountAppend(s.dropped, s.workers[w].event, e);
  }

  /** A worker's step publishes no event, and changes no other worker and no other worker's replies. */
  lemma WorkerAlone(s: State, step: Step)
    requires |s.outgoings| == |s.workers| && Enabled(s, step) && WorkerStep(step)
    ensures var s', w := Apply(s, step), step.w;
      && |s'.workers| == |s.workers| && |s'.outgoings| == |s.outgoings| && s'.main == s.main
      && s'.outcomes == s.outcomes
      && s'.incomings.log == s.incomings.log
      && s'.workers == s.workers[w := s'.workers[w]] && s'.outgoings == s.outgoings[w := s'.outgoings[w]]
  {}

  /** The pieces of the count that a worker's step moves the event between. */
  lemma WorkerMoves(s: State, step: Step, e: nat)
    requires QueuesOk(s) && Enabled(s, step) && WorkerStep(step) && QueuesOk(Apply(s, step))
    ensures var s', w, log := Apply(s, step), step.w, s.incomings.log;
      Count(s'.incomings.Stored(), e) + InHands(s'.workers[w], log, e) + Waiting(s'.outgoings[w].Stored(), e)
        + Count(s'.dropped, e)
      == Count(s.incomings.Stored(), e) + InHands(s.workers[w], log, e) + Waiting(s.outgoings[w].Stored(), e)
        + Count(s.dropped, e)
  {
    var s', w := Apply(s, step), step.w;
    match step
    case Take(_) => assert s.incomings.Stored()[1..] == s'.incomings.Stored();
    case Handle(_, serverTime) => HandleCounts(s, w, serverTime, e);
    case Answer(_, stored) =>
      var r := s.workers[w].reply;
      if stored {
        assert s'.outgoings[w].Stored() == s.outgoings[w].Stored() + [r];
      }
      WaitingAppend(s.outgoings[w].Stored(), r, e);
      CountAppend(s.dropped, r.event, e);
    case _ =>
  }

  lemma WorkerPlaces(s: State, step: Step, e: nat)
    requires QueuesOk(s) && Enabled(s, step) && WorkerStep(step)
    ensures QueuesOk(Apply(s, step)) && Places(Apply(s, step), e) == Places(s, e)
  {
    var s', w := Apply(s, step), step.w;
    QueuesStep(s, step);
    WorkerAlone(s, step);
    WorkerMoves(s, step, e);
    HeldUpdate(s.workers, s.incomings.log, s.outgoings, w, s'.workers[w], s'.outgoings[w], e);
    PassedByWorkers(s, step, e);
  }

  /** A worker does not touch the reply the main loop is about to read. */
  lemma PassedByWorkers(s: State, step: Step, e: nat)
    requires QueuesOk(s) && Enabled(s, step) && WorkerStep(step)
    ensures WithMain(Apply(s, step).main, Apply(s, step).outgoings, e) == WithMain(s.main, s.outgoings, e)
  {}

  lemma ReceivePlaces(s: State, event: Event, stored: bool, e: nat)
    requires QueuesOk(s) && Enabled(s, Receive(event, stored))
    ensures var s' := Apply(s, Receive(event, stored));
      QueuesOk(s') && Places(s', e) == Places(s, e) + One(e == |s.received|)
  {
    var id, s' := |s.received|, Apply(s, Receive(event, stored));
    QueuesStep(s, Receive(event, stored));
    forall w | 0 <= w < |s.workers| && s.workers[w].Fetching? ensures s.workers[w].index < |s.incomings.log| {
      assert FetchOk(s, w);
    }
    if stored {
      assert s'.incomings.Stored() == s.incomings.Stored() + [id];
    }
    HeldGrown(s.workers, s.incomings.log, id, s.outgoings, e);
    CountAppend(s.incomings.Stored(), id, e);
    CountAppend(s.dropped, id, e);
  }

  lemma DrainPlaces(s: State, w: nat, e: nat)
    requires QueuesOk(s) && Enabled(s, Drain(w))
    ensures QueuesOk(Apply(s, Drain(w))) && Places(Apply(s, Drain(w)), e) == Places(s, e)
  {
    var s' := Apply(s, Drain(w));
    QueuesStep(s, Drain(w));
    HeldUpdate(s.workers, s.incomings.log, s.outgoings, w, s.workers[w], s'.outgoings[w], e);
    assert s.workers[w := s.workers[w]] == s.workers;
    assert s.outgoings[w].Stored()[1..] == s'.outgoings[w].Stored();
  }

  /** Only receiving an event puts it anywhere; every other step moves it from one place to another. */
  lemma StepPlaces(s: State, step: Step, e: nat)
    requires QueuesOk(s) && Enabled(s, step)
    ensures QueuesOk(Apply(s, step))
    ensures Places(Apply(s, step), e) == Places(s, e) + One(step.Receive? && e == |s.received|)
  {
    if WorkerStep(step) {
      WorkerPlaces(s, step, e);
    } else {
      match step
      case Receive(event, stored) => ReceivePlaces(s, event, stored, e);
      case Drain(w) => DrainPlaces(s, w, e);
      case Send =>
        QueuesStep(s, step);
        assert Apply(s, step).outcomes[..|s.outcomes|] == s.outcomes;
      case _ => QueuesStep(s, step);
    }
  }

  lemma {:induction false} HeldNothing(workers: seq<Worker>, outgoings: seq<Queue<Reply>>, e: nat)
    requires |outgoings| == |workers|
    requires forall w :: 0 <= w < |workers| ==> workers[w].Pausing? && outgoings[w] == Queue([], 0)
    ensures Held(workers, [], outgoings, e) == 0
  {
    if |workers| > 0 {
      var last := |workers| - 1;
      HeldNothing(workers[..last], outgoings[..last], e);
    }
  }

  lemma {:induction false} HeldCovers(workers: seq<Worker>, log: seq<nat>, outgoings: seq<Queue<Reply>>, w: nat, e: nat)
    requires |outgoings| == |workers| && AllProper(outgoings) && w < |workers|
    ensures Held(workers, log, outgoings, e) >= InHands(workers[w], log, e)
  {
    if w < |workers| - 1 {
      HeldCovers(workers[..|workers| - 1], log, outgoings[..|workers| - 1], w, e);
    }
  }

  lemma {:induction false} HeldByTwo(
      workers: seq<Worker>, log: seq<nat>, outgoings: seq<Queue<Reply>>, v: nat, w: nat, e: nat)
    requires |outgoings| == |workers| && AllProper(outgoings) && v < w < |workers|
    ensures Held(workers, log, outgoings, e) >= InHands(workers[v], log, e) + InHands(workers[w], log, e)
  {
    if w == |workers| - 1 {
      HeldCovers(workers[..w], log, outgoings[..w], v, e);
    } else {
      HeldByTwo(workers[..|workers| - 1], log, outgoings[..|workers| - 1], v, w, e);
    }
  }

  lemma {:induction false} SettledCovers(outcomes: seq<Outcome>, i: nat)
    requires i < |outcomes|
    ensures Settled(outcomes, outcomes[i].reply.event) >= 1
  {
    if i < |outcomes| - 1 {
      SettledCovers(outcomes[..|outcomes| - 1], i);
    }
  }

  lemma {:induction false} SettledTwice(outcomes: seq<Outcome>, i: nat, j: nat)
    requires i < j < |outcomes| && outcomes[i].reply.event == outcomes[j].reply.event
    ensures Settled(outcomes, outcomes[i].reply.event) >= 2
  {
    if j == |outcomes| - 1 {
      SettledCovers(outcomes[..j], i);
    } else {
      SettledTwice(outcomes[..|outcomes| - 1], i, j);
    }
  }

  /* ---------- The order of replies ---------- */

  /** The replies of worker `w` among the outcomes, in order. */
  function SettledBy(outcomes: seq<Outcome>, w: nat): seq<Reply> {
    if |outcomes| == 0 then []
    else
      var last := outcomes[|outcomes| - 1];
      SettledBy(outcomes[..|outcomes| - 1], w) + (if last.worker == w then [last.reply] else [])
  }

  /** The reply of worker `w` that the main loop is busy with, if any. */
  function Passing(m: Main, outgoings: seq<Queue<Reply>>, w: nat): seq<Reply> {
    match m
    case Receiving(v, i) =>
      if v == w && v < |outgoings| && i < |outgoings[v].log| then [outgoings[v].log[i]] else []
    case Sending(v, r) => if v == w then [r] else []
    case _ => []
  }

  /** The replies settled or passing are exactly those claimed from the worker's sub-queue, in order. */
  predicate InOrder(s: State, w: nat)
    requires w < |s.outgoings| && s.outgoings[w].Proper()
  {
    SettledBy(s.outcomes, w) + Passing(s.main, s.outgoings, w) == s.outgoings[w].log[..s.outgoings[w].head]
  }

  lemma InOrderStep(s: State, step: Step, w: nat)
    requires QueuesOk(s) && Enabled(s, step) && QueuesOk(Apply(s, step)) && w < |s.outgoings| && InOrder(s, w)
    ensures InOrder(Apply(s, step), w)
  {
    var s' := Apply(s, step);
    var q, q' := s.outgoings[w], s'.outgoings[w];
    if WorkerStep(step) {
      PassingByWorkers(s, step, w);
    } else {
      match step
      case Drain(v) =>
        if v == w {
          assert q'.log[..q'.head] == q.log[..q.head] + [q.log[q.head]];
        }
      case Send => assert s'.outcomes[..|s.outcomes|] == s.outcomes;
      case _ =>
    }
  }

  lemma PassingByWorkers(s: State, step: Step, w: nat)
    requires QueuesOk(s) && Enabled(s, step) && WorkerStep(step) && w < |s.outgoings|
    ensures var q, q' := s.outgoings[w], Apply(s, step).outgoings[w];
      q'.head == q.head && q'.log[..q.head] == q.log[..q.head]
    ensures Apply(s, step).outcomes == s.outcomes
    ensures Passing(Apply(s, step).main, Apply(s, step).outgoings, w) == Passing(s.main, s.outgoings, w)
  {}
}
