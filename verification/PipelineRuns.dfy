/** What every run of the pipeline keeps. */
module PipelineRuns {
  import opened Basics
  import opened Words
  import opened Handoff
  import opened Pipeline
  import opened PipelinePlaces

  /** Every received event is in one place. */
  ghost predicate Placed(s: State)
    requires QueuesOk(s)
  {
    forall e: nat :: Places(s, e) == One(e < |s.received|)
  }

  lemma PlacedStep(s: State, step: Step)
    requires QueuesOk(s) && Placed(s) && Enabled(s, step)
    ensures QueuesOk(Apply(s, step)) && Placed(Apply(s, step))
  {
    QueuesStep(s, step);
    forall e: nat ensures Places(Apply(s, step), e) == One(e < |Apply(s, step).received|) {
      StepPlaces(s, step, e);
      assert Places(s, e) == One(e < |s.received|);
      ReceivedStep(s, step);
    }
  }

  lemma ReceivedStep(s: State, step: Step)
    requires Enabled(s, step)
    ensures |Apply(s, step).received| == |s.received| + One(step.Receive?)
  {}

  /* ---------- Replies answer their events ---------- */

  /** A peer's data after `disconnects` disconnections. */
  function Generation(base: Word, disconnects: nat): Word {
    (base + STRIDE * disconnects) % WORD
  }

  /** Two generations of a peer are the same word exactly when a whole number of turns lies between. */
  lemma SameGeneration(base: Word, early: nat, late: nat)
    requires early <= late
    ensures Generation(base, late) == Generation(base, early) <==> (late - early) % GENERATIONS == 0
  {
    var q, r := (late - early) / GENERATIONS, (late - early) % GENERATIONS;
    var a := base + STRIDE * early;
    assert base + STRIDE * late == a + STRIDE * r + q * WORD;
    ModShift(a + STRIDE * r, q, WORD);
    if Generation(base, late) == Generation(base, early) {
      PartTurn(a, r);
    }
  }

  /** Less than a turn of disconnections changes the word, if there are any. */
  lemma PartTurn(a: nat, disconnections: nat)
    requires disconnections < GENERATIONS && (a + STRIDE * disconnections) % WORD == a % WORD
    ensures disconnections == 0
  {
    ModInjective(a + STRIDE * disconnections, a, WORD);
  }

  /** A reply goes where its event's handler sends it, with what the handler read. */
  predicate Answers(r: Reply, received: seq<Event>, bases: seq<Word>, peers: seq<Peer>) {
    && r.event < |received|
    && var e := received[r.event];
       && r.channel == e.channel
       && match e.message
          case Chat(text) => r.peer == None && r.payload == Echo(text)
          case ClockSync(clientTime) =>
            && r.peer == Some(e.peer) && e.peer < |bases| && e.peer < |peers|
            && r.payload.Clock? && r.payload.clientTime == clientTime
            && r.generation == Generation(bases[e.peer], r.readAt) && r.readAt <= peers[e.peer].disconnects
          case _ => false
  }

  predicate FateOk(o: Outcome, peers: seq<Peer>) {
    match o.fate
    case Broadcast => o.reply.peer == None
    case Sent(at) =>
      && o.reply.peer.Some? && o.reply.peer.value < |peers|
      && o.reply.readAt <= at <= peers[o.reply.peer.value].disconnects && (at - o.reply.readAt) % GENERATIONS == 0
    case Stale(at) =>
      && o.reply.peer.Some? && o.reply.peer.value < |peers|
      && o.reply.readAt <= at <= peers[o.reply.peer.value].disconnects && (at - o.reply.readAt) % GENERATIONS != 0
  }

  predicate ReplyOk(s: State, bases: seq<Word>, r: Reply) {
    Answers(r, s.received, bases, s.peers)
  }

  predicate WorkerOk(s: State, bases: seq<Word>, w: nat)
    requires w < |s.workers|
  {
    && (s.workers[w].Handling? ==> s.workers[w].event < |s.received|)
    && (s.workers[w].Replying? ==> ReplyOk(s, bases, s.workers[w].reply))
  }

  predicate OutgoingOk(s: State, bases: seq<Word>, w: nat)
    requires w < |s.outgoings|
  {
    forall i :: 0 <= i < |s.outgoings[w].log| ==> ReplyOk(s, bases, s.outgoings[w].log[i])
  }

  predicate OutcomeOk(s: State, bases: seq<Word>, i: nat)
    requires i < |s.outcomes|
  {
    ReplyOk(s, bases, s.outcomes[i].reply) && FateOk(s.outcomes[i], s.peers)
  }

  /** Events enter the incoming queue in the order in which they were received. */
  predicate Increasing(log: seq<nat>) {
    forall i, j :: 0 <= i < j < |log| ==> log[i] < log[j]
  }

  predicate PeersOk(s: State, bases: seq<Word>) {
    && |bases| == |s.peers|
    && (forall p :: 0 <= p < |s.peers| ==> s.peers[p].data == Generation(bases[p], s.peers[p].disconnects))
    && (forall e :: 0 <= e < |s.received| ==> s.received[e].peer < |s.peers|)
    && (forall i :: 0 <= i < |s.incomings.log| ==> s.incomings.log[i] < |s.received|)
    && Increasing(s.incomings.log)
  }

  predicate Sound(s: State, bases: seq<Word>) {
    && PeersOk(s, bases)
    && (forall w :: 0 <= w < |s.workers| ==> WorkerOk(s, bases, w))
    && (forall w :: 0 <= w < |s.outgoings| ==> OutgoingOk(s, bases, w))
    && (s.main.Sending? ==> ReplyOk(s, bases, s.main.reply))
    && (forall i :: 0 <= i < |s.outcomes| ==> OutcomeOk(s, bases, i))
  }

  ghost predicate Inv(s: State, bases: seq<Word>) {
    && Sound(s, bases) && QueuesOk(s) && Placed(s)
    && forall w :: 0 <= w < |s.outgoings| ==> InOrder(s, w)
  }

  lemma AnswersKept(
      r: Reply, received: seq<Event>, received': seq<Event>, bases: seq<Word>, peers: seq<Peer>,
      peers': seq<Peer>)
    requires Answers(r, received, bases, peers) && received <= received' && |peers'| == |peers|
    requires forall p :: 0 <= p < |peers| ==> peers[p].disconnects <= peers'[p].disconnects
    ensures Answers(r, received', bases, peers')
  {}

  lemma SoundStep(s: State, bases: seq<Word>, step: Step)
    requires Sound(s, bases) && Enabled(s, step)
    ensures Sound(Apply(s, step), bases)
  {
    var s' := Apply(s, step);
    assert s.received <= s'.received && |s'.peers| == |s.peers|;
    forall r | ReplyOk(s, bases, r) ensures ReplyOk(s', bases, r) {
      AnswersKept(r, s.received, s'.received, bases, s.peers, s'.peers);
    }
    PeersStep(s, bases, step);
    forall w | 0 <= w < |s'.workers| ensures WorkerOk(s', bases, w) {
      WorkersStep(s, bases, step, w);
    }
    forall w | 0 <= w < |s'.outgoings| ensures OutgoingOk(s', bases, w) {
      OutgoingsStep(s, bases, step, w);
    }
    if step.ReadReply? {
      assert OutgoingOk(s, bases, s.main.worker);
    }
    OutcomesStep(s, bases, step);
  }

  lemma OutcomesStep(s: State, bases: seq<Word>, step: Step)
    requires Sound(s, bases) && Enabled(s, step)
    requires forall r :: ReplyOk(s, bases, r) ==> ReplyOk(Apply(s, step), bases, r)
    ensures forall i :: 0 <= i < |Apply(s, step).outcomes| ==> OutcomeOk(Apply(s, step), bases, i)
  {
    var s' := Apply(s, step);
    forall i | 0 <= i < |s'.outcomes| ensures OutcomeOk(s', bases, i) {
      if i < |s.outcomes| {
        assert OutcomeOk(s, bases, i);
      } else {
        NewOutcome(s, bases);
      }
    }
  }

  lemma PeersStep(s: State, bases: seq<Word>, step: Step)
    requires Sound(s, bases) && Enabled(s, step)
    ensures PeersOk(Apply(s, step), bases)
  {
    if step.Disconnect? {
      ModAdd(bases[step.peer] + STRIDE * s.peers[step.peer].disconnects, STRIDE, WORD);
    }
  }

  lemma WorkersStep(s: State, bases: seq<Word>, step: Step, w: nat)
    requires Sound(s, bases) && Enabled(s, step) && w < |s.workers|
    requires forall r :: ReplyOk(s, bases, r) ==> ReplyOk(Apply(s, step), bases, r)
    ensures WorkerOk(Apply(s, step), bases, w)
  {
    assert WorkerOk(s, bases, w);
  }

  lemma OutgoingsStep(s: State, bases: seq<Word>, step: Step, w: nat)
    requires Sound(s, bases) && Enabled(s, step) && w < |s.outgoings|
    requires forall r :: ReplyOk(s, bases, r) ==> ReplyOk(Apply(s, step), bases, r)
    ensures OutgoingOk(Apply(s, step), bases, w)
  {
    assert OutgoingOk(s, bases, w);
    if step.Answer? && w == step.w {
      assert WorkerOk(s, bases, w);
    }
  }

  lemma NewOutcome(s: State, bases: seq<Word>)
    requires Sound(s, bases) && Enabled(s, Send)
    ensures FateOk(Outcome(s.main.worker, s.main.reply, FateOf(s, s.main.reply)), s.peers)
  {
    var r := s.main.reply;
    if r.peer.Some? {
      SameGeneration(bases[r.peer.value], r.readAt, s.peers[r.peer.value].disconnects);
    }
  }

  function Bases(s: State): seq<Word> {
    seq(|s.peers|, p requires 0 <= p < |s.peers| => s.peers[p].data)
  }

  lemma {:induction false} RunKeepsInv(states: seq<State>, steps: seq<Step>, k: nat)
    requires IsRun(states, steps) && k < |states|
    ensures Inv(states[k], Bases(states[0]))
  {
    if k == 0 {
      forall e: nat ensures Places(states[0], e) == 0 {
        HeldNothing(states[0].workers, states[0].outgoings, e);
      }
    } else {
      RunKeepsInv(states, steps, k - 1);
      StepKeepsInv(states[k - 1], Bases(states[0]), steps[k - 1]);
    }
  }

  lemma StepKeepsInv(s: State, bases: seq<Word>, step: Step)
    requires Inv(s, bases) && Enabled(s, step)
    ensures Inv(Apply(s, step), bases)
  {
    PlacedStep(s, step);
    SoundStep(s, bases, step);
    forall w | 0 <= w < |Apply(s, step).outgoings| ensures InOrder(Apply(s, step), w) {
      InOrderStep(s, step, w);
    }
  }

  /* ---------- What every run keeps ---------- */

  /** Every received event is in exactly one place: still queued, with one worker or its replies, with
      the main loop, answered, or dropped. */
  lemma EachEventOnce(states: seq<State>, steps: seq<Step>, k: nat, e: nat)
    requires IsRun(states, steps) && k < |states|
    ensures QueuesOk(states[k])
    ensures var s := states[k];
      Count(s.incomings.Stored(), e) + Held(s.workers, s.incomings.log, s.outgoings, e)
        + WithMain(s.main, s.outgoings, e)
        + Settled(s.outcomes, e) + Count(s.dropped, e)
      == One(e < |s.received|)
  {
    RunKeepsInv(states, steps, k);
    assert Places(states[k], e) == One(e < |states[k].received|);
  }

  /** No two workers ever have the same event, from the claim of its index on. */
  lemma OneWorkerPerEvent(states: seq<State>, steps: seq<Step>, k: nat, v: nat, w: nat, e: nat)
    requires IsRun(states, steps) && k < |states| && v < w < |states[k].workers|
    ensures var s := states[k];
      InHands(s.workers[v], s.incomings.log, e) + InHands(s.workers[w], s.incomings.log, e) <= 1
  {
    EachEventOnce(states, steps, k, e);
    HeldByTwo(states[k].workers, states[k].incomings.log, states[k].outgoings, v, w, e);
  }

  /** Each event is answered at most once: its reply is broadcast, sent or found stale once. */
  lemma OneAnswerPerEvent(states: seq<State>, steps: seq<Step>, k: nat, i: nat, j: nat)
    requires IsRun(states, steps) && k < |states| && i < j < |states[k].outcomes|
    ensures states[k].outcomes[i].reply.event != states[k].outcomes[j].reply.event
  {
    var outcomes := states[k].outcomes;
    EachEventOnce(states, steps, k, outcomes[i].reply.event);
    if outcomes[i].reply.event == outcomes[j].reply.event {
      SettledTwice(outcomes, i, j);
    }
  }

  /** A chat message is only broadcast; a clock answer goes to its sender alone, and is sent exactly
      when a whole number of generation turns of disconnections lies since its generation was read. */
  predicate RightFate(o: Outcome, received: seq<Event>) {
    && o.reply.event < |received|
    && var e := received[o.reply.event];
       match e.message
       case Chat(text) => o.fate == Broadcast && o.reply.payload == Echo(text)
       case ClockSync(_) =>
         && o.reply.peer == Some(e.peer) && !o.fate.Broadcast? && o.reply.readAt <= o.fate.at
         && (o.fate.Sent? <==> (o.fate.at - o.reply.readAt) % GENERATIONS == 0)
       case _ => false
  }

  lemma AnswersRightly(o: Outcome, received: seq<Event>, bases: seq<Word>, peers: seq<Peer>)
    requires Answers(o.reply, received, bases, peers) && FateOk(o, peers)
    ensures RightFate(o, received)
  {}

  /** With less than a turn of disconnections in between, a clock answer is sent exactly when the peer
      has not disconnected since the handler read the generation. */
  lemma SentWithinGeneration(states: seq<State>, steps: seq<Step>, k: nat, i: nat)
    requires IsRun(states, steps) && k < |states| && i < |states[k].outcomes|
    ensures var o := states[k].outcomes[i];
      && RightFate(o, states[k].received)
      && (!o.fate.Broadcast? && o.fate.at - o.reply.readAt < GENERATIONS ==>
           (o.fate.Sent? <==> o.fate.at == o.reply.readAt))
  {
    RunKeepsInv(states, steps, k);
    assert OutcomeOk(states[k], Bases(states[0]), i);
    var o := states[k].outcomes[i];
    AnswersRightly(o, states[k].received, Bases(states[0]), states[k].peers);
    if !o.fate.Broadcast? && o.fate.at - o.reply.readAt < GENERATIONS {
      LessThanATurn(o, states[k].received);
    }
  }

  lemma LessThanATurn(o: Outcome, received: seq<Event>)
    requires RightFate(o, received) && !o.fate.Broadcast? && o.fate.at - o.reply.readAt < GENERATIONS
    ensures o.fate.Sent? <==> o.fate.at == o.reply.readAt
  {
    SmallTurn(o.fate.at - o.reply.readAt);
  }

  lemma SmallTurn(disconnections: nat)
    requires disconnections < GENERATIONS
    ensures disconnections % GENERATIONS == 0 <==> disconnections == 0
  {}

  /* ---------- What the queues are used for ---------- */

  function Incomings(states: seq<State>): (queues: seq<Queue<nat>>)
    ensures |queues| == |states| && forall k :: 0 <= k < |states| ==> queues[k] == states[k].incomings
  {
    seq(|states|, k requires 0 <= k < |states| => states[k].incomings)
  }

  lemma IncomingHistory(states: seq<State>, steps: seq<Step>)
    requires IsRun(states, steps)
    ensures History(Incomings(states))
    ensures forall k :: 0 <= k < |steps| ==>
      (steps[k].Take? <==> states[k + 1].incomings.head > states[k].incomings.head)
  {
    forall k | 0 <= k < |steps|
      ensures Hands(Incomings(states)[k], Incomings(states)[k + 1])
      ensures steps[k].Take? <==> states[k + 1].incomings.head > states[k].incomings.head
    {
      RunKeepsInv(states, steps, k);
      assert Enabled(states[k], steps[k]) && states[k + 1] == Apply(states[k], steps[k]);
      IncomingHands(states[k], steps[k]);
    }
  }

  function Outgoings(states: seq<State>, w: nat): (queues: seq<Queue<Reply>>)
    requires forall k :: 0 <= k < |states| ==> w < |states[k].outgoings|
    ensures |queues| == |states| && forall k :: 0 <= k < |states| ==> queues[k] == states[k].outgoings[w]
  {
    seq(|states|, k requires 0 <= k < |states| => states[k].outgoings[w])
  }

  lemma {:induction false} SameWorkers(states: seq<State>, steps: seq<Step>, k: nat)
    requires IsRun(states, steps) && k < |states|
    ensures |states[k].outgoings| == |states[0].outgoings|
  {
    if k > 0 {
      SameWorkers(states, steps, k - 1);
      assert Enabled(states[k - 1], steps[k - 1]) && states[k] == Apply(states[k - 1], steps[k - 1]);
    }
  }

  /** So what module Handoff says of a sub-queue's history holds of every worker's replies too. */
  lemma OutgoingHistory(states: seq<State>, steps: seq<Step>, w: nat)
    requires IsRun(states, steps) && w < |states[0].outgoings|
    ensures forall k :: 0 <= k < |states| ==> w < |states[k].outgoings|
    ensures History(Outgoings(states, w))
  {
    forall k | 0 <= k < |states| ensures w < |states[k].outgoings| {
      SameWorkers(states, steps, k);
    }
    forall k | 0 <= k < |steps| ensures Hands(Outgoings(states, w)[k], Outgoings(states, w)[k + 1]) {
      RunKeepsInv(states, steps, k);
      assert Enabled(states[k], steps[k]) && states[k + 1] == Apply(states[k], steps[k]);
      OutgoingHands(states[k], steps[k], w);
    }
  }

  /** Step `k` is a worker's dequeue that claims index `i` of the incoming queue. */
  predicate TakesAt(states: seq<State>, steps: seq<Step>, k: nat, i: nat) {
    k < |steps| && k < |states| && steps[k].Take? && states[k].incomings.head == i
  }

  /** Each element of the incoming queue below its head was claimed by exactly one dequeue of one worker. */
  lemma ClaimedByOneWorker(states: seq<State>, steps: seq<Step>, last: nat, i: nat) returns (k: nat)
    requires IsRun(states, steps) && last < |states| && i < states[last].incomings.head
    ensures k < last && forall j: nat :: TakesAt(states, steps, j, i) <==> j == k
    ensures i < |states[k].incomings.log| && i < |states[last].incomings.log|
    ensures states[k].incomings.log[i] == states[last].incomings.log[i]
  {
    var queues := Incomings(states);
    IncomingHistory(states, steps);
    k := ClaimedOnce(queues, last, i);
    assert states[k + 1] == Apply(states[k], steps[k]);
    forall j: nat ensures TakesAt(states, steps, j, i) <==> j == k {
      if TakesAt(states, steps, j, i) {
        assert states[j + 1] == Apply(states[j], steps[j]);
        assert ClaimsAt(queues, j, i);
      }
    }
  }

  /** Workers take events in the order in which they were received. */
  lemma TakenInOrder(states: seq<State>, steps: seq<Step>, j: nat, k: nat)
    requires IsRun(states, steps) && j < k < |steps| && steps[j].Take? && steps[k].Take?
    ensures Enabled(states[j], steps[j]) && Enabled(states[k], steps[k])
    ensures var a, b := states[j].incomings, states[k].incomings;
      a.log[a.head] < b.log[b.head]
  {
    IncomingHistory(states, steps);
    HistoryGrows(Incomings(states), j + 1, k);
    HistoryGrows(Incomings(states), j, k);
    RunKeepsInv(states, steps, k);
    assert Enabled(states[j], steps[j]) && states[j + 1] == Apply(states[j], steps[j]);
  }

  /** The main loop settles each worker's replies in the order in which that worker made them, leaving
      out none: those settled and the one in hand are exactly the first `head` it published. */
  lemma RepliesInOrder(states: seq<State>, steps: seq<Step>, k: nat, w: nat)
    requires IsRun(states, steps) && k < |states| && w < |states[k].outgoings|
    ensures var q := states[k].outgoings[w];
      q.Proper() && SettledBy(states[k].outcomes, w) + Passing(states[k].main, states[k].outgoings, w)
        == q.log[..q.head]
  {
    RunKeepsInv(states, steps, k);
    assert InOrder(states[k], w);
  }
}
