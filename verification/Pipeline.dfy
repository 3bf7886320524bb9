/**
 The server's pipeline: a main loop that services the network and sends replies, worker threads that
 handle events, and the queues between them. Each access to a peer's generation is one step.

 A queue here is what module Handoff says of one producer's sub-queue, and what
 `ImplicitRuns.RefinesHandoff` proves of the implicit producer: publishing appends at the tail, a dequeue
 first claims the index at the head and reads the element published there in a later step. The main
 loop is the only producer of incoming events, and each worker has its own outgoing sub-queue.
 */
module Pipeline {
  import opened Basics
  import opened Words
  import opened Handoff

  /** What a worker finds in a received packet. */
  datatype Message =
    | Malformed
    | Unhandled
    | Nothing
    | FlightCtrl
    | Chat(text: seq<int>)
    | ClockSync(clientTime: int)

  datatype Event = Event(peer: nat, channel: nat, message: Message)

  datatype Payload = Echo(text: seq<int>) | Clock(clientTime: int, serverTime: int)

  /** No peer means broadcast. `event` says which event this answers, and `readAt` how many times the
      peer had disconnected when the handler read its generation. */
  datatype Reply = Reply(event: nat, channel: nat, payload: Payload, peer: Option<nat>, generation: Word, readAt: nat)

  /** What the main loop did with a reply; `at` is how many times the peer had disconnected by then. */
  datatype Fate = Broadcast | Sent(at: nat) | Stale(at: nat)

  datatype Outcome = Outcome(worker: nat, reply: Reply, fate: Fate)

  /** A peer's data pointer, and how often the peer has disconnected. */
  datatype Peer = Peer(data: Word, disconnects: nat)

  /** A worker that is fetching has claimed an index of the incoming queue and not read it yet. */
  datatype Worker = Pausing | Looking | Fetching(index: nat) | Handling(event: nat) | Replying(reply: Reply) | Finished

  /** A main loop that is receiving has claimed an index of worker `worker`'s outgoing sub-queue. */
  datatype Main =
    | Servicing
    | Draining
    | Receiving(worker: nat, index: nat)
    | Sending(worker: nat, reply: Reply)
    | Stopped

  /** `received` is the history of received events; an event is named by its position there. */
  datatype State = State(
    stop: bool, peers: seq<Peer>, received: seq<Event>, incomings: Queue<nat>,
    workers: seq<Worker>, outgoings: seq<Queue<Reply>>, main: Main,
    outcomes: seq<Outcome>, dropped: seq<nat>)

  datatype Step =
    | Signal
    | Receive(event: Event, stored: bool)
    | Disconnect(peer: nat)
    | OtherEvent
    | Drain(w: nat)
    | DrainEmpty
    | ReadReply
    | Send
    | Wake(w: nat)
    | Take(w: nat)
    | TakeEmpty(w: nat)
    | Fetch(w: nat)
    | Handle(w: nat, serverTime: int)
    | Answer(w: nat, stored: bool)

  /** The generation is a pointer to int, so each disconnection adds the size of one. */
  const STRIDE: int := 4

  /** How many disconnections bring a generation back to the same word. */
  const GENERATIONS: int := WORD / STRIDE

  predicate Enabled(s: State, step: Step) {
    match step
    case Signal => true
    case Receive(event, _) => s.main.Servicing? && event.peer < |s.peers|
    case Disconnect(p) => s.main.Servicing? && p < |s.peers|
    case OtherEvent => s.main.Servicing?
    case Drain(w) => s.main.Draining? && w < |s.outgoings| && s.outgoings[w].head < |s.outgoings[w].log|
    case DrainEmpty => s.main.Draining?
    case ReadReply =>
      s.main.Receiving? && s.main.worker < |s.outgoings| && s.main.index < |s.outgoings[s.main.worker].log|
    case Send => s.main.Sending? && (s.main.reply.peer.Some? ==> s.main.reply.peer.value < |s.peers|)
    case Wake(w) => w < |s.workers| && s.workers[w].Pausing?
    case Take(w) => w < |s.workers| && s.workers[w].Looking? && s.incomings.head < |s.incomings.log|
    case TakeEmpty(w) => w < |s.workers| && s.workers[w].Looking?
    case Fetch(w) => w < |s.workers| && s.workers[w].Fetching? && s.workers[w].index < |s.incomings.log|
    case Handle(w, _) =>
      && w < |s.workers| && s.workers[w].Handling? && s.workers[w].event < |s.received|
      && s.received[s.workers[w].event].peer < |s.peers|
    case Answer(w, _) => w < |s.workers| && w < |s.outgoings| && s.workers[w].Replying?
  }

  /** The handlers: a worker leaves its inner loop, and pauses, on a packet it cannot read. */
  function Handled(s: State, w: nat, serverTime: int): State
    requires Enabled(s, Handle(w, serverTime))
  {
    var id := s.workers[w].event;
    var event := s.received[id];
    match event.message
    case Malformed => s.(workers := s.workers[w := Pausing], dropped := s.dropped + [id])
    case Unhandled => s.(workers := s.workers[w := Pausing], dropped := s.dropped + [id])
    case Nothing => s.(workers := s.workers[w := Looking], dropped := s.dropped + [id])
    case FlightCtrl => s.(workers := s.workers[w := Looking], dropped := s.dropped + [id])
    case Chat(text) =>
      s.(workers := s.workers[w := Replying(Reply(id, event.channel, Echo(text), None, 0, 0))])
    case ClockSync(clientTime) =>
      var peer := s.peers[event.peer];
      s.(workers := s.workers[w := Replying(
        Reply(id, event.channel, Clock(clientTime, serverTime), Some(event.peer), peer.data, peer.disconnects))])
  }

  /** What the main loop does with a reply it dequeued. */
  function FateOf(s: State, r: Reply): Fate
    requires r.peer.Some? ==> r.peer.value < |s.peers|
  {
    if r.peer == None then Broadcast
    else
      var peer := s.peers[r.peer.value];
      if peer.data == r.generation then Sent(peer.disconnects) else Stale(peer.disconnects)
  }

  function Publish<T>(q: Queue<T>, item: T): Queue<T> {
    q.(log := q.log + [item])
  }

  function Claim<T>(q: Queue<T>): Queue<T> {
    q.(head := q.head + 1)
  }

  function Apply(s: State, step: Step): State
    requires Enabled(s, step)
  {
    match step
    case Signal => s.(stop := true)
    case Receive(event, stored) =>
      var id := |s.received|;
      var s' := s.(received := s.received + [event], main := Draining);
      if stored then s'.(incomings := Publish(s.incomings, id)) else s'.(dropped := s.dropped + [id])
    case Disconnect(p) =>
      var peer := s.peers[p];
      s.(peers := s.peers[p := Peer((peer.data + STRIDE) % WORD, peer.disconnects + 1)], main := Draining)
    case OtherEvent => s.(main := Draining)
    case Drain(w) => s.(main := Receiving(w, s.outgoings[w].head), outgoings := s.outgoings[w := Claim(s.outgoings[w])])
    case DrainEmpty => s.(main := if s.stop then Stopped else Servicing)
    case ReadReply => s.(main := Sending(s.main.worker, s.outgoings[s.main.worker].log[s.main.index]))
    case Send =>
      s.(main := Draining, outcomes := s.outcomes + [Outcome(s.main.worker, s.main.reply, FateOf(s, s.main.reply))])
    case Wake(w) => s.(workers := s.workers[w := if s.stop then Finished else Looking])
    case Take(w) => s.(incomings := Claim(s.incomings), workers := s.workers[w := Fetching(s.incomings.head)])
    case TakeEmpty(w) => s.(workers := s.workers[w := Pausing])
    case Fetch(w) => s.(workers := s.workers[w := Handling(s.incomings.log[s.workers[w].index])])
    case Handle(w, serverTime) => Handled(s, w, serverTime)
    case Answer(w, stored) =>
      var r := s.workers[w].reply;
      var s' := s.(workers := s.workers[w := Looking]);
      if stored then s'.(outgoings := s.outgoings[w := Publish(s.outgoings[w], r)])
      else s'.(dropped := s.dropped + [r.event])
  }

  /** The initial data pointers are whatever the network library left there. */
  predicate IsInitial(s: State) {
    && s.received == [] && s.incomings == Queue([], 0) && s.outcomes == [] && s.dropped == [] && s.main.Servicing?
    && |s.outgoings| == |s.workers|
    && (forall w :: 0 <= w < |s.workers| ==> s.workers[w].Pausing? && s.outgoings[w] == Queue([], 0))
    && (forall p :: 0 <= p < |s.peers| ==> s.peers[p].disconnects == 0)
  }

  predicate IsRun(states: seq<State>, steps: seq<Step>) {
    && |states| == |steps| + 1 && IsInitial(states[0])
    && forall k :: 0 <= k < |steps| ==> Enabled(states[k], steps[k]) && states[k + 1] == Apply(states[k], steps[k])
  }
}
