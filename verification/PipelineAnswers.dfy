/** What becomes of an event: which are dropped, what a worker makes of one, and what ends the server. */
module PipelineAnswers {
  import opened Words
  import opened Basics
  import opened Handoff
  import opened Pipeline
  import opened PipelinePlaces
  import opened PipelineRuns

  /* ---------- Nothing is dropped without a reason ---------- */

  /** The handlers answer these. */
  predicate Answerable(m: Message) {
    m.Chat? || m.ClockSync?
  }

  /** The step loses event `e`: a queue has no memory for it or for its reply, or there is nothing to
      answer. */
  predicate Loses(s: State, step: Step, e: nat) {
    match step
    case Receive(_, stored) => !stored && e == |s.received|
    case Answer(w, stored) => !stored && w < |s.workers| && s.workers[w].Replying? && s.workers[w].reply.event == e
    case Handle(w, _) =>
      && w < |s.workers| && s.workers[w].Handling? && s.workers[w].event == e
      && e < |s.received| && !Answerable(s.received[e].message)
    case _ => false
  }

  predicate LostBefore(states: seq<State>, steps: seq<Step>, k: nat, e: nat)
    requires k <= |steps| <= |states|
  {
    exists j :: 0 <= j < k && Loses(states[j], steps[j], e)
  }

  lemma LosingStep(s: State, step: Step, e: nat)
    requires Enabled(s, step)
    ensures e in Apply(s, step).dropped <==> e in s.dropped || Loses(s, step, e)
  {}

  lemma LostNext(states: seq<State>, steps: seq<Step>, k: nat, e: nat)
    requires k < |steps| <= |states|
    ensures LostBefore(states, steps, k + 1, e) <==> LostBefore(states, steps, k, e) || Loses(states[k], steps[k], e)
  {}

  /** In every run an event is dropped exactly when a step of its own lost it: it was not stored on
      arrival, its reply was not stored, or its handler had nothing to answer. */
  lemma {:induction false} DroppedWhenLost(states: seq<State>, steps: seq<Step>, k: nat, e: nat)
    requires IsRun(states, steps) && k < |states|
    ensures e in states[k].dropped <==> LostBefore(states, steps, k, e)
  {
    if k > 0 {
      DroppedWhenLost(states, steps, k - 1, e);
      assert Enabled(states[k - 1], steps[k - 1]) && states[k] == Apply(states[k - 1], steps[k - 1]);
      LosingStep(states[k - 1], steps[k - 1], e);
      LostNext(states, steps, k - 1, e);
    }
  }

  lemma {:induction false} CountIn(ids: seq<nat>, e: nat)
    ensures Count(ids, e) > 0 <==> e in ids
  {
    if |ids| > 0 {
      CountIn(ids[1..], e);
      assert ids == [ids[0]] + ids[1..];
    }
  }

  lemma {:induction false} ReceivedStays(states: seq<State>, steps: seq<Step>, j: nat, k: nat)
    requires IsRun(states, steps) && j <= k < |states|
    ensures states[j].received <= states[k].received
  {
    if j < k {
      ReceivedStays(states, steps, j, k - 1);
      assert Enabled(states[k - 1], steps[k - 1]) && states[k] == Apply(states[k - 1], steps[k - 1]);
    }
  }

  /** The queues had memory for event `e` and for its reply, whenever they were asked. */
  predicate AlwaysStored(states: seq<State>, steps: seq<Step>, k: nat, e: nat)
    requires k <= |steps| <= |states|
  {
    forall j :: 0 <= j < k && Loses(states[j], steps[j], e) ==> steps[j].Handle?
  }

  /** Every chat message and clock request received, for which the queues always had memory, is never
      dropped: it is stored, with one worker, in that worker's replies, with the main loop, or answered. */
  lemma AnswerableStays(states: seq<State>, steps: seq<Step>, k: nat, e: nat)
    requires IsRun(states, steps) && k < |states| && e < |states[k].received|
    requires Answerable(states[k].received[e].message) && AlwaysStored(states, steps, k, e)
    ensures e !in states[k].dropped && QueuesOk(states[k])
    ensures var s := states[k];
      Count(s.incomings.Stored(), e) + Held(s.workers, s.incomings.log, s.outgoings, e)
        + WithMain(s.main, s.outgoings, e) + Settled(s.outcomes, e)
      == 1
  {
    DroppedWhenLost(states, steps, k, e);
    if e in states[k].dropped {
      var j :| 0 <= j < k && Loses(states[j], steps[j], e);
      ReceivedStays(states, steps, j, k);
      assert false;
    }
    EachEventOnce(states, steps, k, e);
    CountIn(states[k].dropped, e);
  }

  /* ---------- An event's way when nobody interferes ---------- */

  /** Performing `steps` in order, each enabled in its turn, leads from `s` to `s'`. */
  ghost predicate Leads(s: State, steps: seq<Step>, s': State)
    decreases |steps|
  {
    if |steps| == 0 then s' == s
    else Enabled(s, steps[0]) && Leads(Apply(s, steps[0]), steps[1..], s')
  }

  lemma LeadsThree(s: State, a: Step, b: Step, c: Step)
    requires Enabled(s, a) && Enabled(Apply(s, a), b) && Enabled(Apply(Apply(s, a), b), c)
    ensures Leads(s, [a, b, c], Apply(Apply(Apply(s, a), b), c))
  {
    var s1 := Apply(s, a);
    var s2 := Apply(s1, b);
    assert [a, b, c][1..] == [b, c] && [b, c][1..] == [c] && [c][1..] == [];
    assert Leads(s2, [c], Apply(s2, c));
    assert Leads(s1, [b, c], Apply(s2, c));
  }

  lemma {:induction false} LeadsOneMore(s: State, steps: seq<Step>, mid: State, last: Step)
    requires Leads(s, steps, mid) && Enabled(mid, last)
    ensures Leads(s, steps + [last], Apply(mid, last))
    decreases |steps|
  {
    if |steps| == 0 {
      assert ([last])[1..] == [] && steps + [last] == [last];
    } else {
      LeadsOneMore(Apply(s, steps[0]), steps[1..], mid, last);
      assert (steps + [last])[1..] == steps[1..] + [last];
    }
  }

  /** The answer to event `id`: a chat message's text to everybody, on the channel it came by; a clock
      request's own time and the server's to the peer that asked, for its present generation. */
  function AnswerTo(s: State, id: nat, serverTime: int): Reply
    requires id < |s.received| && Answerable(s.received[id].message) && s.received[id].peer < |s.peers|
  {
    var event := s.received[id];
    var peer := s.peers[event.peer];
    if event.message.Chat? then Reply(id, event.channel, Echo(event.message.text), None, 0, 0)
    else
      Reply(id, event.channel, Clock(event.message.clientTime, serverTime),
            Some(event.peer), peer.data, peer.disconnects)
  }

  /** A worker that looks while events are stored takes the oldest, and handles it: it stores its answer
      last in its own sub-queue, or drops the event; after a packet it cannot read it pauses. */
  lemma WorkerServes(s: State, bases: seq<Word>, w: nat, serverTime: int)
    requires Inv(s, bases) && w < |s.workers| && s.workers[w].Looking? && s.incomings.head < |s.incomings.log|
    ensures s.incomings.log[s.incomings.head] < |s.received| && |s.outgoings| == |s.workers|
    ensures s.received[s.incomings.log[s.incomings.head]].peer < |s.peers|
    ensures var id := s.incomings.log[s.incomings.head];
      var taken := s.(incomings := s.incomings.(head := s.incomings.head + 1));
      var steps := [Take(w), Fetch(w), Handle(w, serverTime)];
      match s.received[id].message
      case Malformed => Leads(s, steps, taken.(dropped := s.dropped + [id], workers := s.workers[w := Pausing]))
      case Unhandled => Leads(s, steps, taken.(dropped := s.dropped + [id], workers := s.workers[w := Pausing]))
      case Nothing => Leads(s, steps, taken.(dropped := s.dropped + [id]))
      case FlightCtrl => Leads(s, steps, taken.(dropped := s.dropped + [id]))
      case _ =>
        var q := s.outgoings[w];
        Leads(s, steps + [Answer(w, true)],
              taken.(outgoings := s.outgoings[w := q.(log := q.log + [AnswerTo(s, id, serverTime)])]))
  {
    var id := s.incomings.log[s.incomings.head];
    var fetched := s.(incomings := s.incomings.(head := s.incomings.head + 1), workers := s.workers[w := Handling(id)]);
    var handled := Apply(fetched, Handle(w, serverTime));
    FetchesOldest(s, w);
    HandledExactly(fetched, w, serverTime);
    LeadsOneMore(s, [Take(w), Fetch(w)], fetched, Handle(w, serverTime));
    assert [Take(w), Fetch(w)] + [Handle(w, serverTime)] == [Take(w), Fetch(w), Handle(w, serverTime)];
    assert s.workers[w := Looking] == s.workers;
    assert fetched.workers[w := Pausing] == s.workers[w := Pausing] && fetched.workers[w := Looking] == s.workers;
    if Answerable(s.received[id].message) {
      LeadsOneMore(s, [Take(w), Fetch(w), Handle(w, serverTime)], handled, Answer(w, true));
      assert handled.workers == s.workers[w := Replying(AnswerTo(s, id, serverTime))];
      assert handled.workers[w := Looking] == s.workers;
    }
  }

  lemma FetchesOldest(s: State, w: nat)
    requires w < |s.workers| && s.workers[w].Looking? && s.incomings.head < |s.incomings.log|
    ensures var id := s.incomings.log[s.incomings.head];
      Leads(s, [Take(w), Fetch(w)],
            s.(incomings := s.incomings.(head := s.incomings.head + 1), workers := s.workers[w := Handling(id)]))
  {
    var s1 := Apply(s, Take(w));
    var s2 := Apply(s1, Fetch(w));
    assert s2.workers == s.workers[w := s2.workers[w]];
    assert [Take(w), Fetch(w)][1..] == [Fetch(w)] && [Fetch(w)][1..] == [];
    assert Leads(s1, [Fetch(w)], s2);
  }

  lemma HandledExactly(s: State, w: nat, serverTime: int)
    requires Enabled(s, Handle(w, serverTime))
    ensures var id := s.workers[w].event;
      var s' := Apply(s, Handle(w, serverTime));
      match s.received[id].message
      case Malformed => s' == s.(dropped := s.dropped + [id], workers := s.workers[w := Pausing])
      case Unhandled => s' == s.(dropped := s.dropped + [id], workers := s.workers[w := Pausing])
      case Nothing => s' == s.(dropped := s.dropped + [id], workers := s.workers[w := Looking])
      case FlightCtrl => s' == s.(dropped := s.dropped + [id], workers := s.workers[w := Looking])
      case _ => s' == s.(workers := s.workers[w := Replying(AnswerTo(s, id, serverTime))])
  {}

  /** A main loop that drains while worker `w` has replies stored settles the oldest of them. */
  lemma MainServes(s: State, bases: seq<Word>, w: nat)
    requires Inv(s, bases) && s.main.Draining? && w < |s.outgoings| && s.outgoings[w].head < |s.outgoings[w].log|
    ensures var q := s.outgoings[w];
      var r := q.log[q.head];
      && (r.peer.Some? ==> r.peer.value < |s.peers|)
      && Leads(s, [Drain(w), ReadReply, Send],
               s.(outgoings := s.outgoings[w := q.(head := q.head + 1)],
                  outcomes := s.outcomes + [Outcome(w, r, FateOf(s, r))]))
  {
    var q := s.outgoings[w];
    assert OutgoingOk(s, bases, w) && ReplyOk(s, bases, q.log[q.head]);
    MainSettles(s, w);
  }

  lemma MainSettles(s: State, w: nat)
    requires s.main.Draining? && w < |s.outgoings| && s.outgoings[w].head < |s.outgoings[w].log|
    requires var r := s.outgoings[w].log[s.outgoings[w].head]; r.peer.Some? ==> r.peer.value < |s.peers|
    ensures var q := s.outgoings[w];
      var r := q.log[q.head];
      Leads(s, [Drain(w), ReadReply, Send],
            s.(outgoings := s.outgoings[w := q.(head := q.head + 1)],
               outcomes := s.outcomes + [Outcome(w, r, FateOf(s, r))]))
  {
    var q := s.outgoings[w];
    var drained := s.(main := Receiving(w, q.head), outgoings := s.outgoings[w := q.(head := q.head + 1)]);
    var sending := drained.(main := Sending(w, q.log[q.head]));
    assert Apply(s, Drain(w)) == drained && Apply(drained, ReadReply) == sending;
    LeadsThree(s, Drain(w), ReadReply, Send);
  }

  /* ---------- Shutting down ---------- */

  /** A signal ends a worker that pauses, and a main loop with nothing left to send. */
  lemma ShutsDown(s: State, w: nat)
    requires w < |s.workers| && s.workers[w].Pausing? && s.main.Draining?
    ensures Leads(s, [Signal, Wake(w), DrainEmpty],
                  s.(stop := true, workers := s.workers[w := Finished], main := Stopped))
  {
    LeadsThree(s, Signal, Wake(w), DrainEmpty);
  }

  /** Neither a worker nor the main loop ends unless the server was told to stop. */
  lemma {:induction false} EndsOnlyWhenToldTo(states: seq<State>, steps: seq<Step>, k: nat, w: nat)
    requires IsRun(states, steps) && k < |states| && w < |states[k].workers|
    ensures states[k].workers[w].Finished? || states[k].main.Stopped? ==> states[k].stop
  {
    if k > 0 {
      assert Enabled(states[k - 1], steps[k - 1]) && states[k] == Apply(states[k - 1], steps[k - 1]);
      StepEnds(states[k - 1], steps[k - 1], w);
      EndsOnlyWhenToldTo(states, steps, k - 1, w);
    }
  }

  predicate Ending(w: Worker) {
    w.Pausing? || w.Finished?
  }

  lemma StepEnds(s: State, step: Step, w: nat)
    requires Enabled(s, step) && w < |Apply(s, step).workers|
    ensures var s' := Apply(s, step);
      && |s'.workers| == |s.workers| && (s.stop ==> s'.stop)
      && (s'.workers[w].Finished? ==> s.workers[w].Finished? || s.stop)
      && (s'.main.Stopped? ==> s.main.Stopped? || s.stop)
      && (s.stop && Ending(s.workers[w]) ==> Ending(s'.workers[w]))
      && (s.stop && !s.main.Servicing? ==> !s'.main.Servicing?)
  {}

  /** Once told to stop, a worker that has paused never looks for events again, and a main loop that has
      left the network never services it again. */
  lemma {:induction false} NothingStartsAfterStop(states: seq<State>, steps: seq<Step>, j: nat, k: nat, w: nat)
    requires IsRun(states, steps) && j <= k < |states| && states[j].stop && w < |states[j].workers|
    ensures states[k].stop && w < |states[k].workers|
    ensures Ending(states[j].workers[w]) ==> Ending(states[k].workers[w])
    ensures !states[j].main.Servicing? ==> !states[k].main.Servicing?
  {
    if j < k {
      NothingStartsAfterStop(states, steps, j, k - 1, w);
      assert Enabled(states[k - 1], steps[k - 1]) && states[k] == Apply(states[k - 1], steps[k - 1]);
      StepKeepsWorkers(states[k - 1], steps[k - 1]);
      StepEnds(states[k - 1], steps[k - 1], w);
    }
  }

  lemma StepKeepsWorkers(s: State, step: Step)
    requires Enabled(s, step)
    ensures |Apply(s, step).workers| == |s.workers|
  {}
}
