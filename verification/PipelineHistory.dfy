/** Where every reply and every outcome of a run comes from. */
module PipelineHistory {
  import opened Words
  import opened Basics
  import opened Handoff
  import opened Pipeline
  import opened PipelinePlaces
  import opened PipelineRuns
  import opened PipelineAnswers

  /** Reply `r` is somewhere: with a worker, published, with the main loop, or settled. */
  predicate Exists(s: State, r: Reply) {
    || (exists w :: 0 <= w < |s.workers| && s.workers[w] == Replying(r))
    || (exists w :: 0 <= w < |s.outgoings| && r in s.outgoings[w].log)
    || (s.main.Sending? && s.main.reply == r)
    || (exists i :: 0 <= i < |s.outcomes| && s.outcomes[i].reply == r)
  }

  /** The step is a worker's handling of an event, and `r` the answer it makes. */
  predicate Makes(s: State, step: Step, r: Reply) {
    && step.Handle? && step.w < |s.workers| && s.workers[step.w] == Handling(r.event)
    && r.event < |s.received| && Answerable(s.received[r.event].message) && s.received[r.event].peer < |s.peers|
    && r == AnswerTo(s, r.event, step.serverTime)
  }

  predicate HasWorker(s: State, w: nat, r: Reply) {
    w < |s.workers| && s.workers[w] == Replying(r)
  }

  lemma NewWithWorker(s: State, step: Step, w: nat, r: Reply)
    requires Enabled(s, step) && HasWorker(Apply(s, step), w, r)
    ensures HasWorker(s, w, r) || Makes(s, step, r)
  {}

  lemma NewPublished(s: State, step: Step, w: nat, r: Reply)
    requires Enabled(s, step) && w < |Apply(s, step).outgoings| && r in Apply(s, step).outgoings[w].log
    ensures w < |s.outgoings| && (r in s.outgoings[w].log || HasWorker(s, w, r))
  {}

  lemma NewReply(s: State, step: Step, r: Reply)
    requires Enabled(s, step) && Exists(Apply(s, step), r)
    ensures Exists(s, r) || Makes(s, step, r)
  {
    var s' := Apply(s, step);
    if w :| 0 <= w < |s'.workers| && s'.workers[w] == Replying(r) {
      assert HasWorker(s', w, r);
      NewWithWorker(s, step, w, r);
    } else if w :| 0 <= w < |s'.outgoings| && r in s'.outgoings[w].log {
      NewPublished(s, step, w, r);
    } else if i :| 0 <= i < |s'.outcomes| && s'.outcomes[i].reply == r {
      NewSettled(s, step, i);
    } else {
      NewInHand(s, step, r);
    }
  }

  lemma NewInHand(s: State, step: Step, r: Reply)
    requires Enabled(s, step) && Apply(s, step).main.Sending? && Apply(s, step).main.reply == r
    ensures Exists(s, r)
  {
    if step.ReadReply? {
      assert r in s.outgoings[s.main.worker].log;
    }
  }

  lemma NewSettled(s: State, step: Step, i: nat)
    requires Enabled(s, step) && i < |Apply(s, step).outcomes|
    ensures var o := Apply(s, step).outcomes[i];
      if i < |s.outcomes| then o == s.outcomes[i]
      else step == Send && o == Outcome(s.main.worker, s.main.reply, FateOf(s, s.main.reply))
  {}

  lemma NoneAtFirst(s: State, r: Reply)
    requires IsInitial(s)
    ensures !Exists(s, r)
  {}

  /** Every reply there is was made by a worker handling its event, and says what its handler read then. */
  lemma {:induction false} MadeByHandler(states: seq<State>, steps: seq<Step>, k: nat, r: Reply) returns (h: nat)
    requires IsRun(states, steps) && k < |states| && Exists(states[k], r)
    ensures h < k && Makes(states[h], steps[h], r)
  {
    if k == 0 {
      NoneAtFirst(states[0], r);
    } else {
      var s, step := states[k - 1], steps[k - 1];
      assert Enabled(s, step) && states[k] == Apply(s, step);
      NewReply(s, step, r);
      if Exists(s, r) {
        h := MadeByHandler(states, steps, k - 1, r);
      } else {
        h := k - 1;
      }
    }
  }

  /** Every outcome was settled by a step of the main loop. */
  lemma {:induction false} SettledBySend(states: seq<State>, steps: seq<Step>, k: nat, i: nat) returns (m: nat)
    requires IsRun(states, steps) && k < |states| && i < |states[k].outcomes|
    ensures m < k && steps[m] == Send && states[m].main.Sending? && Enabled(states[m], Send)
    ensures states[k].outcomes[i]
         == Outcome(states[m].main.worker, states[m].main.reply, FateOf(states[m], states[m].main.reply))
  {
    assert Enabled(states[k - 1], steps[k - 1]) && states[k] == Apply(states[k - 1], steps[k - 1]);
    NewSettled(states[k - 1], steps[k - 1], i);
    if i < |states[k - 1].outcomes| {
      m := SettledBySend(states, steps, k - 1, i);
    } else {
      m := k - 1;
    }
  }

  /** How often peer `p` disconnects in the first `k` steps. */
  function Disconnections(steps: seq<Step>, k: nat, p: nat): nat
    requires k <= |steps|
  {
    if k == 0 then 0 else Disconnections(steps, k - 1, p) + One(steps[k - 1] == Disconnect(p))
  }

  lemma DisconnectStep(s: State, step: Step, p: nat)
    requires Enabled(s, step)
    ensures |Apply(s, step).peers| == |s.peers|
    ensures p < |s.peers| ==> Apply(s, step).peers[p].disconnects == s.peers[p].disconnects + One(step == Disconnect(p))
  {}

  lemma {:induction false} DisconnectionsCounted(states: seq<State>, steps: seq<Step>, k: nat, p: nat)
    requires IsRun(states, steps) && k < |states|
    ensures |states[k].peers| == |states[0].peers|
    ensures p < |states[k].peers| ==> states[k].peers[p].disconnects == Disconnections(steps, k, p)
  {
    if k > 0 {
      DisconnectionsCounted(states, steps, k - 1, p);
      assert Enabled(states[k - 1], steps[k - 1]) && states[k] == Apply(states[k - 1], steps[k - 1]);
      DisconnectStep(states[k - 1], steps[k - 1], p);
    }
  }

  /** A whole number of turns of the generations. */
  predicate WholeTurns(disconnections: int) {
    disconnections % GENERATIONS == 0
  }

  /** The main loop's decision, in the disconnections since the handler read the generation. */
  lemma FateExact(s: State, bases: seq<Word>, r: Reply)
    requires Inv(s, bases) && ReplyOk(s, bases, r)
    ensures match r.peer
      case None => FateOf(s, r) == Broadcast
      case Some(p) =>
        && p < |s.peers| && r.readAt <= s.peers[p].disconnects
        && FateOf(s, r) == if WholeTurns(s.peers[p].disconnects - r.readAt) then Sent(s.peers[p].disconnects)
                           else Stale(s.peers[p].disconnects)
  {
    if r.peer.Some? {
      SameGeneration(bases[r.peer.value], r.readAt, s.peers[r.peer.value].disconnects);
    }
  }

  lemma SendingIsOk(s: State, bases: seq<Word>)
    requires Inv(s, bases) && s.main.Sending?
    ensures ReplyOk(s, bases, s.main.reply)
  {}

  lemma SendingExactly(states: seq<State>, steps: seq<Step>, m: nat, r: Reply)
    requires IsRun(states, steps) && m < |states|
    requires states[m].main.Sending? && states[m].main.reply == r && Enabled(states[m], Send)
    ensures match r.peer
      case None => FateOf(states[m], r) == Broadcast
      case Some(p) =>
        && p < |states[m].peers| && r.readAt <= states[m].peers[p].disconnects && !FateOf(states[m], r).Broadcast?
        && (FateOf(states[m], r).Sent? <==> WholeTurns(states[m].peers[p].disconnects - r.readAt))
  {
    RunKeepsInv(states, steps, m);
    SendingIsOk(states[m], Bases(states[0]));
    FateExact(states[m], Bases(states[0]), r);
  }

  lemma AnswerReadsPeer(s: State, step: Step, r: Reply)
    requires Makes(s, step, r)
    ensures r.peer.Some? ==> r.peer.value < |s.peers| && r.readAt == s.peers[r.peer.value].disconnects
  {}

  /** Every outcome, from its event to its end: a worker answered the event (a chat message with its text
      for everybody, a clock request with both times for its sender), and later the main loop broadcast
      the answer, or sent it exactly when the number of the peer's disconnections in between was a
      multiple of the generations there are, and otherwise let it go. */
  lemma OutcomeExact(states: seq<State>, steps: seq<Step>, k: nat, i: nat) returns (h: nat, m: nat)
    requires IsRun(states, steps) && k < |states| && i < |states[k].outcomes|
    ensures h < m < k && steps[h].Handle? && steps[m] == Send
    ensures Settles(states[h], steps[h], states[m], states[k].outcomes[i])
  {
    m := SettledBySend(states, steps, k, i);
    var r := states[m].main.reply;
    assert Exists(states[m], r);
    h := MadeByHandler(states, steps, m, r);
    SendingExactly(states, steps, m, r);
    AnswerReadsPeer(states[h], steps[h], r);
  }

  /** The outcome is the answer that a step in state `early` makes, settled by a send in state `late`. */
  predicate Settles(early: State, handle: Step, late: State, o: Outcome) {
    && Makes(early, handle, o.reply) && late.main == Sending(o.worker, o.reply)
    && match o.reply.peer
       case None => o.fate == Broadcast
       case Some(p) =>
         && p < |early.peers| && p < |late.peers| && !o.fate.Broadcast?
         && (o.fate.Sent? <==> WholeTurns(late.peers[p].disconnects - early.peers[p].disconnects))
  }
}
