/** Runs of the ticket machine, and what they keep. */
module TicketRuns {
  import opened Basics
  import opened Words
  import opened Handoff
  import opened Tickets
  import opened TicketSteps

  predicate IsProducerStep(step: Step) {
    step.BeginEnqueue? || step.LoadHead? || step.ReserveBlock? || step.Publish?
  }

  lemma StepKeepsLog(max: Word, s: State, step: Step, log: seq<Fate>) returns (log': seq<Fate>)
    requires LogOk(s, log) && Enabled(s, step) && !IsProducerStep(step)
    ensures LogOk(Apply(max, s, step), log')
  {
    match step
    case TakeTickets(t) =>
      TakeTicketsStep(max, s, step, log);
      log' := Taken(log, s.consumers[t].desired);
    case ReloadTail(_) => log' := ReloadTailStep(max, s, step, log);
    case Refund(_) => log' := RefundStep(max, s, step, log);
    case PayBack(_) => log' := PayBackStep(max, s, step, log);
    case Claim(_) => log' := ClaimStep(max, s, step, log);
    case _ =>
      LocalStep(max, s, step, log);
      log' := log;
  }

  /** A consumer's step moves tickets between `optimistic`, `head`, `overcommit` and its own hands. */
  lemma StepBalances(max: Word, s: State, step: Step)
    requires s.optimistic == s.head + s.overcommit + TotalInFlight(s.consumers)
    requires Enabled(s, step) && !IsProducerStep(step)
    ensures var s' := Apply(max, s, step); s'.optimistic == s'.head + s'.overcommit + TotalInFlight(s'.consumers)
  {
    var s' := Apply(max, s, step);
    TotalInFlightUpdate(s.consumers, step.t, s'.consumers[step.t]);
    assert s.consumers[step.t := s'.consumers[step.t]] == s'.consumers;
  }

  /** Every step of every thread keeps the invariant. */
  lemma StepKeepsInv(max: Word, s: State, step: Step)
    requires Inv(max, s) && Enabled(s, step)
    ensures Inv(max, Apply(max, s, step))
  {
    var log :| LogOk(s, log);
    if IsProducerStep(step) {
      ProducerStep(max, s, step, log);
    } else {
      var log' := StepKeepsLog(max, s, step, log);
      StepBalances(max, s, step);
    }
  }

  /** A consumer about to claim will get published indices only, however stale its snapshots. */
  lemma ClaimBelowTail(max: Word, s: State, t: nat)
    requires Inv(max, s) && Enabled(s, Claim(t))
    ensures s.consumers[t].actual > 0 && s.head + s.consumers[t].actual <= s.tail
  {
    var log :| LogOk(s, log);
    var c := s.consumers[t];
    assert ConsumerOk(s, log, c);
    CountRange(log, c.ticket, c.High(), |log|, Won);
    SuccessesBelowTail(log, |log|, s.tail);
  }

  function EndsOf(s: State): Ends {
    Ends(s.tail, s.head)
  }

  /** Each step of the protocol publishes, claims published indices, or leaves both ends alone. */
  lemma RefinesHandoff(max: Word, s: State, step: Step)
    requires Inv(max, s) && Enabled(s, step)
    ensures var e, e' := EndsOf(s), EndsOf(Apply(max, s, step));
      match step
      case Publish => Publishes(e, e', s.producer.count)
      case Claim(t) => Claims(e, e', s.consumers[t].actual)
      case _ => e' == e
  {
    if step.Claim? {
      ClaimBelowTail(max, s, step.t);
    }
  }

  /** The head never passes the tail, and the producer's fullness checks keep the sub-queue within
      its size limit rounded up to whole blocks and within half the word range. */
  lemma EndsInOrder(max: Word, s: State)
    requires Inv(max, s)
    ensures s.head <= s.tail && s.tail - s.head < HALF
    ensures RoundedMax(max) != WORD - 1 ==> s.tail - s.head <= RoundedMax(max)
    ensures !Unlimited(max) ==> s.tail - s.head <= BlocksFor(max) * BLOCK_SIZE < max + BLOCK_SIZE
  {
    var log :| LogOk(s, log);
    RoundedMaxExact(max);
    SuccessesBelowTail(log, |log|, s.tail);
  }

  /** With no dequeue in flight the effective dequeue count is the head again. */
  lemma QuietCountersAgree(max: Word, s: State)
    requires Inv(max, s) && forall t :: 0 <= t < |s.consumers| ==> s.consumers[t].InFlight() == 0
    ensures s.optimistic - s.overcommit == s.head
  {
    NothingInFlight(s.consumers);
  }

  lemma {:induction false} RunKeepsInv(max: Word, states: seq<State>, steps: seq<Step>, i: nat)
    requires IsRun(max, states, steps) && i < |states|
    ensures Inv(max, states[i])
  {
    if i == 0 {
      InitInv(max, states[0]);
    } else {
      RunKeepsInv(max, states, steps, i - 1);
      StepKeepsInv(max, states[i - 1], steps[i - 1]);
    }
  }

  /** Step `i` of the run hands out index `k`. */
  ghost predicate HandsOut(states: seq<State>, steps: seq<Step>, i: nat, k: nat)
    requires i < |steps| < |states| && Enabled(states[i], steps[i])
  {
    steps[i].Claim? && states[i].head <= k < states[i].head + states[i].consumers[steps[i].t].actual
  }

  lemma {:induction false} HeadGrows(max: Word, states: seq<State>, steps: seq<Step>, i: nat, j: nat)
    requires IsRun(max, states, steps) && i <= j < |states|
    ensures states[i].head <= states[j].head
  {
    if i < j {
      HeadGrows(max, states, steps, i, j - 1);
    }
  }

  lemma {:induction false} SomeStepHandsOut(
      max: Word, states: seq<State>, steps: seq<Step>, j: nat, k: nat) returns (i: nat)
    requires IsRun(max, states, steps) && j < |states| && k < states[j].head
    ensures i < j && HandsOut(states, steps, i, k)
  {
    if k < states[j - 1].head {
      i := SomeStepHandsOut(max, states, steps, j - 1, k);
    } else {
      i := j - 1;
    }
  }

  /** In every interleaving, exactly the indices below the head have been handed out, each by
      exactly one step, and each was already published at that step. */
  lemma ExactlyOnce(max: Word, states: seq<State>, steps: seq<Step>, k: nat)
    requires IsRun(max, states, steps)
    ensures k < states[|steps|].head <==> exists i :: 0 <= i < |steps| && HandsOut(states, steps, i, k)
    ensures forall i :: 0 <= i < |steps| && HandsOut(states, steps, i, k) ==> k < states[i].tail
    ensures forall i, j :: 0 <= i < |steps| && 0 <= j < |steps| ==>
      (HandsOut(states, steps, i, k) && HandsOut(states, steps, j, k) ==> i == j)
  {
    if k < states[|steps|].head {
      var i := SomeStepHandsOut(max, states, steps, |steps|, k);
    }
    forall i | 0 <= i < |steps| && HandsOut(states, steps, i, k)
      ensures k < states[i].tail && k < states[|steps|].head
    {
      RunKeepsInv(max, states, steps, i);
      ClaimBelowTail(max, states[i], steps[i].t);
      HeadGrows(max, states, steps, i + 1, |steps|);
    }
    forall i, j | 0 <= i < j < |steps| && HandsOut(states, steps, i, k) ensures !HandsOut(states, steps, j, k) {
      HeadGrows(max, states, steps, i + 1, j);
    }
  }

  /** Performing `steps` in order, each enabled in its turn, leads from `s` to `s'`. */
  ghost predicate Leads(max: Word, s: State, steps: seq<Step>, s': State)
    decreases |steps|
  {
    if |steps| == 0 then s' == s
    else Enabled(s, steps[0]) && Leads(max, Apply(max, s, steps[0]), steps[1..], s')
  }

  lemma {:induction false} LeadsOn(max: Word, s: State, steps: seq<Step>, mid: State, more: seq<Step>, s': State)
    requires Leads(max, s, steps, mid) && Leads(max, mid, more, s')
    ensures Leads(max, s, steps + more, s')
    decreases |steps|
  {
    if |steps| == 0 {
      assert steps + more == more;
    } else {
      LeadsOn(max, Apply(max, s, steps[0]), steps[1..], mid, more, s');
      assert (steps + more)[1..] == steps[1..] + more;
    }
  }

  lemma {:induction false} LeadsKeepsInv(max: Word, s: State, steps: seq<Step>, s': State)
    requires Inv(max, s) && Leads(max, s, steps, s')
    ensures Inv(max, s')
    decreases |steps|
  {
    if |steps| > 0 {
      StepKeepsInv(max, s, steps[0]);
      LeadsKeepsInv(max, Apply(max, s, steps[0]), steps[1..], s');
    }
  }

  lemma ThreeLead(max: Word, s: State, a: Step, b: Step, c: Step)
    requires Enabled(s, a) && Enabled(Apply(max, s, a), b) && Enabled(Apply(max, Apply(max, s, a), b), c)
    ensures Leads(max, s, [a, b, c], Apply(max, Apply(max, Apply(max, s, a), b), c))
  {
    var s1 := Apply(max, s, a);
    var s2 := Apply(max, s1, b);
    assert [a, b, c][1..] == [b, c] && [b, c][1..] == [c] && [c][1..] == [];
    assert Leads(max, s2, [c], Apply(max, s2, c));
    assert Leads(max, s1, [b, c], Apply(max, s2, c));
  }

  /** What consumer `t` does in a dequeue of up to `m`: it looks, and takes if there is something. */
  function LookSteps(t: nat, m: nat): seq<Step> {
    [LoadTail(t, m), LoadOvercommit(t), LoadOptimistic(t)]
  }

  function TakeSteps(t: nat): seq<Step> {
    [TakeTickets(t), ReloadTail(t), Claim(t)]
  }

  /** The first three steps of a dequeue that runs alone: it wants what is not spoken for, or gives up. */
  lemma SoloLook(max: Word, s: State, t: nat, m: nat)
    requires t < |s.consumers| && s.consumers[t] == Idle && m > 0
    ensures var available := s.tail - (s.optimistic - s.overcommit);
      var wanted := if 0 < available then Hopeful(Min(available, m), s.overcommit) else Idle;
      Leads(max, s, LookSteps(t, m), SetConsumer(s, t, wanted))
  {
    var s1 := Apply(max, s, LoadTail(t, m));
    var s2 := Apply(max, s1, LoadOvercommit(t));
    var s3 := Apply(max, s2, LoadOptimistic(t));
    assert s3.consumers == s.consumers[t := s3.consumers[t]];
    ThreeLead(max, s, LoadTail(t, m), LoadOvercommit(t), LoadOptimistic(t));
  }

  /** Its last three steps: it gets all it wanted. */
  lemma SoloTake(max: Word, s: State, t: nat)
    requires t < |s.consumers| && s.consumers[t].Hopeful?
    requires var c := s.consumers[t];
      c.overcommit == s.overcommit && c.desired > 0 && s.optimistic - s.overcommit + c.desired <= s.tail
    ensures var d := s.consumers[t].desired;
      var s' := SetConsumer(s, t, Claimed(s.head, d)).(head := s.head + d, optimistic := s.optimistic + d);
      Leads(max, s, TakeSteps(t), s')
  {
    var s1 := Apply(max, s, TakeTickets(t));
    var s2 := Apply(max, s1, ReloadTail(t));
    var s3 := Apply(max, s2, Claim(t));
    assert s3.consumers == s.consumers[t := s3.consumers[t]];
    ThreeLead(max, s, TakeTickets(t), ReloadTail(t), Claim(t));
  }

  /** The six steps, each enabled in its turn, of a dequeue that runs alone, wherever others have stopped,
      lead to a claim from the head of exactly what it asked for or all that others have not spoken for;
      when there is nothing of that, its three steps lead back to the same state. */
  lemma LoneDequeue(max: Word, s: State, t: nat, m: nat) returns (s': State)
    requires Inv(max, s) && t < |s.consumers| && s.consumers[t] == Idle && m > 0
    ensures Inv(max, s')
    ensures var available := s.tail - (s.optimistic - s.overcommit);
      if available <= 0 then Leads(max, s, LookSteps(t, m), s') && s' == s
      else
        var n := Min(available, m);
        && Leads(max, s, LookSteps(t, m) + TakeSteps(t), s')
        && s' == SetConsumer(s, t, Claimed(s.head, n)).(head := s.head + n, optimistic := s.optimistic + n)
  {
    var available := s.tail - (s.optimistic - s.overcommit);
    SoloLook(max, s, t, m);
    if available > 0 {
      var n := Min(available, m);
      var look := SetConsumer(s, t, Hopeful(n, s.overcommit));
      SoloTake(max, look, t);
      s' := SetConsumer(look, t, Claimed(s.head, n)).(head := s.head + n, optimistic := s.optimistic + n);
      LeadsOn(max, s, LookSteps(t, m), look, TakeSteps(t), s');
      LeadsKeepsInv(max, s, LookSteps(t, m) + TakeSteps(t), s');
      assert s'.consumers == s.consumers[t := s'.consumers[t]];
    } else {
      s' := s;
      assert SetConsumer(s, t, Idle).consumers == s.consumers;
    }
  }

  /** With no other in flight, nothing stored is spoken for. */
  lemma SoloDequeue(max: Word, s: State, t: nat, m: nat) returns (s': State)
    requires Inv(max, s) && t < |s.consumers| && s.consumers[t] == Idle && m > 0
    requires forall u :: 0 <= u < |s.consumers| ==> s.consumers[u].InFlight() == 0
    ensures Inv(max, s')
    ensures s.head == s.tail ==> Leads(max, s, LookSteps(t, m), s') && s' == s
    ensures s.head < s.tail ==>
      var n := Min(s.tail - s.head, m);
      && Leads(max, s, LookSteps(t, m) + TakeSteps(t), s')
      && s' == SetConsumer(s, t, Claimed(s.head, n)).(head := s.head + n, optimistic := s.optimistic + n)
  {
    QuietCountersAgree(max, s);
    EndsInOrder(max, s);
    s' := LoneDequeue(max, s, t, m);
  }
}
