/** What the calls on an implicit sub-queue answer, and that they end. */
module ImplicitAnswers {
  import opened Basics
  import opened Words
  import opened BlockIndex
  import opened ImplicitQueue
  import opened ImplicitFrames
  import opened ImplicitConsuming
  import opened ImplicitRuns

  /* ---------- All or nothing ---------- */

  /** The step is one of an enqueue that is refused what it needs: a block too many for the sub-queue, a
      larger index (for want of memory, or of words to number its blocks), or a block. */
  predicate Refused(s: State, step: Step) {
    && step.Produce? && |s.index.headers| > 0
    && match s.producer
       case Reserving(items) => Next(s) < BlocksFor(|s.log| + |items|) && step.choice.full
       case Growing(_) => !step.choice.granted || 2 * Capacity(Current(s.index)) > BLOCK_WORDS
       case Requisitioning(_, _) => step.choice.block == None
       case _ => false
  }

  /** An enqueue from its call to its return. */
  predicate IsEnqueue(states: seq<State>, steps: seq<Step>, items: seq<int>) {
    && IsTrace(states, steps) && |steps| > 1 && steps[0] == Enqueue(items) && states[|steps|].producer.Resting?
    && forall k :: 0 < k < |steps| ==> !states[k].producer.Resting?
  }

  /** Some step of the first `k` was refused something. */
  predicate RefusedBefore(states: seq<State>, steps: seq<Step>, k: nat)
    requires k <= |steps| <= |states|
  {
    exists j :: 0 <= j < k && Refused(states[j], steps[j])
  }

  /** The enqueue under way is being taken back. */
  predicate Failing(p: Producer) {
    p.Rewinding? || p.Clearing? || p.Undoing? || p.Stepping? || p.Returning?
  }

  function ItemsOf(p: Producer): seq<int> {
    match p
    case Reserving(items) => items
    case Inserting(items) => items
    case StoringKey(items, _) => items
    case Growing(items) => items
    case KeyStored(items, _) => items
    case Requisitioning(items, _) => items
    case Resetting(items, _, _) => items
    case Valuing(items, _, _) => items
    case Filling(items, _) => items
    case _ => []
  }

  /** An enqueue of `items` begun in state `start` has published nothing yet; `refused` says whether it
      is being taken back. */
  predicate Underway(s: State, items: seq<int>, start: State, refused: bool) {
    && !s.producer.Resting? && s.log == start.log && s.tailBlock == start.tailBlock
    && if refused then Failing(s.producer) else !Failing(s.producer) && ItemsOf(s.producer) == items
  }

  lemma UnderwayStep(s: State, step: Step, items: seq<int>, start: State, refused: bool)
    requires Enabled(s, step) && Underway(s, items, start, refused)
    ensures var s', refused' := Apply(s, step), refused || Refused(s, step);
      if s'.producer.Resting? then
        if refused' then s'.log == start.log && s'.tailBlock == start.tailBlock else s'.log == start.log + items
      else Underway(s', items, start, refused')
  {
    if step.Produce? {
      UnderwayOwnStep(s, step.choice, items, start, refused);
    } else {
      OthersLeaveProducer(s, step);
    }
  }

  lemma OthersLeaveProducer(s: State, step: Step)
    requires Enabled(s, step) && !step.Produce? && !step.Enqueue?
    ensures var s' := Apply(s, step);
      s'.producer == s.producer && s'.chain == s.chain && s'.log == s.log && s'.tailBlock == s.tailBlock
  {}

  lemma UnderwayOwnStep(s: State, choice: Choice, items: seq<int>, start: State, refused: bool)
    requires CanProduce(s, choice) && Underway(s, items, start, refused)
    ensures var s', refused' := ApplyProduce(s, choice), refused || Refused(s, Produce(choice));
      if s'.producer.Resting? then
        if refused' then s'.log == start.log && s'.tailBlock == start.tailBlock else s'.log == start.log + items
      else Underway(s', items, start, refused')
  {}

  lemma {:induction false} UnderwayUpTo(states: seq<State>, steps: seq<Step>, items: seq<int>, k: nat)
    requires IsEnqueue(states, steps, items) && 0 < k < |steps|
    ensures Underway(states[k], items, states[0], RefusedBefore(states, steps, k))
  {
    assert Enabled(states[0], steps[0]) && states[1] == Apply(states[0], steps[0]);
    if k > 1 {
      UnderwayUpTo(states, steps, items, k - 1);
      assert Enabled(states[k - 1], steps[k - 1]) && states[k] == Apply(states[k - 1], steps[k - 1]);
      UnderwayStep(states[k - 1], steps[k - 1], items, states[0], RefusedBefore(states, steps, k - 1));
      RefusedNext(states, steps, k - 1);
    }
  }

  lemma RefusedNext(states: seq<State>, steps: seq<Step>, k: nat)
    requires k < |steps| <= |states|
    ensures RefusedBefore(states, steps, k + 1) <==> RefusedBefore(states, steps, k) || Refused(states[k], steps[k])
  {}

  /** An enqueue, single or bulk, publishes all its elements in order unless one of its own steps is
      refused a block, an index or room, and then publishes none and leaves the tail block as it was;
      consumers and other producers may take any steps in between. */
  lemma AllOrNothing(states: seq<State>, steps: seq<Step>, items: seq<int>)
    requires IsEnqueue(states, steps, items)
    ensures var start, end := states[0], states[|steps|];
      if exists k :: 0 <= k < |steps| && Refused(states[k], steps[k])
      then end.log == start.log && end.tailBlock == start.tailBlock
      else end.log == start.log + items
  {
    var last := |steps| - 1;
    UnderwayUpTo(states, steps, items, last);
    assert Enabled(states[last], steps[last]) && states[last + 1] == Apply(states[last], steps[last]);
    UnderwayStep(states[last], steps[last], items, states[0], RefusedBefore(states, steps, last));
    RefusedNext(states, steps, last);
  }

  /* ---------- Enqueues end ---------- */

  /** How many blocks the enqueue still has to reserve. */
  function Missing(s: State): nat {
    var needed := BlocksFor(|s.log| + |ItemsOf(s.producer)|);
    if Next(s) < needed then needed - Next(s) else 0
  }

  /** More than the steps that filling, or taking everything back, can take. */
  function Ending(s: State): nat {
    3 * (|s.chain| + Missing(s)) + |ItemsOf(s.producer)| + 5
  }

  /** A bound on the steps that the producer's enqueue still takes. */
  function StepsLeft(s: State): int {
    var m, c := Missing(s), |s.chain|;
    match s.producer
    case Resting => 0
    case Reserving(_) => 9 * m + Ending(s)
    case Inserting(_) => 9 * m - 1 + Ending(s)
    case Growing(_) => 9 * m - 2 + Ending(s)
    case StoringKey(_, _) => 9 * m - 3 + Ending(s)
    case KeyStored(_, _) => 9 * m - 4 + Ending(s)
    case Requisitioning(_, _) => 9 * m - 5 + Ending(s)
    case Resetting(_, _, _) => 9 * m - 6 + Ending(s)
    case Valuing(_, _, _) => 9 * m - 7 + Ending(s)
    case Filling(items, d) => |items| - d + 1
    case Rewinding(_) => 3 * c + 4
    case Clearing(_) => 3 * c + 3
    case Undoing(i) => 3 * c - 2 * i + 2
    case Stepping(i) => 3 * c - 2 * i + 1
    case Returning(blocks) => |blocks| + 1
  }

  /** The producer is at a step towards a block it still needs. */
  predicate Needing(p: Producer) {
    p.Inserting? || p.Growing? || p.StoringKey? || p.KeyStored? || p.Requisitioning? || p.Resetting? || p.Valuing?
  }

  lemma NeedsBlock(s: State, f: Facts)
    requires Sound(s, f) && Needing(s.producer)
    ensures Missing(s) > 0 && Next(s) < BlocksFor(|s.log| + |ItemsOf(s.producer)|)
  {}

  lemma NeedingCounts(s: State, choice: Choice)
    requires CanProduce(s, choice) && Needing(s.producer)
    requires Missing(s) > 0 && Next(s) < BlocksFor(|s.log| + |ItemsOf(s.producer)|)
    ensures 0 <= StepsLeft(ApplyProduce(s, choice)) < StepsLeft(s)
  {
    if s.producer.Valuing? {
      ReservedCounts(s, ApplyProduce(s, choice));
    } else {
      SameCounts(s, ApplyProduce(s, choice));
    }
  }

  lemma ReservedCounts(s: State, s': State)
    requires s.producer.Valuing? && Missing(s) > 0
    requires s'.log == s.log && |s'.chain| == |s.chain| + 1 && s'.producer == Reserving(s.producer.items)
    ensures 0 <= StepsLeft(s') < StepsLeft(s)
  {
    assert Next(s') == Next(s) + 1 && Missing(s') == Missing(s) - 1;
  }

  /** The stage after `p` on the way to the next block, or back. */
  predicate Follows(p: Producer, p': Producer) {
    match p
    case Inserting(items) => (p'.StoringKey? || p'.Growing?) && ItemsOf(p') == items
    case Growing(items) => p' == Undoing(0) || (p'.StoringKey? && ItemsOf(p') == items)
    case StoringKey(items, _) => p'.KeyStored? && ItemsOf(p') == items
    case KeyStored(items, _) => p'.Requisitioning? && ItemsOf(p') == items
    case Requisitioning(items, _) => p'.Rewinding? || (p'.Resetting? && ItemsOf(p') == items)
    case Resetting(items, _, _) => p'.Valuing? && ItemsOf(p') == items
    case _ => false
  }

  lemma SameCounts(s: State, s': State)
    requires Missing(s) > 0 && s'.log == s.log && s'.chain == s.chain && Follows(s.producer, s'.producer)
    ensures 0 <= StepsLeft(s') < StepsLeft(s)
  {
    assert ItemsOf(s'.producer) == ItemsOf(s.producer) ==> Missing(s') == Missing(s) && Ending(s') == Ending(s);
  }

  lemma OtherwiseCounts(s: State, f: Facts, choice: Choice)
    requires Sound(s, f) && CanProduce(s, choice) && !Needing(s.producer)
    ensures 0 <= StepsLeft(ApplyProduce(s, choice)) < StepsLeft(s)
  {
    if Failing(s.producer) {
      FailingCounts(s, f, choice);
    }
  }

  lemma FailingCounts(s: State, f: Facts, choice: Choice)
    requires Sound(s, f) && CanProduce(s, choice) && Failing(s.producer)
    ensures 0 <= StepsLeft(ApplyProduce(s, choice)) < StepsLeft(s)
  {}

  /** Every step of an enqueue leaves fewer to come: no loop of it goes round for ever. */
  lemma EnqueueStepCounts(s: State, choice: Choice)
    requires Inv(s) && CanProduce(s, choice)
    ensures 0 <= StepsLeft(ApplyProduce(s, choice)) < StepsLeft(s)
  {
    var f :| Good(s, f);
    if Needing(s.producer) {
      NeedsBlock(s, f);
      NeedingCounts(s, choice);
    } else {
      OtherwiseCounts(s, f, choice);
    }
  }

  /** The steps of the enqueue itself among the first `k`. */
  function OwnSteps(steps: seq<Step>, k: nat): nat
    requires k <= |steps|
  {
    if k == 0 then 0 else OwnSteps(steps, k - 1) + One(steps[k - 1].Produce?)
  }

  /** Twelve steps for each new block, one for each element, and five. */
  function Bound(start: State, items: seq<int>): int {
    12 * (BlocksFor(|start.log| + |items|) - Committed(start)) + |items| + 5
  }

  lemma OthersCountNothing(s: State, step: Step)
    requires Enabled(s, step) && !step.Produce? && !step.Enqueue?
    ensures StepsLeft(Apply(s, step)) == StepsLeft(s)
  {
    OthersLeaveProducer(s, step);
  }

  lemma {:induction false} EnqueueCounts(states: seq<State>, steps: seq<Step>, items: seq<int>, k: nat)
    requires IsTrace(states, steps) && Inv(states[0]) && 0 < k <= |steps| && steps[0] == Enqueue(items)
    requires forall j :: 0 < j < k ==> !states[j].producer.Resting?
    ensures Inv(states[k]) && 0 <= StepsLeft(states[k])
    ensures OwnSteps(steps, k) + StepsLeft(states[k]) <= Bound(states[0], items)
  {
    assert Enabled(states[k - 1], steps[k - 1]) && states[k] == Apply(states[k - 1], steps[k - 1]);
    if k == 1 {
      assert OwnSteps(steps, 1) == OwnSteps(steps, 0) == 0;
      StepKeepsInv(states[0], steps[0]);
      BoundAtStart(states[0], items);
    } else {
      EnqueueCounts(states, steps, items, k - 1);
      StepKeepsInv(states[k - 1], steps[k - 1]);
      if steps[k - 1].Produce? {
        EnqueueStepCounts(states[k - 1], steps[k - 1].choice);
      } else {
        OthersCountNothing(states[k - 1], steps[k - 1]);
      }
    }
  }

  /** An enqueue ends within a number of its own steps that depends only on the blocks it needs and its
      elements, whatever the consumers and the other producers do. */
  lemma EnqueueEnds(states: seq<State>, steps: seq<Step>, items: seq<int>, k: nat)
    requires IsTrace(states, steps) && Inv(states[0]) && 0 < k <= |steps| && steps[0] == Enqueue(items)
    requires forall j :: 0 < j < k ==> !states[j].producer.Resting?
    ensures OwnSteps(steps, k) <= Bound(states[0], items)
  {
    EnqueueCounts(states, steps, items, k);
  }

  lemma BoundAtStart(s: State, items: seq<int>)
    requires Inv(s) && Enabled(s, Enqueue(items))
    ensures StepsLeft(Apply(s, Enqueue(items))) == Bound(s, items)
  {
    var f :| Good(s, f);
    assert Next(Apply(s, Enqueue(items))) == Committed(s);
    assert BlocksFor(|s.log| + |items|) >= Committed(s);
  }

  /* ---------- Dequeues end ---------- */

  /** A bound on the steps that the dequeue of a consumer still takes. */
  function DequeueLeft(c: Consumer): int {
    match c
    case Idle => 0
    case Done(_, _, _) => 1
    case Busy(first, count, i, _, stage) =>
      var left := first + count - i;
      match stage
      case Claimed => 6 * left + 5
      case HeaderLoaded(_) => 6 * left + 4
      case TailLoaded(_, _) => 6 * left + 3
      case AtSlot(_, _) => 6 * left + 2
      case Moving(_, _, _, moved) => 6 * left + 1 - moved
      case Unlisting(_, _, _) => 6 * left + 4
      case Releasing(_, _, _) => 6 * left + 3
  }

  /** A dequeue that has claimed ends within `6 * count + 5` of its own steps: each leaves fewer to come. */
  lemma DequeueStepCounts(s: State, t: nat)
    requires Inv(s) && CanConsume(s, t)
    ensures 0 <= DequeueLeft(ApplyConsume(s, t).consumers[t]) < DequeueLeft(s.consumers[t])
  {
    var f :| Good(s, f);
    assert ThreadOk(s, f, t);
    var c := s.consumers[t];
    if c.Busy? && c.stage.Moving? {
      SegmentBounds(c.i, High(c));
      MovingCounts(s, t);
    } else {
      SearchingCounts(s, t);
    }
  }

  lemma MovingCounts(s: State, t: nat)
    requires CanConsume(s, t) && s.consumers[t].Busy? && s.consumers[t].stage.Moving?
    requires var c := s.consumers[t];
      c.i < SegmentEnd(c.i, High(c)) <= High(c) && c.i + c.stage.moved <= SegmentEnd(c.i, High(c))
    ensures 0 <= DequeueLeft(ApplyConsume(s, t).consumers[t]) < DequeueLeft(s.consumers[t])
  {}

  lemma SearchingCounts(s: State, t: nat)
    requires CanConsume(s, t) && (s.consumers[t].Busy? ==> !s.consumers[t].stage.Moving?)
    requires s.consumers[t].Busy? ==> s.consumers[t].i <= High(s.consumers[t])
    ensures 0 <= DequeueLeft(ApplyConsume(s, t).consumers[t]) < DequeueLeft(s.consumers[t])
  {}

  lemma OthersKeepDequeue(s: State, step: Step, t: nat)
    requires Enabled(s, step) && t < |s.consumers| && step != Consume(t) && !(step.Claim? && step.t == t)
    ensures t < |Apply(s, step).consumers| && Apply(s, step).consumers[t] == s.consumers[t]
  {}

  /** The steps of consumer `t` from state `i` to state `k`. */
  function ConsumerSteps(steps: seq<Step>, t: nat, i: nat, k: nat): nat
    requires i <= k <= |steps|
  {
    if k == i then 0 else ConsumerSteps(steps, t, i, k - 1) + One(steps[k - 1] == Consume(t))
  }

  lemma ClaimCounts(s: State, t: nat, count: nat)
    requires Enabled(s, Claim(t, count))
    ensures var s' := Apply(s, Claim(t, count));
      t < |s'.consumers| && DequeueLeft(s'.consumers[t]) == 6 * count + 5
  {}

  lemma AnyStepCounts(s: State, step: Step, t: nat)
    requires Inv(s) && Enabled(s, step) && t < |s.consumers| && !(step.Claim? && step.t == t)
    requires 0 <= DequeueLeft(s.consumers[t])
    ensures var s' := Apply(s, step);
      && t < |s'.consumers| && 0 <= DequeueLeft(s'.consumers[t])
      && One(step == Consume(t)) + DequeueLeft(s'.consumers[t]) <= DequeueLeft(s.consumers[t])
  {
    if step == Consume(t) {
      DequeueStepCounts(s, t);
    } else {
      OthersKeepDequeue(s, step, t);
    }
  }

  lemma {:induction false} DequeueCounts(states: seq<State>, steps: seq<Step>, t: nat, i: nat, k: nat)
    requires IsRun(states, steps) && i < k <= |steps| && steps[i].Claim? && steps[i].t == t
    requires forall j :: i < j < k ==> !(steps[j].Claim? && steps[j].t == t)
    ensures t < |states[k].consumers| && 0 <= DequeueLeft(states[k].consumers[t])
    ensures ConsumerSteps(steps, t, i + 1, k) + DequeueLeft(states[k].consumers[t]) <= 6 * steps[i].count + 5
  {
    var s, step, s' := states[k - 1], steps[k - 1], states[k];
    assert Enabled(s, step) && s' == Apply(s, step);
    if k == i + 1 {
      ClaimCounts(s, t, step.count);
      assert ConsumerSteps(steps, t, i + 1, k) == 0;
    } else {
      DequeueCounts(states, steps, t, i, k - 1);
      RunKeepsInv(states, steps, k - 1);
      AnyStepCounts(s, step, t);
      assert ConsumerSteps(steps, t, i + 1, k) == ConsumerSteps(steps, t, i + 1, k - 1) + One(step == Consume(t));
    }
  }

  /** In every run a dequeue ends within six of its own steps for each index it claimed and five more. */
  lemma DequeueEnds(states: seq<State>, steps: seq<Step>, t: nat, i: nat, k: nat)
    requires IsRun(states, steps) && i < k <= |steps| && steps[i].Claim? && steps[i].t == t
    requires forall j :: i < j < k ==> !(steps[j].Claim? && steps[j].t == t)
    ensures ConsumerSteps(steps, t, i + 1, k) <= 6 * steps[i].count + 5
  {
    DequeueCounts(states, steps, t, i, k);
  }
}
