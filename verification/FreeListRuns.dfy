/** Runs of the free list, and what its invariant gives its users. */
module FreeListRuns {
  import opened Basics
  import opened Pool
  import opened FreeList
  import opened FreeListSteps

  lemma StepKeepsGood(
      s: State, step: Step, list: seq<nat>, phase: seq<Phase>) returns (list': seq<nat>, phase': seq<Phase>)
    requires Good(s, list, phase) && Enabled(s, step)
    ensures Good(Apply(s, step), list', phase')
  {
    list', phase' := list, phase;
    match step
    case Create => phase' := CreateStep(s, list, phase);
    case BeginAdd(t, n) => phase' := BeginAddStep(s, t, n, list, phase);
    case BeginGet(t) => LocalStep(s, t, Starting, list, phase);
    case Run(t) =>
      var c := s.threads[t];
      if c.Adding? {
        phase' := AddingStep(s, t, list, phase);
      } else if c.Linking() {
        LinkingStep(s, t, list, phase);
      } else if c.Pushing? {
        list', phase' := PushingStep(s, t, list, phase);
      } else if c.Unpushing? {
        phase' := UnpushingStep(s, t, list, phase);
      } else if c.Grabbing? {
        GrabbingStep(s, t, list, phase);
      } else if c.LoadingNext? {
        LoadingNextStep(s, t, list, phase);
      } else if c.Popping? {
        list', phase' := PoppingStep(s, t, list, phase);
      } else if c.Taking? {
        phase' := TakingStep(s, t, list, phase);
      } else if c.Dropping? {
        phase' := DroppingStep(s, t, list, phase);
      } else {
        LookStep(s, t, list, phase);
      }
  }

  /** Every atomic step of every interleaving of add and try_get keeps the invariant. */
  lemma StepKeepsInv(s: State, step: Step)
    requires Inv(s) && Enabled(s, step)
    ensures Inv(Apply(s, step))
  {
    var list, phase :| Good(s, list, phase);
    var list', phase' := StepKeepsGood(s, step, list, phase);
  }

  lemma InitInv(s: State)
    requires InitState(s)
    ensures Inv(s)
  {
    assert Good(s, [], []);
  }

  /** `states` is the run from an initial state that performs `steps` in order. */
  ghost predicate IsRun(states: seq<State>, steps: seq<Step>) {
    && |states| == |steps| + 1
    && InitState(states[0])
    && forall i :: 0 <= i < |steps| ==> Enabled(states[i], steps[i]) && states[i + 1] == Apply(states[i], steps[i])
  }

  lemma {:induction false} RunKeepsInv(states: seq<State>, steps: seq<Step>, i: nat)
    requires IsRun(states, steps) && i < |states|
    ensures Inv(states[i])
  {
    if i == 0 {
      InitInv(states[0]);
    } else {
      RunKeepsInv(states, steps, i - 1);
      StepKeepsInv(states[i - 1], steps[i - 1]);
    }
  }

  /* ---------- What the invariant gives the users ---------- */

  function UsersOf(s: State): Users {
    Users(|s.refs|, s.out)
  }

  /** What a step means to the users: a node is handed out when its try_get returns it, and given
      back when its add begins. */
  function Meaning(s: State, step: Step): Action {
    match step
    case Create => Grow(|s.refs|)
    case BeginAdd(t, n) => Put(n)
    case BeginGet(_) => Nothing
    case Run(t) => if t < |s.threads| && s.threads[t].Taking? then Take(s.threads[t].node) else Nothing
  }

  /** Every step is one action of an atomic pool or none: a node that try_get returns was in the
      pool until then, so it never goes to two users. */
  lemma RefinesPool(s: State, step: Step)
    requires Inv(s) && Enabled(s, step)
    ensures Does(UsersOf(s), UsersOf(Apply(s, step)), Meaning(s, step))
  {
    var list, phase :| Good(s, list, phase);
    match step
    case Run(t) =>
      if s.threads[t].Taking? {
        var n := s.threads[t].node;
        assert ThreadOk(s, phase, t) && NodeOk(s, n, phase[n]);
      }
    case _ =>
  }

  /** Step `i` hands node `n` to a user, from the list or newly made. */
  predicate HandsOutAt(states: seq<State>, steps: seq<Step>, i: nat, n: nat) {
    i < |states| && i < |steps| && (Meaning(states[i], steps[i]) == Take(n) || Meaning(states[i], steps[i]) == Grow(n))
  }

  predicate GivesBackAt(states: seq<State>, steps: seq<Step>, i: nat, n: nat) {
    i < |states| && i < |steps| && Meaning(states[i], steps[i]) == Put(n)
  }

  lemma {:induction false} StaysOut(states: seq<State>, steps: seq<Step>, i: nat, j: nat, n: nat)
    requires IsRun(states, steps) && i <= j < |states| && n in states[i].out
    requires forall k :: i <= k < j ==> !GivesBackAt(states, steps, k, n)
    ensures n in states[j].out
  {
    if i < j {
      StaysOut(states, steps, i, j - 1, n);
      RunKeepsInv(states, steps, j - 1);
      RefinesPool(states[j - 1], steps[j - 1]);
      assert !GivesBackAt(states, steps, j - 1, n);
    }
  }

  /** Over every run, between two times that a node is handed out somebody gives it back. */
  lemma GivenBackBetween(states: seq<State>, steps: seq<Step>, i: nat, j: nat, n: nat)
    requires IsRun(states, steps) && i < j < |steps|
    requires HandsOutAt(states, steps, i, n) && HandsOutAt(states, steps, j, n)
    ensures exists k :: i < k < j && GivesBackAt(states, steps, k, n)
  {
    RunKeepsInv(states, steps, i);
    RunKeepsInv(states, steps, j);
    RefinesPool(states[i], steps[i]);
    RefinesPool(states[j], steps[j]);
    if forall k :: i < k < j ==> !GivesBackAt(states, steps, k, n) {
      StaysOut(states, steps, i + 1, j, n);
    }
  }

  /** The CAS that pops the head installs the node's true current successor, although the successor
      was read earlier: there is no ABA. The popped node's flag is clear, and no user has it. */
  lemma PopInstallsSuccessor(s: State, t: nat)
    requires Inv(s) && Enabled(s, Run(t)) && s.threads[t].Popping? && s.head == Some(s.threads[t].node)
    ensures var n := s.threads[t].node;
      s.next[n] == s.threads[t].next && s.refs[n] < FLAG && n !in s.out
  {
    var list, phase :| Good(s, list, phase);
    var n := s.threads[t].node;
    assert list[0] == n;
    assert ThreadOk(s, phase, t) && NodeOk(s, n, phase[n]);
    WeightBounds(s.threads, n);
  }

  /** A node just popped has its flag clear and belongs to the popping thread alone. */
  lemma TakenExclusively(s: State, t: nat)
    requires Inv(s) && Enabled(s, Run(t)) && s.threads[t].Taking?
    ensures var n := s.threads[t].node;
      && n !in s.out && s.refs[n] < FLAG
      && forall u :: 0 <= u < |s.threads| && u != t && s.threads[u].Taking? ==> s.threads[u].node != n
  {
    var list, phase :| Good(s, list, phase);
    var n := s.threads[t].node;
    assert ThreadOk(s, phase, t) && NodeOk(s, n, phase[n]);
    WeightBounds(s.threads, n);
    forall u | 0 <= u < |s.threads| && u != t && s.threads[u].Taking? ensures s.threads[u].node != n {
      assert ThreadOk(s, phase, u);
    }
  }

  /** The list is acyclic, and each node's count is one for the list plus the references held. */
  lemma CountsAreExact(s: State) returns (list: seq<nat>)
    requires Inv(s)
    ensures Chain(s.head, s.next, list) && Distinct(list)
    ensures forall n :: 0 <= n < |s.refs| ==>
      s.refs[n] % FLAG == (if n in list then 1 else 0) + Weight(s.threads, n)
  {
    var l, phase :| Good(s, l, phase);
    list := l;
    forall n | 0 <= n < |s.refs| ensures s.refs[n] % FLAG == (if n in list then 1 else 0) + Weight(s.threads, n) {
      assert NodeOk(s, n, phase[n]);
      WeightBounds(s.threads, n);
    }
  }

  predicate IsLinking(c: Thread, n: nat) {
    c.Linking() && c.node == n
  }

  /** A node that should be on the free list is never stranded: either some thread still holds a
      reference to it, or exactly one thread is linking it in. */
  lemma NeverStranded(s: State, n: nat)
    requires Inv(s) && n < |s.refs| && s.refs[n] >= FLAG
    ensures Weight(s.threads, n) > 0 || exists t :: 0 <= t < |s.threads| && IsLinking(s.threads[t], n)
    ensures forall t, u :: 0 <= t < |s.threads| && 0 <= u < |s.threads| ==>
      (IsLinking(s.threads[t], n) && IsLinking(s.threads[u], n) ==> t == u)
  {
    var list: seq<nat>, phase: seq<Phase> :| Good(s, list, phase);
    assert NodeOk(s, n, phase[n]);
    WeightBounds(s.threads, n);
    if Weight(s.threads, n) == 0 {
      var t := phase[n].t;
      assert IsLinking(s.threads[t], n);
    }
    forall t | 0 <= t < |s.threads| && IsLinking(s.threads[t], n) ensures phase[n] == Linked(t) {
      assert ThreadOk(s, phase, t);
    }
  }

  /** With no operation in flight the reachable list holds exactly the nodes no user has, each
      counted once and unflagged. */
  lemma QuietListIsComplete(s: State) returns (list: seq<nat>)
    requires Inv(s) && forall t :: 0 <= t < |s.threads| ==> s.threads[t].AtRest()
    ensures Chain(s.head, s.next, list) && Distinct(list)
    ensures forall n: nat :: n in list <==> n < |s.refs| && n !in s.out
    ensures forall n :: 0 <= n < |s.refs| ==> s.refs[n] == if n in s.out then 0 else 1
  {
    var l, phase :| Good(s, l, phase);
    list := l;
    ChainInRange(s.head, s.next, list);
    forall n: nat | n < |s.refs|
      ensures s.refs[n] == if n in s.out then 0 else 1
      ensures n in list <==> n !in s.out
    {
      assert NodeOk(s, n, phase[n]);
      assert n in list <==> phase[n] == Listed;
      NoWeight(s.threads, n);
    }
  }
}
