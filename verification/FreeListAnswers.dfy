/** What the calls of the free list answer: when a get finds a node, and what an add leaves behind. */
module FreeListAnswers {
  import opened Basics
  import opened Pool
  import opened FreeList
  import opened FreeListSteps
  import opened FreeListRuns

  /** `states` is the way from state `s` that performs `steps` in order. */
  ghost predicate IsTrace(s: State, states: seq<State>, steps: seq<Step>) {
    && |states| == |steps| + 1 && states[0] == s
    && forall i :: 0 <= i < |steps| ==> Enabled(states[i], steps[i]) && states[i + 1] == Apply(states[i], steps[i])
  }

  lemma Extend(s: State, states: seq<State>, steps: seq<Step>, step: Step, s': State)
    requires IsTrace(s, states, steps) && Enabled(states[|steps|], step) && s' == Apply(states[|steps|], step)
    ensures IsTrace(s, states + [s'], steps + [step])
  {}

  /** A first step by `first`, then thread `t` runs alone. */
  predicate Alone(steps: seq<Step>, first: Step, t: nat) {
    |steps| > 0 && steps[0] == first && forall i :: 0 < i < |steps| ==> steps[i] == Run(t)
  }

  /** The head of the list is counted, so a get may take a reference to it. */
  lemma HeadIsCounted(s: State)
    requires Inv(s) && s.head.Some?
    ensures s.head.value < |s.refs| == |s.next| && 0 < s.refs[s.head.value] < FLAG - 1
  {
    var list, phase :| Good(s, list, phase);
    assert list[0] == s.head.value;
    assert NodeOk(s, s.head.value, phase[s.head.value]);
    WeightBounds(s.threads, s.head.value);
  }

  /** From any state a get that runs alone answers with the head of the list and leaves the rest of the
      list, or answers that the list is empty when it is, wherever other threads have stopped. */
  lemma SoloGet(s: State, t: nat) returns (states: seq<State>, steps: seq<Step>)
    requires Inv(s) && t < |s.threads| && s.threads[t].AtRest()
    ensures IsTrace(s, states, steps) && Alone(steps, BeginGet(t), t)
    ensures s.head.Some? ==> s.head.value < |s.refs| && s.head.value < |s.next|
    ensures states[|steps|] ==
      match s.head
      case None => s.(threads := s.threads[t := Returned(None)])
      case Some(n) => s.(head := s.next[n], refs := s.refs[n := s.refs[n] - 1], out := s.out + {n},
                         threads := s.threads[t := Returned(Some(n))])
  {
    var begun := s.(threads := s.threads[t := Starting]);
    states, steps := [s, begun], [BeginGet(t)];
    if s.head == None {
      Extend(s, states, steps, Run(t), s.(threads := s.threads[t := Returned(None)]));
      states, steps := states + [s.(threads := s.threads[t := Returned(None)])], steps + [Run(t)];
      return;
    }
    var n := s.head.value;
    HeadIsCounted(s);
    var looking := s.(threads := s.threads[t := Looking(n)]);
    Extend(s, states, steps, Run(t), looking);
    var grabbing := s.(threads := s.threads[t := Grabbing(n, s.refs[n])]);
    Extend(s, states + [looking], steps + [Run(t)], Run(t), grabbing);
    states, steps := states + [looking] + [grabbing], steps + [Run(t)] + [Run(t)];
    var more, last := SoloPop(grabbing, t);
    states, steps := Join(s, states, steps, more, last);
  }

  /** The second half: from the reference on. */
  lemma SoloPop(s: State, t: nat) returns (states: seq<State>, steps: seq<Step>)
    requires t < |s.threads| && s.head.Some? && s.head.value < |s.refs| == |s.next|
    requires 0 < s.refs[s.head.value] < FLAG - 1
    requires s.threads[t] == Grabbing(s.head.value, s.refs[s.head.value])
    ensures IsTrace(s, states, steps) && forall i :: 0 <= i < |steps| ==> steps[i] == Run(t)
    ensures var n := s.head.value;
      states[|steps|] == s.(head := s.next[n], refs := s.refs[n := s.refs[n] - 1], out := s.out + {n},
                            threads := s.threads[t := Returned(Some(n))])
  {
    var n := s.head.value;
    var refs := s.refs[n := s.refs[n] + 1];
    var loading := s.(refs := refs, threads := s.threads[t := LoadingNext(n)]);
    var popping := s.(refs := refs, threads := s.threads[t := Popping(n, s.next[n])]);
    var taking := s.(refs := refs, head := s.next[n], threads := s.threads[t := Taking(n)]);
    var taken := s.(head := s.next[n], refs := s.refs[n := s.refs[n] - 1], out := s.out + {n},
                    threads := s.threads[t := Returned(Some(n))]);
    SoloTake(taking, taken, t, n);
    states, steps := [s, loading, popping], [Run(t), Run(t)];
    Extend(s, states, steps, Run(t), taking);
    Extend(s, states + [taking], steps + [Run(t)], Run(t), taken);
    states, steps := states + [taking] + [taken], steps + [Run(t)] + [Run(t)];
  }

  lemma SoloTake(taking: State, taken: State, t: nat, n: nat)
    requires t < |taking.threads| && n < |taking.refs| == |taking.next| && 2 <= taking.refs[n] < FLAG
    requires taking.threads[t] == Taking(n)
    requires taken == taking.(refs := taking.refs[n := taking.refs[n] - 2], out := taking.out + {n},
                              threads := taking.threads[t := Returned(Some(n))])
    ensures taken == Apply(taking, Run(t))
  {}

  lemma Join(s: State, states: seq<State>, steps: seq<Step>, more: seq<State>, last: seq<Step>)
      returns (all: seq<State>, allSteps: seq<Step>)
    requires IsTrace(s, states, steps) && IsTrace(states[|steps|], more, last)
    ensures IsTrace(s, all, allSteps) && allSteps == steps + last && all[|allSteps|] == more[|last|]
  {
    all, allSteps := states + more[1..], steps + last;
    forall i | 0 <= i < |allSteps|
      ensures Enabled(all[i], allSteps[i]) && all[i + 1] == Apply(all[i], allSteps[i])
    {
      if i >= |steps| {
        assert all[i] == more[i - |steps|] && all[i + 1] == more[i + 1 - |steps|];
      }
    }
  }

  /** From any state an add that runs alone puts its node at the head of the list; while others still
      hold references to the node it leaves it flagged for the last of them to list. */
  lemma SoloAdd(s: State, t: nat, n: nat) returns (states: seq<State>, steps: seq<Step>)
    requires Inv(s) && t < |s.threads| && s.threads[t].AtRest() && n in s.out
    ensures n < |s.refs| && n < |s.next|
    ensures IsTrace(s, states, steps) && Alone(steps, BeginAdd(t, n), t)
    ensures s.refs[n] == Weight(s.threads, n)
    ensures var added := s.(out := s.out - {n}, threads := s.threads[t := Idle]);
      states[|steps|] ==
        if Weight(s.threads, n) == 0 then added.(head := Some(n), refs := s.refs[n := 1], next := s.next[n := s.head])
        else added.(refs := s.refs[n := s.refs[n] + FLAG])
  {
    var list, phase :| Good(s, list, phase);
    assert NodeOk(s, n, phase[n]);
    WeightBounds(s.threads, n);
    var out := s.(out := s.out - {n});
    var adding := out.(threads := s.threads[t := Adding(n)]);
    var flagged := Apply(adding, Run(t));
    states, steps := [s, adding, flagged], [BeginAdd(t, n), Run(t)];
    if s.refs[n] == 0 {
      var more, last := SoloLink(flagged, t, n);
      states, steps := Join(s, states, steps, more, last);
      assert s.refs[n := FLAG][n := 1] == s.refs[n := 1];
    }
  }

  lemma SoloLink(s: State, t: nat, n: nat) returns (states: seq<State>, steps: seq<Step>)
    requires t < |s.threads| && n < |s.refs| == |s.next| && s.threads[t] == LoadingHead(n, Return)
    ensures IsTrace(s, states, steps) && forall i :: 0 <= i < |steps| ==> steps[i] == Run(t)
    ensures states[|steps|] ==
      s.(head := Some(n), refs := s.refs[n := 1], next := s.next[n := s.head], threads := s.threads[t := Idle])
  {
    var storing := s.(threads := s.threads[t := StoringNext(n, s.head, Return)]);
    var stored := s.(next := s.next[n := s.head], threads := s.threads[t := StoringRefs(n, s.head, Return)]);
    var pushing := stored.(refs := s.refs[n := 1], threads := s.threads[t := Pushing(n, s.head, Return)]);
    var pushed := Apply(pushing, Run(t));
    states, steps := [s, storing, stored, pushing, pushed], [Run(t), Run(t), Run(t), Run(t)];
  }

  /* ---------- What a call answers among others ---------- */

  /** The operation of thread `t` begun by step `i` is still the one it is in, or last was in, at state `k`. */
  predicate SameCall(states: seq<State>, steps: seq<Step>, i: nat, k: nat, t: nat) {
    && i < k < |states| && k <= |steps| && (steps[i] == BeginGet(t) || (steps[i].BeginAdd? && steps[i].t == t))
    && forall j :: i < j < k ==> steps[j] != BeginGet(t) && !(steps[j].BeginAdd? && steps[j].t == t)
  }

  /** Step `j` is a load of the list's head by a get of thread `t`, its own or that of a failed exchange,
      and finds no node. */
  predicate FindsNone(states: seq<State>, steps: seq<Step>, j: nat, t: nat) {
    && j < |states| && j < |steps| && steps[j] == Run(t) && t < |states[j].threads| && states[j].head == None
    && (states[j].threads[t].Starting? || states[j].threads[t].Popping?)
  }

  /** The thread is in a get or has returned from one. */
  predicate Getting(c: Thread) {
    match c
    case Idle => false
    case Adding(_) => false
    case LoadingHead(_, after) => after.Resume?
    case StoringNext(_, _, after) => after.Resume?
    case StoringRefs(_, _, after) => after.Resume?
    case Pushing(_, _, after) => after.Resume?
    case Unpushing(_, _, after) => after.Resume?
    case _ => true
  }

  /** The head that the get will go on from, or has returned for, is no node. */
  predicate SawNone(c: Thread) {
    match c
    case LoadingHead(_, after) => after == Resume(None)
    case StoringNext(_, _, after) => after == Resume(None)
    case StoringRefs(_, _, after) => after == Resume(None)
    case Pushing(_, _, after) => after == Resume(None)
    case Unpushing(_, _, after) => after == Resume(None)
    case Dropping(_, head) => head == None
    case Returned(result) => result == None
    case _ => false
  }

  /** A step of thread `t` itself: where its get stands afterwards. */
  lemma GetStep(s: State, t: nat)
    requires Enabled(s, Run(t)) && Getting(s.threads[t])
    ensures var c, c' := s.threads[t], RunThread(s, t).threads[t];
      && Getting(c')
      && (SawNone(c') ==> SawNone(c) || (s.head == None && (c.Starting? || c.Popping?)))
      && (forall n :: c' == Returned(Some(n)) ==> c == Taking(n))
  {}

  lemma GetStepSeen(states: seq<State>, steps: seq<Step>, k: nat, t: nat)
    requires IsRun(states, steps) && k < |steps| && steps[k] == Run(t) && t < |states[k].threads|
    requires Getting(states[k].threads[t])
    ensures t < |states[k + 1].threads| && Getting(states[k + 1].threads[t])
    ensures SawNone(states[k + 1].threads[t]) ==> SawNone(states[k].threads[t]) || FindsNone(states, steps, k, t)
    ensures forall n :: states[k + 1].threads[t] == Returned(Some(n)) ==> HandsOutAt(states, steps, k, n)
  {
    assert Enabled(states[k], steps[k]) && states[k + 1] == Apply(states[k], steps[k]);
    GetStep(states[k], t);
  }

  lemma {:induction false} GetAnswersFrom(states: seq<State>, steps: seq<Step>, i: nat, k: nat, t: nat)
    requires IsRun(states, steps) && SameCall(states, steps, i, k, t) && steps[i] == BeginGet(t)
    ensures t < |states[k].threads| && Getting(states[k].threads[t])
    ensures SawNone(states[k].threads[t]) ==> exists j :: i < j < k && FindsNone(states, steps, j, t)
    ensures forall n :: states[k].threads[t] == Returned(Some(n)) ==>
      exists j :: i < j < k && steps[j] == Run(t) && HandsOutAt(states, steps, j, n)
  {
    assert Enabled(states[k - 1], steps[k - 1]) && states[k] == Apply(states[k - 1], steps[k - 1]);
    if k > i + 1 {
      GetAnswersFrom(states, steps, i, k - 1, t);
      if steps[k - 1] == Run(t) {
        GetStepSeen(states, steps, k - 1, t);
      } else {
        OthersWait(states[k - 1], steps[k - 1], t);
      }
    }
  }

  lemma OthersWait(s: State, step: Step, t: nat)
    requires Enabled(s, step) && t < |s.threads| && (step == Create || step.t != t)
    ensures t < |Apply(s, step).threads| && Apply(s, step).threads[t] == s.threads[t]
  {}

  /** In every interleaving a get that has ended has answered with a node that one of its steps took from
      the list, or with none, and then one of its own loads of the head found the list empty. */
  lemma GetAnswers(states: seq<State>, steps: seq<Step>, i: nat, k: nat, t: nat)
    requires IsRun(states, steps) && SameCall(states, steps, i, k, t) && steps[i] == BeginGet(t)
    ensures t < |states[k].threads|
    ensures match states[k].threads[t]
      case Idle => false
      case Returned(None) => exists j :: i < j < k && FindsNone(states, steps, j, t)
      case Returned(Some(n)) => exists j :: i < j < k && steps[j] == Run(t) && HandsOutAt(states, steps, j, n)
      case _ => true
  {
    GetAnswersFrom(states, steps, i, k, t);
  }
}
