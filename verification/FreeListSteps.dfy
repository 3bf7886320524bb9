/** Each kind of step keeps the invariant of the free list. */
module FreeListSteps {
  import opened Basics
  import opened FreeList

  lemma AddingStep(s: State, t: nat, list: seq<nat>, phase: seq<Phase>) returns (phase': seq<Phase>)
    requires Good(s, list, phase) && Enabled(s, Run(t)) && s.threads[t].Adding?
    ensures Good(RunThread(s, t), list, phase')
  {
    var s' := RunThread(s, t);
    var n := s.threads[t].node;
    assert ThreadOk(s, phase, t) && NodeOk(s, n, phase[n]);
    WeightUpdate(s.threads, t, s'.threads[t], n);
    WeightBounds(s.threads, n);
    phase' := phase[n := if s'.threads[t].Idle? then Waiting else Linked(t)];
    NodeStep(s, s', list, list, phase, phase', t, n);
  }

  lemma LinkingStep(s: State, t: nat, list: seq<nat>, phase: seq<Phase>)
    requires Good(s, list, phase) && Enabled(s, Run(t)) && s.threads[t].Linking()
    ensures Good(RunThread(s, t), list, phase)
  {
    var s' := RunThread(s, t);
    var n := s.threads[t].node;
    assert ThreadOk(s, phase, t) && NodeOk(s, n, phase[n]);
    WeightUpdate(s.threads, t, s'.threads[t], n);
    ChainFrame(s.head, s.next, s'.next, list);
    HeadLinkOk(s, list);
    NodeStep(s, s', list, list, phase, phase, t, n);
  }

  lemma HeadLinkOk(s: State, list: seq<nat>)
    requires Chain(s.head, s.next, list) && |s.refs| == |s.next|
    ensures LinkOk(s, s.head)
  {}

  lemma PushingStep(s: State, t: nat, list: seq<nat>, phase: seq<Phase>) returns (list': seq<nat>, phase': seq<Phase>)
    requires Good(s, list, phase) && Enabled(s, Run(t)) && s.threads[t].Pushing?
    ensures Good(RunThread(s, t), list', phase')
  {
    var s' := RunThread(s, t);
    var n := s.threads[t].node;
    assert ThreadOk(s, phase, t) && NodeOk(s, n, phase[n]);
    WeightUpdate(s.threads, t, s'.threads[t], n);
    HeadLinkOk(s, list);
    list', phase' := list, phase;
    if s.head == s.threads[t].head {
      list', phase' := [n] + list, phase[n := Listed];
      assert list'[1..] == list;
    }
    NodeStep(s, s', list, list', phase, phase', t, n);
  }

  /** After a failed push: without other references the thread still links the node, and otherwise the
      last of their holders will. */
  lemma UnpushedNode(s: State, t: nat, phase: seq<Phase>, phase': seq<Phase>)
    requires 2 * |s.threads| < FLAG - 3 && |phase| == |s.refs| == |s.next|
    requires Enabled(s, Run(t)) && s.threads[t].Unpushing? && ThreadOk(s, phase, t)
    requires NodeOk(s, s.threads[t].node, phase[s.threads[t].node])
    requires phase' == if s.refs[s.threads[t].node] == 1 then phase else phase[s.threads[t].node := Waiting]
    ensures var s' := RunThread(s, t);
      NodeOk(s', s.threads[t].node, phase'[s.threads[t].node]) && ThreadOk(s', phase', t)
  {
    var n := s.threads[t].node;
    WeightUpdate(s.threads, t, RunThread(s, t).threads[t], n);
    WeightBounds(s.threads, n);
  }

  lemma UnpushingStep(s: State, t: nat, list: seq<nat>, phase: seq<Phase>) returns (phase': seq<Phase>)
    requires Good(s, list, phase) && Enabled(s, Run(t)) && s.threads[t].Unpushing?
    ensures Good(RunThread(s, t), list, phase')
  {
    var n := s.threads[t].node;
    assert ThreadOk(s, phase, t) && NodeOk(s, n, phase[n]);
    phase' := if s.refs[n] == 1 then phase else phase[n := Waiting];
    UnpushedNode(s, t, phase, phase');
    NodeStep(s, RunThread(s, t), list, list, phase, phase', t, n);
  }

  /* ---------- Steps of try_get ---------- */

  /** A step that only moves a thread holding no reference and doing no node's work. */
  lemma LocalStep(s: State, t: nat, c: Thread, list: seq<nat>, phase: seq<Phase>)
    requires Good(s, list, phase) && t < |s.threads|
    requires forall m :: s.threads[t].Refs(m) == 0 && c.Refs(m) == 0
    requires s.threads[t].AtRest() || s.threads[t].Starting? || s.threads[t].Looking? || s.threads[t].Grabbing?
    requires ThreadOk(s.(threads := s.threads[t := c]), phase, t)
    ensures Good(s.(threads := s.threads[t := c]), list, phase)
  {
    var s' := s.(threads := s.threads[t := c]);
    forall m | 0 <= m < |phase| ensures NodeOk(s', m, phase[m]) {
      assert NodeOk(s, m, phase[m]);
      WeightUpdate(s.threads, t, c, m);
    }
    forall u | 0 <= u < |s.threads| ensures ThreadOk(s', phase, u) {
      assert u != t ==> ThreadOk(s, phase, u);
    }
  }

  lemma LookStep(s: State, t: nat, list: seq<nat>, phase: seq<Phase>)
    requires Good(s, list, phase) && Enabled(s, Run(t)) && (s.threads[t].Starting? || s.threads[t].Looking?)
    ensures Good(RunThread(s, t), list, phase)
  {
    HeadLinkOk(s, list);
    assert ThreadOk(s, phase, t);
    if s.threads[t].Looking? {
      var n := s.threads[t].node;
      assert NodeOk(s, n, phase[n]);
      WeightBounds(s.threads, n);
    }
    LocalStep(s, t, RunThread(s, t).threads[t], list, phase);
  }

  /** Raising the count of a node that had one: nobody was linking it. */
  lemma GrabbedNode(s: State, t: nat, phase: seq<Phase>)
    requires 2 * |s.threads| < FLAG - 3 && |phase| == |s.refs| == |s.next|
    requires Enabled(s, Run(t)) && s.threads[t].Grabbing? && s.refs[s.threads[t].node] == s.threads[t].refs
    requires ThreadOk(s, phase, t) && NodeOk(s, s.threads[t].node, phase[s.threads[t].node])
    ensures NodeOk(RunThread(s, t), s.threads[t].node, phase[s.threads[t].node])
  {
    var s' := RunThread(s, t);
    var n := s.threads[t].node;
    WeightUpdate(s.threads, t, s'.threads[t], n);
    WeightBounds(s.threads, n);
    assert s'.refs[n] == s.refs[n] + 1;
    assert Weight(s'.threads, n) == Weight(s.threads, n) + 1;
  }

  lemma GrabbingStep(s: State, t: nat, list: seq<nat>, phase: seq<Phase>)
    requires Good(s, list, phase) && Enabled(s, Run(t)) && s.threads[t].Grabbing?
    ensures Good(RunThread(s, t), list, phase)
  {
    var n := s.threads[t].node;
    assert ThreadOk(s, phase, t) && NodeOk(s, n, phase[n]);
    if s.refs[n] == s.threads[t].refs {
      GrabbedNode(s, t, phase);
      NodeStep(s, RunThread(s, t), list, list, phase, phase, t, n);
    } else {
      LocalStep(s, t, Starting, list, phase);
    }
  }

  lemma LoadingNextStep(s: State, t: nat, list: seq<nat>, phase: seq<Phase>)
    requires Good(s, list, phase) && Enabled(s, Run(t)) && s.threads[t].LoadingNext?
    ensures Good(RunThread(s, t), list, phase)
  {
    var s' := RunThread(s, t);
    var n := s.threads[t].node;
    assert ThreadOk(s, phase, t) && NodeOk(s, n, phase[n]);
    WeightUpdate(s.threads, t, s'.threads[t], n);
    NodeStep(s, s', list, list, phase, phase, t, n);
  }

  lemma PoppingStep(s: State, t: nat, list: seq<nat>, phase: seq<Phase>) returns (list': seq<nat>, phase': seq<Phase>)
    requires Good(s, list, phase) && Enabled(s, Run(t)) && s.threads[t].Popping?
    ensures Good(RunThread(s, t), list', phase')
  {
    var s' := RunThread(s, t);
    var n := s.threads[t].node;
    assert ThreadOk(s, phase, t) && NodeOk(s, n, phase[n]);
    WeightUpdate(s.threads, t, s'.threads[t], n);
    HeadLinkOk(s, list);
    list', phase' := list, phase;
    if s.head == Some(n) {
      assert list[0] == n;
      list', phase' := list[1..], phase[n := Taken(t)];
      assert n !in list';
    }
    NodeStep(s, s', list, list', phase, phase', t, n);
  }

  lemma TakingStep(s: State, t: nat, list: seq<nat>, phase: seq<Phase>) returns (phase': seq<Phase>)
    requires Good(s, list, phase) && Enabled(s, Run(t)) && s.threads[t].Taking?
    ensures Good(RunThread(s, t), list, phase')
  {
    var s' := RunThread(s, t);
    var n := s.threads[t].node;
    assert ThreadOk(s, phase, t) && NodeOk(s, n, phase[n]);
    WeightUpdate(s.threads, t, s'.threads[t], n);
    WeightBounds(s.threads, n);
    phase' := phase[n := Out];
    NodeStep(s, s', list, list, phase, phase', t, n);
  }

  /** Dropping a reference: the last holder of a node that is to be listed takes it over. */
  lemma DroppedNode(s: State, t: nat, phase: seq<Phase>, phase': seq<Phase>)
    requires 2 * |s.threads| < FLAG - 3 && |phase| == |s.refs| == |s.next|
    requires Enabled(s, Run(t)) && s.threads[t].Dropping? && ThreadOk(s, phase, t)
    requires NodeOk(s, s.threads[t].node, phase[s.threads[t].node])
    requires phase' == if s.refs[s.threads[t].node] == FLAG + 1 then phase[s.threads[t].node := Linked(t)] else phase
    ensures var s' := RunThread(s, t);
      NodeOk(s', s.threads[t].node, phase'[s.threads[t].node]) && ThreadOk(s', phase', t)
    ensures s.refs[s.threads[t].node] == FLAG + 1 ==> phase[s.threads[t].node] == Waiting
  {
    var s' := RunThread(s, t);
    var n := s.threads[t].node;
    WeightUpdate(s.threads, t, s'.threads[t], n);
    WeightBounds(s.threads, n);
    assert s'.refs[n] == s.refs[n] - 1;
    assert Weight(s'.threads, n) == Weight(s.threads, n) - 1;
  }

  lemma DroppingStep(s: State, t: nat, list: seq<nat>, phase: seq<Phase>) returns (phase': seq<Phase>)
    requires Good(s, list, phase) && Enabled(s, Run(t)) && s.threads[t].Dropping?
    ensures Good(RunThread(s, t), list, phase')
  {
    var n := s.threads[t].node;
    assert ThreadOk(s, phase, t) && NodeOk(s, n, phase[n]);
    phase' := if s.refs[n] == FLAG + 1 then phase[n := Linked(t)] else phase;
    DroppedNode(s, t, phase, phase');
    NodeStep(s, RunThread(s, t), list, list, phase, phase', t, n);
  }

  /* ---------- Steps of the users ---------- */

  lemma BeginAddStep(s: State, t: nat, n: nat, list: seq<nat>, phase: seq<Phase>) returns (phase': seq<Phase>)
    requires Good(s, list, phase) && Enabled(s, BeginAdd(t, n))
    ensures Good(Apply(s, BeginAdd(t, n)), list, phase')
  {
    var s' := Apply(s, BeginAdd(t, n));
    assert NodeOk(s, n, phase[n]);
    WeightUpdate(s.threads, t, s'.threads[t], n);
    phase' := phase[n := Given(t)];
    NodeStep(s, s', list, list, phase, phase', t, n);
  }

  lemma CreateStep(s: State, list: seq<nat>, phase: seq<Phase>) returns (phase': seq<Phase>)
    requires Good(s, list, phase)
    ensures Good(Apply(s, Create), list, phase')
  {
    var s' := Apply(s, Create);
    var created := |s.refs|;
    phase' := phase + [Out];
    ChainFrame(s.head, s.next, s'.next, list);
    ChainInRange(s.head, s.next, list);
    forall t | 0 <= t < |s.threads| ensures ThreadOk(s', phase', t) && s.threads[t].Refs(created) == 0 {
      assert ThreadOk(s, phase, t);
    }
    NoWeight(s.threads, created);
    forall m | 0 <= m < |phase'| ensures NodeOk(s', m, phase'[m]) {
      assert m < |phase| ==> NodeOk(s, m, phase[m]);
    }
  }

  lemma {:induction false} NoWeight(threads: seq<Thread>, n: nat)
    requires forall t :: 0 <= t < |threads| ==> threads[t].Refs(n) == 0
    ensures Weight(threads, n) == 0
  {
    if |threads| > 0 {
      NoWeight(threads[..|threads| - 1], n);
    }
  }

  lemma {:induction false} ChainInRange(head: Link, next: seq<Link>, list: seq<nat>)
    requires Chain(head, next, list)
    ensures forall m :: m in list ==> m < |next|
    decreases |list|
  {
    if |list| > 0 {
      ChainInRange(next[list[0]], next, list[1..]);
      assert list == [list[0]] + list[1..];
    }
  }
}
