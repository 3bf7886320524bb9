/**
 The lock-free free list: a CAS stack whose nodes carry a reference count and a
 "should be on freelist" bit in one 32-bit word. Every atomic operation is one step.

 A node is identified by its index. `out` holds the nodes in the hands of the list's users: only
 such a node may be added, which is what the callers of `add` guarantee.
 */
module FreeList {
  import opened Basics

  const FLAG: int := 0x8000_0000
  const WORD32: int := 0x1_0000_0000

  type Link = Option<nat>

  /** `then` is where a push continues: return to the caller, or resume `try_get` at a loaded head. */
  datatype Then = Return | Resume(head: Link)

  datatype Thread =
    | Idle
    | Adding(node: nat)
    | LoadingHead(node: nat, after: Then)
    | StoringNext(node: nat, head: Link, after: Then)
    | StoringRefs(node: nat, head: Link, after: Then)
    | Pushing(node: nat, head: Link, after: Then)
    | Unpushing(node: nat, head: Link, after: Then)
    | Starting
    | Looking(node: nat)
    | Grabbing(node: nat, refs: int)
    | LoadingNext(node: nat)
    | Popping(node: nat, next: Link)
    | Taking(node: nat)
    | Dropping(node: nat, head: Link)
    | Returned(result: Link)
  {
    /** Not in an operation: `Returned` keeps what the last try_get gave back. */
    predicate AtRest() {
      Idle? || Returned?
    }

    /** The references to node `n` this thread is counted for. */
    function Refs(n: nat): nat {
      match this
      case Pushing(m, _, _) => if m == n then 1 else 0
      case Unpushing(m, _, _) => if m == n then 1 else 0
      case LoadingNext(m) => if m == n then 1 else 0
      case Popping(m, _) => if m == n then 1 else 0
      case Dropping(m, _) => if m == n then 1 else 0
      case Taking(m) => if m == n then 2 else 0
      case _ => 0
    }

    /** Inside add_knowing_refcount_is_zero, with the flag set and the count at zero. */
    predicate Linking() {
      LoadingHead? || StoringNext? || StoringRefs?
    }
  }

  datatype State = State(head: Link, refs: seq<int>, next: seq<Link>, out: set<nat>, threads: seq<Thread>)

  datatype Step =
    | Create
    | BeginAdd(t: nat, node: nat)
    | BeginGet(t: nat)
    | Run(t: nat)

  predicate InitState(s: State) {
    && s.head == None && s.refs == [] && s.next == [] && s.out == {}
    && 2 * |s.threads| < FLAG - 3
    && forall t :: 0 <= t < |s.threads| ==> s.threads[t] == Idle
  }

  predicate InRange(s: State, t: Thread) {
    match t
    case Idle => true
    case Returned(_) => true
    case Starting => true
    case _ => t.node < |s.refs| && t.node < |s.next|
  }

  predicate Enabled(s: State, step: Step) {
    match step
    case Create => true
    case BeginAdd(t, n) => t < |s.threads| && s.threads[t].AtRest() && n in s.out
    case BeginGet(t) => t < |s.threads| && s.threads[t].AtRest()
    case Run(t) => t < |s.threads| && !s.threads[t].AtRest() && InRange(s, s.threads[t])
  }

  /** The loop head of try_get. */
  function AtHead(head: Link): Thread {
    if head == None then Returned(None) else Looking(head.value)
  }

  function Continue(after: Then): Thread {
    match after
    case Return => Idle
    case Resume(head) => AtHead(head)
  }

  function Plus(refs: int, delta: int): int {
    (refs + delta) % WORD32
  }

  function RunThread(s: State, t: nat): State
    requires Enabled(s, Run(t))
  {
    var go := (c: Thread) => s.threads[t := c];
    match s.threads[t]
    case Adding(n) =>
      s.(refs := s.refs[n := Plus(s.refs[n], FLAG)],
         threads := go(if s.refs[n] == 0 then LoadingHead(n, Return) else Idle))
    case LoadingHead(n, after) => s.(threads := go(StoringNext(n, s.head, after)))
    case StoringNext(n, h, after) => s.(next := s.next[n := h], threads := go(StoringRefs(n, h, after)))
    case StoringRefs(n, h, after) => s.(refs := s.refs[n := 1], threads := go(Pushing(n, h, after)))
    case Pushing(n, h, after) =>
      if s.head == h then s.(head := Some(n), threads := go(Continue(after)))
      else s.(threads := go(Unpushing(n, s.head, after)))
    case Unpushing(n, h, after) =>
      s.(refs := s.refs[n := Plus(s.refs[n], FLAG - 1)],
         threads := go(if s.refs[n] == 1 then StoringNext(n, h, after) else Continue(after)))
    case Starting => s.(threads := go(AtHead(s.head)))
    case Looking(n) => s.(threads := go(if s.refs[n] % FLAG == 0 then Starting else Grabbing(n, s.refs[n])))
    case Grabbing(n, r) =>
      if s.refs[n] == r then s.(refs := s.refs[n := Plus(r, 1)], threads := go(LoadingNext(n)))
      else s.(threads := go(Starting))
    case LoadingNext(n) => s.(threads := go(Popping(n, s.next[n])))
    case Popping(n, next) =>
      if s.head == Some(n) then s.(head := next, threads := go(Taking(n)))
      else s.(threads := go(Dropping(n, s.head)))
    case Taking(n) =>
      s.(refs := s.refs[n := Plus(s.refs[n], -2)], out := s.out + {n}, threads := go(Returned(Some(n))))
    case Dropping(n, h) =>
      s.(refs := s.refs[n := Plus(s.refs[n], -1)],
         threads := go(if s.refs[n] == FLAG + 1 then LoadingHead(n, Resume(h)) else AtHead(h)))
    case Idle => s
    case Returned(_) => s
  }

  function Apply(s: State, step: Step): State
    requires Enabled(s, step)
  {
    match step
    case Create => s.(refs := s.refs + [0], next := s.next + [None], out := s.out + {|s.refs|})
    case BeginAdd(t, n) => s.(out := s.out - {n}, threads := s.threads[t := Adding(n)])
    case BeginGet(t) => s.(threads := s.threads[t := Starting])
    case Run(t) => RunThread(s, t)
  }

  /* ---------- The invariant ---------- */

  /** Where a node stands; thread `t` is the one thread working on it. */
  datatype Phase = Out | Listed | Waiting | Given(t: nat) | Linked(t: nat) | Taken(t: nat)

  function Weight(threads: seq<Thread>, n: nat): nat {
    if |threads| == 0 then 0
    else Weight(threads[..|threads| - 1], n) + threads[|threads| - 1].Refs(n)
  }

  /** The list reachable from `head`. */
  ghost predicate Chain(head: Link, next: seq<Link>, list: seq<nat>)
    decreases |list|
  {
    if |list| == 0 then head == None
    else head == Some(list[0]) && list[0] < |next| && Chain(next[list[0]], next, list[1..])
  }

  function Flag(s: State, p: Phase): int {
    match p
    case Waiting => FLAG
    case Linked(t) => if t < |s.threads| && s.threads[t].Linking() then FLAG else 0
    case _ => 0
  }

  ghost predicate NodeOk(s: State, n: nat, p: Phase)
    requires n < |s.refs|
  {
    && s.refs[n] == Flag(s, p) + (if p == Listed then 1 else 0) + Weight(s.threads, n)
    && (p == Out <==> n in s.out)
    && (p == Waiting ==> Weight(s.threads, n) > 0)
    && match p
       case Given(t) => t < |s.threads| && s.threads[t] == Adding(n)
       case Linked(t) =>
         && t < |s.threads| && (s.threads[t].Linking() || s.threads[t].Pushing? || s.threads[t].Unpushing?)
         && s.threads[t].node == n && (s.threads[t].Linking() ==> Weight(s.threads, n) == 0)
       case Taken(t) => t < |s.threads| && s.threads[t] == Taking(n)
       case _ => true
  }

  ghost predicate LinkOk(s: State, l: Link) {
    l == None || l.value < |s.refs|
  }

  ghost predicate ThenOk(s: State, after: Then) {
    after == Return || LinkOk(s, after.head)
  }

  ghost predicate ThreadOk(s: State, phase: seq<Phase>, t: nat)
    requires |phase| == |s.refs| == |s.next| && t < |s.threads|
  {
    && InRange(s, s.threads[t])
    && match s.threads[t]
       case Adding(n) => phase[n] == Given(t)
       case LoadingHead(n, after) => phase[n] == Linked(t) && ThenOk(s, after)
       case StoringNext(n, h, after) => phase[n] == Linked(t) && LinkOk(s, h) && ThenOk(s, after)
       case StoringRefs(n, h, after) => phase[n] == Linked(t) && s.next[n] == h && LinkOk(s, h) && ThenOk(s, after)
       case Pushing(n, h, after) => phase[n] == Linked(t) && s.next[n] == h && LinkOk(s, h) && ThenOk(s, after)
       case Unpushing(n, h, after) => phase[n] == Linked(t) && LinkOk(s, h) && ThenOk(s, after)
       case Grabbing(n, r) => 0 <= r < WORD32 && r % FLAG != 0
       case Popping(n, next) => s.next[n] == next
       case Taking(n) => phase[n] == Taken(t)
       case Dropping(n, h) => LinkOk(s, h)
       case _ => true
  }

  ghost predicate Good(s: State, list: seq<nat>, phase: seq<Phase>) {
    && |phase| == |s.refs| == |s.next|
    && 2 * |s.threads| < FLAG - 3
    && Chain(s.head, s.next, list) && Distinct(list)
    && (forall n :: 0 <= n < |phase| ==> (phase[n] == Listed <==> n in list))
    && (forall n :: n in s.out ==> n < |phase|)
    && (forall n :: 0 <= n < |phase| ==> NodeOk(s, n, phase[n]))
    && (forall n :: 0 <= n < |s.next| ==> LinkOk(s, s.next[n]))
    && (forall t :: 0 <= t < |s.threads| ==> ThreadOk(s, phase, t))
  }

  ghost predicate Inv(s: State) {
    exists list, phase :: Good(s, list, phase)
  }

  lemma {:induction false} WeightUpdate(threads: seq<Thread>, t: nat, c: Thread, n: nat)
    requires t < |threads|
    ensures Weight(threads[t := c], n) == Weight(threads, n) - threads[t].Refs(n) + c.Refs(n)
  {
    var last := |threads| - 1;
    if t == last {
      assert threads[t := c][..last] == threads[..last];
    } else {
      assert threads[t := c][..last] == threads[..last][t := c];
      WeightUpdate(threads[..last], t, c, n);
    }
  }

  lemma {:induction false} WeightBounds(threads: seq<Thread>, n: nat)
    ensures Weight(threads, n) <= 2 * |threads|
    ensures forall t :: 0 <= t < |threads| ==> threads[t].Refs(n) <= Weight(threads, n)
  {
    if |threads| > 0 {
      WeightBounds(threads[..|threads| - 1], n);
    }
  }

  /** The step moves only thread `t` and touches only node `n`. */
  ghost predicate Touches(s: State, s': State, t: nat, n: nat) {
    && t < |s.threads| && n < |s.refs| == |s.next|
    && |s'.refs| == |s.refs| && |s'.next| == |s.next| && |s'.threads| == |s.threads|
    && s'.threads == s.threads[t := s'.threads[t]]
    && (forall m :: 0 <= m < |s.refs| && m != n ==> s'.refs[m] == s.refs[m] && s'.next[m] == s.next[m])
    && s'.out - {n} == s.out - {n}
    && (forall m :: m != n ==> s.threads[t].Refs(m) == 0 && s'.threads[t].Refs(m) == 0)
    && (s.threads[t].AtRest() || s.threads[t].Starting? || s.threads[t].node == n)
  }

  lemma OtherNode(s: State, s': State, list: seq<nat>, phase: seq<Phase>, t: nat, n: nat, m: nat)
    requires Good(s, list, phase) && Touches(s, s', t, n) && m < |s.refs| && m != n
    ensures NodeOk(s', m, phase[m])
  {
    assert NodeOk(s, m, phase[m]);
    WeightUpdate(s.threads, t, s'.threads[t], m);
    assert m in s'.out <==> m in s'.out - {n};
    assert m in s.out <==> m in s.out - {n};
  }

  ghost predicate FreeOf(p: Phase, t: nat) {
    forall u :: u != t ==> p != Given(u) && p != Linked(u) && p != Taken(u)
  }

  lemma OtherThread(s: State, s': State, list: seq<nat>, phase: seq<Phase>, phase': seq<Phase>, t: nat, n: nat, u: nat)
    requires Good(s, list, phase) && Touches(s, s', t, n) && u < |s.threads| && u != t
    requires |phase'| == |phase| && phase' == phase[n := phase'[n]]
    requires phase'[n] == phase[n] || FreeOf(phase[n], t)
    requires s'.next[n] == s.next[n] || (phase[n] == Linked(t) && Weight(s.threads, n) == 0)
    ensures ThreadOk(s', phase', u)
  {
    assert ThreadOk(s, phase, u);
    WeightBounds(s.threads, n);
  }

  /** Reassembles the invariant after such a step from the facts about `n` and `t` alone. */
  lemma NodeStep(
      s: State, s': State, list: seq<nat>, list': seq<nat>, phase: seq<Phase>, phase': seq<Phase>, t: nat,
      n: nat)
    requires Good(s, list, phase) && Touches(s, s', t, n)
    requires |phase'| == |phase| && phase' == phase[n := phase'[n]]
    requires phase'[n] == phase[n] || FreeOf(phase[n], t)
    requires s'.next[n] == s.next[n] || (phase[n] == Linked(t) && Weight(s.threads, n) == 0)
    requires LinkOk(s, s'.next[n])
    requires Chain(s'.head, s'.next, list') && Distinct(list')
    requires forall m :: m in list' <==> if m == n then phase'[n] == Listed else m in list
    requires NodeOk(s', n, phase'[n]) && ThreadOk(s', phase', t)
    ensures Good(s', list', phase')
  {
    forall m | 0 <= m < |phase'| ensures NodeOk(s', m, phase'[m]) {
      if m != n {
        OtherNode(s, s', list, phase, t, n, m);
      }
    }
    forall u | 0 <= u < |s.threads| ensures ThreadOk(s', phase', u) {
      if u != t {
        OtherThread(s, s', list, phase, phase', t, n, u);
      }
    }
    forall m | m in s'.out ensures m < |phase'| {
      assert m != n ==> m in s'.out - {n};
    }
  }

  /** Writing the link of an unlisted node leaves the chain as it was. */
  lemma {:induction false} ChainFrame(head: Link, next: seq<Link>, next': seq<Link>, list: seq<nat>)
    requires Chain(head, next, list) && |next'| >= |next|
    requires forall m :: 0 <= m < |next| && m in list ==> next'[m] == next[m]
    ensures Chain(head, next', list)
    decreases |list|
  {
    if |list| > 0 {
      assert list[0] in list;
      assert forall m :: m in list[1..] ==> m in list;
      ChainFrame(next[list[0]], next, next', list[1..]);
    }
  }
}
