/** What a call of the producer hash answers: a producer, unless memory was refused to it. */
module ProducerHashAnswers {
  import opened Basics
  import opened ProducerHash
  import opened ProducerHashSteps
  import opened ProducerHashRuns

  /** Step `j` is one in which thread `t` asks for memory, for a table or a producer, and gets none. */
  predicate RefusedAt(states: seq<State>, steps: seq<Step>, j: nat, t: nat) {
    && j < |states| && j < |steps| && steps[j] == Run(t, false) && t < |states[j].threads|
    && (states[j].threads[t].Allocating? || states[j].threads[t].Making?)
  }

  predicate RefusedIn(states: seq<State>, steps: seq<Step>, i: nat, k: nat, t: nat) {
    exists j :: i < j < k && RefusedAt(states, steps, j, t)
  }

  /** Thread `t`'s call begun by step `i` is still the one it is in, or last was in, at state `k`. */
  predicate SameCall(states: seq<State>, steps: seq<Step>, i: nat, k: nat, t: nat) {
    i < k < |states| && k <= |steps| && steps[i] == Begin(t) && forall j :: i < j < k ==> steps[j] != Begin(t)
  }

  /** The thread is on its way to returning without a producer, or has done so. */
  predicate Denied(c: Thread) {
    c.GivingUp? || c.UnlockingEmpty? || c.Unmaking? || c == Returned(None)
  }

  lemma OwnStep(s: State, t: nat, granted: bool)
    requires Enabled(s, Run(t, granted))
    ensures var c, c' := s.threads[t], RunThread(s, t, granted).threads[t];
      Denied(c') <==> Denied(c) || (!granted && (c.Allocating? || c.Making?))
  {}

  lemma OthersWait(s: State, step: Step, t: nat)
    requires Enabled(s, step) && t < |s.threads| && step.t != t
    ensures t < |Apply(s, step).threads| && Apply(s, step).threads[t] == s.threads[t]
  {}

  lemma {:induction false} DeniedWhenRefused(states: seq<State>, steps: seq<Step>, i: nat, k: nat, t: nat)
    requires IsRun(states, steps) && SameCall(states, steps, i, k, t)
    ensures t < |states[k].threads|
    ensures Denied(states[k].threads[t]) <==> RefusedIn(states, steps, i, k, t)
  {
    var s, step := states[k - 1], steps[k - 1];
    assert Enabled(s, step) && states[k] == Apply(s, step);
    if k > i + 1 {
      DeniedWhenRefused(states, steps, i, k - 1, t);
      AnyStep(s, step, t);
      RefusedNext(states, steps, i, k - 1, t);
    }
  }

  lemma AnyStep(s: State, step: Step, t: nat)
    requires Enabled(s, step) && t < |s.threads| && step != Begin(t)
    ensures t < |Apply(s, step).threads|
    ensures Denied(Apply(s, step).threads[t]) <==>
      Denied(s.threads[t]) || (step == Run(t, false) && (s.threads[t].Allocating? || s.threads[t].Making?))
  {
    if step.t == t {
      OwnStep(s, t, step.granted);
    } else {
      OthersWait(s, step, t);
    }
  }

  lemma RefusedNext(states: seq<State>, steps: seq<Step>, i: nat, k: nat, t: nat)
    requires i < k
    ensures RefusedIn(states, steps, i, k + 1, t) <==>
      RefusedIn(states, steps, i, k, t) || RefusedAt(states, steps, k, t)
  {}

  /** In every run a call returns without a producer exactly when one of its own steps asked for memory
      and was refused it. */
  lemma FailsOnlyWithoutMemory(states: seq<State>, steps: seq<Step>, i: nat, k: nat, t: nat)
    requires IsRun(states, steps) && SameCall(states, steps, i, k, t)
    ensures t < |states[k].threads|
    ensures states[k].threads[t].Returned? ==>
      (states[k].threads[t].result == None <==> RefusedIn(states, steps, i, k, t))
  {
    DeniedWhenRefused(states, steps, i, k, t);
  }

  /** A thread that has a producer is never refused one, whatever memory there is. */
  lemma HavingIsKeeping(states: seq<State>, steps: seq<Step>, i: nat, j: nat, k: nat, t: nat)
    requires IsRun(states, steps) && SameCall(states, steps, i, k, t) && j <= i && t < |states[j].threads|
    requires states[j].threads[t].Returned? && states[j].threads[t].result.Some?
    ensures !RefusedIn(states, steps, i, k, t)
  {
    forall m | i < m < k ensures !RefusedAt(states, steps, m, t) {
      if t < |states[m].threads| {
        HasProducer(states, steps, j, m, t);
      }
    }
  }

  lemma HasProducer(states: seq<State>, steps: seq<Step>, j: nat, m: nat, t: nat)
    requires IsRun(states, steps) && j <= m < |states| && t < |states[j].threads| && t < |states[m].threads|
    requires states[j].threads[t].Returned? && states[j].threads[t].result.Some?
    ensures !states[m].threads[t].Allocating? && !states[m].threads[t].Making?
  {
    RunKeepsInv(states, steps, j);
    var x: Notes :| Good(states[j], x);
    var x' := ProducersStay(states, steps, j, m, x);
    assert ThreadOk(states[j], x, t) && ThreadOk(states[m], x', t);
  }

  /** A larger table is asked for only when the thread's number fills half of the present one, and a
      producer only for a thread that is in no table. */
  lemma AsksOnlyWhenNeeded(s: State, t: nat)
    requires Inv(s) && t < |s.threads|
    ensures match s.threads[t]
      case Allocating(main, n) => main == s.current < |s.tables| && n >= Capacity(s.tables[main]) / 2 && !Member(s, t)
      case Making(_, _) => !Member(s, t)
      case _ => true
  {
    var x: Notes :| Good(s, x);
    assert ThreadOk(s, x, t);
  }

  /** A step takes the resize lock exactly when nobody has it and the thread's number fills half of the
      table the thread works on, and only its holder gives it back. */
  lemma LockedWhenHalfFull(s: State, step: Step)
    requires Inv(s) && Enabled(s, step)
    ensures var c := s.threads[step.t];
      && (!s.locked && Apply(s, step).locked <==>
            step.Run? && c.Deciding? && !s.locked && c.n >= Capacity(s.tables[c.main]) / 2)
      && (s.locked && !Apply(s, step).locked ==> step.Run? && c.HoldsLock())
  {}

  /* ---------- Later calls need not search older tables ---------- */

  /** The table the thread works on. */
  function MainOf(c: Thread): Option<nat> {
    match c
    case Searching(main, _, _) => Some(main)
    case Copying(main, _, _) => Some(main)
    case CopyingKey(main, _, _) => Some(main)
    case Counting(main) => Some(main)
    case Deciding(main, _) => Some(main)
    case Allocating(main, _) => Some(main)
    case Unlocking(main, _) => Some(main)
    case Checking(main, _) => Some(main)
    case Making(main, _) => Some(main)
    case Placing(main, _, _, _) => Some(main)
    case PlacingKey(main, _, _, _) => Some(main)
    case _ => None
  }

  /** The thread has seen to it that its key is in its table. */
  predicate HasKey(c: Thread) {
    c.CopyingValue? || c.PlacingValue? || (c.Returned? && c.result.Some?)
  }

  ghost predicate WorksFrom(s: State, t: nat, table: nat)
    requires t < |s.threads|
  {
    && (MainOf(s.threads[t]).Some? ==> MainOf(s.threads[t]).value >= table)
    && (HasKey(s.threads[t]) ==> KnownFrom(s, t, table))
  }

  ghost predicate KnownFrom(s: State, t: nat, table: nat) {
    exists i :: table <= i < |s.tables| && Present(s.tables[i], t)
  }

  ghost predicate TablesGrow(s: State, s': State) {
    && |s.tables| <= |s'.tables|
    && forall i, slot :: 0 <= i < |s.tables| && 0 <= slot < |s.tables[i].keys| && s.tables[i].keys[slot].Some? ==>
         slot < |s'.tables[i].keys| && s'.tables[i].keys[slot] == s.tables[i].keys[slot]
  }

  lemma StepGrowsTables(s: State, step: Step)
    requires Enabled(s, step)
    ensures TablesGrow(s, Apply(s, step)) && Apply(s, step).current >= s.current
  {}

  lemma KnownStays(s: State, s': State, t: nat, table: nat)
    requires TablesGrow(s, s') && KnownFrom(s, t, table)
    ensures KnownFrom(s', t, table)
  {
    var i :| table <= i < |s.tables| && Present(s.tables[i], t);
    var slot :| 0 <= slot < |s.tables[i].keys| && s.tables[i].keys[slot] == Some(t);
    assert s'.tables[i].keys[slot] == Some(t);
    assert Present(s'.tables[i], t);
  }

  lemma OwnStepMain(s: State, t: nat, granted: bool)
    requires Enabled(s, Run(t, granted))
    ensures var c, c' := s.threads[t], RunThread(s, t, granted).threads[t];
      MainOf(c').Some? ==> MainOf(c') == MainOf(c) || MainOf(c').value >= s.current
  {}

  lemma OwnStepKey(s: State, t: nat, granted: bool)
    requires Enabled(s, Run(t, granted)) && HasKey(RunThread(s, t, granted).threads[t]) && !HasKey(s.threads[t])
    ensures var c, s' := s.threads[t], RunThread(s, t, granted);
      MainOf(c).Some? && MainOf(c).value < |s'.tables| && Present(s'.tables[MainOf(c).value], t)
  {
    var c, s' := s.threads[t], RunThread(s, t, granted);
    var main := MainOf(c).value;
    assert s'.tables[main].keys[Slot(s.hashes[t], c.k, Capacity(s.tables[main]))] == Some(t);
  }

  lemma OwnStepWorksFrom(s: State, t: nat, granted: bool, table: nat)
    requires Enabled(s, Run(t, granted)) && WorksFrom(s, t, table) && table <= s.current
    ensures WorksFrom(RunThread(s, t, granted), t, table)
  {
    var s' := RunThread(s, t, granted);
    StepGrowsTables(s, Run(t, granted));
    OwnStepMain(s, t, granted);
    if HasKey(s'.threads[t]) {
      if HasKey(s.threads[t]) {
        KnownStays(s, s', t, table);
      } else {
        OwnStepKey(s, t, granted);
      }
    }
  }

  lemma {:induction false} CallWorksFrom(states: seq<State>, steps: seq<Step>, i: nat, k: nat, t: nat)
    requires IsRun(states, steps) && SameCall(states, steps, i, k, t)
    ensures t < |states[k].threads| && WorksFrom(states[k], t, states[i].current)
    ensures states[i].current <= states[k].current
  {
    var s, step := states[k - 1], steps[k - 1];
    assert Enabled(s, step) && states[k] == Apply(s, step);
    StepGrowsTables(s, step);
    if k > i + 1 {
      CallWorksFrom(states, steps, i, k - 1, t);
      AnyStepWorksFrom(s, step, t, states[i].current);
    }
  }

  lemma AnyStepWorksFrom(s: State, step: Step, t: nat, table: nat)
    requires Enabled(s, step) && t < |s.threads| && step != Begin(t)
    requires WorksFrom(s, t, table) && table <= s.current
    ensures t < |Apply(s, step).threads| && WorksFrom(Apply(s, step), t, table)
  {
    if step.t == t {
      OwnStepWorksFrom(s, t, step.granted, table);
    } else {
      OthersWait(s, step, t);
      StepGrowsTables(s, step);
      if KnownFrom(s, t, table) {
        KnownStays(s, Apply(s, step), t, table);
      }
    }
  }

  /** In every run a call that returns a producer leaves the thread's key in the table that was the newest
      when it began, or in a newer one, wherever it found it. */
  lemma FoundInNewest(states: seq<State>, steps: seq<Step>, i: nat, k: nat, t: nat)
    requires IsRun(states, steps) && SameCall(states, steps, i, k, t)
    ensures t < |states[k].threads|
    ensures states[k].threads[t].Returned? && states[k].threads[t].result.Some? ==>
      KnownFrom(states[k], t, states[i].current)
  {
    CallWorksFrom(states, steps, i, k, t);
  }

  /* ---------- A call that runs alone ---------- */

  /** The states after each of `count` steps of thread `t`, all granted. */
  ghost predicate Leads(s: State, t: nat, count: nat, s': State)
    decreases count
  {
    if count == 0 then s' == s
    else Enabled(s, Run(t, true)) && Leads(RunThread(s, t, true), t, count - 1, s')
  }

  /** A thread that nobody keeps from its goal: nobody else has the lock, and its number fits its table. */
  predicate Unhindered(s: State, t: nat)
    requires t < |s.threads|
  {
    match s.threads[t]
    case Idle => false
    case LoadingMain => !s.locked
    case Searching(_, _, _) => !s.locked
    case Counting(_) => !s.locked
    case Deciding(_, _) => !s.locked
    case Reloading(_) => true
    case Allocating(_, _) => true
    case Unlocking(main, n) => main < |s.tables| && n < Limit(s.tables[main])
    case Checking(main, n) => main < |s.tables| && n < Limit(s.tables[main])
    case c => !Denied(c)
  }

  /** How far the thread's stage is from its goal. */
  function Rank(c: Thread): nat {
    match c
    case LoadingMain => 14
    case Searching(_, _, _) => 13
    case Counting(_) => 12
    case Deciding(_, _) => 11
    case Reloading(_) => 10
    case Allocating(_, _) => 9
    case Unlocking(_, _) => 8
    case Checking(_, _) => 7
    case Making(_, _) => 6
    case Placing(_, _, _, _) => 5
    case PlacingKey(_, _, _, _) => 5
    case Copying(_, _, _) => 5
    case CopyingKey(_, _, _) => 5
    case PlacingValue(_, _, _) => 1
    case CopyingValue(_, _, _) => 1
    case _ => 0
  }

  /** Within a stage: the table searched, and the probes left there. */
  function TableAt(c: Thread): nat {
    if c.Searching? then c.at else 0
  }

  function Probes(s: State, c: Thread): int {
    match c
    case Searching(_, at, k) => if at < |s.tables| then Limit(s.tables[at]) - k else 0
    case Copying(main, _, k) => if main < |s.tables| then 2 * (Limit(s.tables[main]) - k) else 0
    case Placing(main, _, _, k) => if main < |s.tables| then 2 * (Limit(s.tables[main]) - k) else 0
    case CopyingKey(main, _, k) => if main < |s.tables| then 2 * (Limit(s.tables[main]) - k) - 1 else 0
    case PlacingKey(main, _, _, k) => if main < |s.tables| then 2 * (Limit(s.tables[main]) - k) - 1 else 0
    case _ => 0
  }

  function ProbesLeft(s: State, c: Thread): nat {
    if Probes(s, c) > 0 then Probes(s, c) else 0
  }

  /** Nearer to the goal: a later stage, an older table, or fewer probes left. */
  predicate Nearer(s: State, c: Thread, s': State, c': Thread) {
    || Rank(c') < Rank(c)
    || (Rank(c') == Rank(c) && TableAt(c') < TableAt(c))
    || (Rank(c') == Rank(c) && TableAt(c') == TableAt(c) && ProbesLeft(s', c') < ProbesLeft(s, c))
  }

  lemma RunningIsEnabled(s: State, x: Notes, t: nat, granted: bool)
    requires Good(s, x) && t < |s.threads| && !s.threads[t].Idle? && !s.threads[t].Returned?
    ensures Enabled(s, Run(t, granted))
  {
    assert ThreadOk(s, x, t);
    forall i | 0 <= i < |s.tables| ensures |s.tables[i].keys| == |s.tables[i].values| && |s.tables[i].keys| > 0 {
      assert TableOk(s, x, i);
    }
  }

  predicate Seeking(c: Thread) {
    c.Searching? || c.Copying? || c.CopyingKey? || c.Placing? || c.PlacingKey?
  }

  lemma SeekingStep(s: State, x: Notes, t: nat)
    requires Good(s, x) && Enabled(s, Run(t, true)) && Seeking(s.threads[t]) && Unhindered(s, t)
    requires 0 < Probes(s, s.threads[t])
    ensures var s' := RunThread(s, t, true);
      Unhindered(s', t) && Nearer(s, s.threads[t], s', s'.threads[t])
  {
    assert ThreadOk(s, x, t);
    if s.threads[t].Searching? {
      assert TableOk(s, x, s.threads[t].at);
      SearchingNearer(s, t);
    } else {
      InsertingNearer(s, t);
    }
  }

  lemma SearchingNearer(s: State, t: nat)
    requires Enabled(s, Run(t, true)) && s.threads[t].Searching? && Unhindered(s, t)
    requires var c := s.threads[t];
      c.k < Limit(s.tables[c.at]) && s.tables[c.at].prev == (if c.at == 0 then None else Some(c.at - 1))
    ensures var s' := RunThread(s, t, true);
      Unhindered(s', t) && Nearer(s, s.threads[t], s', s'.threads[t])
  {}

  lemma InsertingNearer(s: State, t: nat)
    requires Enabled(s, Run(t, true)) && Seeking(s.threads[t]) && !s.threads[t].Searching?
    requires s.threads[t].k < Limit(s.tables[s.threads[t].main])
    ensures var s' := RunThread(s, t, true);
      Unhindered(s', t) && Nearer(s, s.threads[t], s', s'.threads[t])
  {}

  lemma DecidingStep(s: State, x: Notes, t: nat)
    requires Good(s, x) && Enabled(s, Run(t, true)) && !Seeking(s.threads[t]) && Unhindered(s, t)
    ensures var s' := RunThread(s, t, true);
      Unhindered(s', t) && Rank(s'.threads[t]) < Rank(s.threads[t])
  {
    var c := s.threads[t];
    assert ThreadOk(s, x, t);
    if c.Allocating? {
      GrownEnough(2 * Capacity(s.tables[c.main]), c.n);
    }
  }

  lemma UnhinderedStep(s: State, t: nat)
    requires Inv(s) && t < |s.threads| && Unhindered(s, t) && !s.threads[t].Returned?
    ensures Enabled(s, Run(t, true))
    ensures var s' := RunThread(s, t, true);
      Inv(s') && |s'.threads| == |s.threads| && Unhindered(s', t) && Nearer(s, s.threads[t], s', s'.threads[t])
  {
    var x: Notes :| Good(s, x);
    RunningIsEnabled(s, x, t, true);
    StepKeepsInv(s, Run(t, true));
    if Seeking(s.threads[t]) {
      ProbesEnd(s, t);
      SeekingStep(s, x, t);
    } else {
      DecidingStep(s, x, t);
    }
  }

  lemma {:induction false} Proceeds(s: State, t: nat) returns (count: nat, s': State)
    requires Inv(s) && t < |s.threads| && Unhindered(s, t)
    ensures Leads(s, t, count, s') && t < |s'.threads| && s'.threads[t].Returned? && s'.threads[t].result.Some?
    decreases Rank(s.threads[t]), TableAt(s.threads[t]), ProbesLeft(s, s.threads[t])
  {
    if s.threads[t].Returned? {
      count, s' := 0, s;
    } else {
      UnhinderedStep(s, t);
      var next := RunThread(s, t, true);
      var rest;
      rest, s' := Proceeds(next, t);
      count := rest + 1;
    }
  }

  /** A call that runs alone from any state in which nobody has the resize lock, and is granted what
      memory it asks for, ends with a producer. */
  lemma SoloCall(s: State, t: nat) returns (count: nat, s': State)
    requires Inv(s) && Enabled(s, Begin(t)) && !s.locked
    ensures Leads(Apply(s, Begin(t)), t, count, s')
    ensures t < |s'.threads| && s'.threads[t].Returned? && s'.threads[t].result.Some?
  {
    StepKeepsInv(s, Begin(t));
    count, s' := Proceeds(Apply(s, Begin(t)), t);
  }
}
