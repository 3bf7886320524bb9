/**
 The hash from thread ids to implicit producers: a chain of linear-probing tables. A thread looks
 for its id in the newest table it knows and in all older ones, copies a late find forward, and
 otherwise takes a number from the shared count, resizes if the table is half full, and inserts
 itself while its number is below three quarters of the capacity. Keys are never removed.

 Every atomic operation of every thread is one step. A thread's id is its index.
 */
module ProducerHash {
  import opened Basics

  /** The size of the first table, `INITIAL_IMPLICIT_PRODUCER_HASH_SIZE`. */
  const INITIAL_SIZE: nat := 32

  datatype Table = Table(keys: seq<Option<nat>>, values: seq<nat>, prev: Option<nat>)

  function Capacity(tb: Table): nat {
    |tb.keys|
  }

  /** The insertion limit: half plus a quarter of the capacity. */
  function Limit(tb: Table): nat {
    Capacity(tb) / 2 + Capacity(tb) / 4
  }

  datatype Thread =
    | Idle
    | LoadingMain
    | Searching(main: nat, at: nat, k: nat)
    | Copying(main: nat, value: nat, k: nat)
    | CopyingKey(main: nat, value: nat, k: nat)
    | CopyingValue(main: nat, value: nat, slot: nat)
    | Counting(main: nat)
    | Deciding(main: nat, n: int)
    | Reloading(n: int)
    | Allocating(main: nat, n: int)
    | GivingUp(n: int)
    | Unlocking(main: nat, n: int)
    | UnlockingEmpty
    | Checking(main: nat, n: int)
    | Making(main: nat, n: int)
    | Unmaking(n: int)
    | Placing(main: nat, n: int, value: nat, k: nat)
    | PlacingKey(main: nat, n: int, value: nat, k: nat)
    | PlacingValue(main: nat, value: nat, slot: nat)
    | Returned(result: Option<nat>)
  {
    /** Holds a number from the shared count and has not yet inserted its key. */
    predicate Numbered() {
      Deciding? || Reloading? || Allocating? || GivingUp? || Unlocking? || Checking? || Making? || Unmaking?
      || Placing? || PlacingKey?
    }

    predicate HoldsLock() {
      Reloading? || Allocating? || GivingUp? || Unlocking? || UnlockingEmpty?
    }
  }

  /** `hashes[t]` is the hashed id of thread `t`, fixed but arbitrary. `made` counts producers. */
  datatype State = State(
    tables: seq<Table>, current: nat, count: int, locked: bool, made: nat,
    hashes: seq<nat>, threads: seq<Thread>)

  /** `granted` is the outcome of the allocation a step may attempt. */
  datatype Step = Begin(t: nat) | Run(t: nat, granted: bool)

  /** A new table; what its values hold before they are first stored does not matter. */
  function EmptyTable(capacity: nat, prev: Option<nat>): Table {
    Table(seq(capacity, _ => None), seq(capacity, _ => 0), prev)
  }

  predicate InitState(s: State) {
    && s.tables == [EmptyTable(INITIAL_SIZE, None)] && s.current == 0
    && s.count == 0 && !s.locked && s.made == 0 && |s.hashes| == |s.threads|
    && forall t :: 0 <= t < |s.threads| ==> s.threads[t] == Idle
  }

  /** The slot of probe number `k`. */
  function Slot(hash: nat, k: nat, capacity: nat): nat
    requires capacity > 0
  {
    (hash + k) % capacity
  }

  /** Doubles the capacity until the count is below half of it. */
  function Grown(capacity: nat, n: int): nat
    requires capacity > 0
    decreases 2 * n + 2 - capacity
  {
    if n < capacity / 2 then capacity else Grown(2 * capacity, n)
  }

  predicate Enabled(s: State, step: Step) {
    && step.t < |s.threads| == |s.hashes|
    && s.current < |s.tables|
    && (forall i :: 0 <= i < |s.tables| ==> |s.tables[i].keys| == |s.tables[i].values| && |s.tables[i].keys| > 0)
    && match step
       case Begin(t) => s.threads[t].Idle? || s.threads[t].Returned?
       case Run(t, _) =>
         match s.threads[t]
         case Idle => false
         case Returned(_) => false
         case Searching(main, at, _) => main < |s.tables| && at < |s.tables|
         case CopyingValue(main, _, slot) => main < |s.tables| && slot < Capacity(s.tables[main])
         case PlacingValue(main, _, slot) => main < |s.tables| && slot < Capacity(s.tables[main])
         case Copying(main, _, _) => main < |s.tables|
         case CopyingKey(main, _, _) => main < |s.tables|
         case Deciding(main, _) => main < |s.tables|
         case Allocating(main, _) => main < |s.tables|
         case Checking(main, _) => main < |s.tables|
         case Placing(main, _, _, _) => main < |s.tables|
         case PlacingKey(main, _, _, _) => main < |s.tables|
         case _ => true
  }

  function SetKey(s: State, table: nat, slot: nat, t: nat): seq<Table>
    requires table < |s.tables| && slot < |s.tables[table].keys|
  {
    s.tables[table := s.tables[table].(keys := s.tables[table].keys[slot := Some(t)])]
  }

  function SetValue(s: State, table: nat, slot: nat, value: nat): seq<Table>
    requires table < |s.tables| && slot < |s.tables[table].values|
  {
    s.tables[table := s.tables[table].(values := s.tables[table].values[slot := value])]
  }

  /** What a searching thread does with the slot it probes. */
  function Probe(s: State, t: nat): Thread
    requires Enabled(s, Run(t, true)) && s.threads[t].Searching?
  {
    var c := s.threads[t];
    var tb := s.tables[c.at];
    var slot := Slot(s.hashes[t], c.k, Capacity(tb));
    if tb.keys[slot] == Some(t) then
      if c.at != c.main then Copying(c.main, tb.values[slot], 0) else Returned(Some(tb.values[slot]))
    else if tb.keys[slot] == None then
      if tb.prev == None then Counting(c.main) else Searching(c.main, tb.prev.value, 0)
    else Searching(c.main, c.at, c.k + 1)
  }

  function RunThread(s: State, t: nat, granted: bool): State
    requires Enabled(s, Run(t, granted))
  {
    var go := (c: Thread) => s.threads[t := c];
    match s.threads[t]
    case LoadingMain => s.(threads := go(Searching(s.current, s.current, 0)))
    case Searching(_, _, _) => s.(threads := go(Probe(s, t)))
    case Copying(main, v, k) =>
      var slot := Slot(s.hashes[t], k, Capacity(s.tables[main]));
      s.(threads := go(if s.tables[main].keys[slot] == None then CopyingKey(main, v, k) else Copying(main, v, k + 1)))
    case CopyingKey(main, v, k) =>
      var slot := Slot(s.hashes[t], k, Capacity(s.tables[main]));
      if s.tables[main].keys[slot] == None then
        s.(tables := SetKey(s, main, slot, t), threads := go(CopyingValue(main, v, slot)))
      else
        s.(threads := go(Copying(main, v, k + 1)))
    case CopyingValue(main, v, slot) =>
      s.(tables := SetValue(s, main, slot, v), threads := go(Returned(Some(v))))
    case Counting(main) => s.(count := s.count + 1, threads := go(Deciding(main, s.count + 1)))
    case Deciding(main, n) =>
      if n >= Capacity(s.tables[main]) / 2 && !s.locked then s.(locked := true, threads := go(Reloading(n)))
      else s.(threads := go(Checking(main, n)))
    case Reloading(n) =>
      s.(threads := go(
        if n >= Capacity(s.tables[s.current]) / 2 then Allocating(s.current, n) else Unlocking(s.current, n)))
    case Allocating(main, n) =>
      if granted then
        var table := EmptyTable(Grown(2 * Capacity(s.tables[main]), n), Some(main));
        s.(tables := s.tables + [table], current := |s.tables|, threads := go(Unlocking(|s.tables|, n)))
      else
        s.(threads := go(GivingUp(n)))
    case GivingUp(n) => s.(count := s.count - 1, threads := go(UnlockingEmpty))
    case UnlockingEmpty => s.(locked := false, threads := go(Returned(None)))
    case Unlocking(main, n) => s.(locked := false, threads := go(Checking(main, n)))
    case Checking(main, n) =>
      s.(threads := go(if n < Limit(s.tables[main]) then Making(main, n) else Deciding(s.current, n)))
    case Making(main, n) =>
      if granted then s.(made := s.made + 1, threads := go(Placing(main, n, s.made, 0)))
      else s.(threads := go(Unmaking(n)))
    case Unmaking(n) => s.(count := s.count - 1, threads := go(Returned(None)))
    case Placing(main, n, v, k) =>
      var slot := Slot(s.hashes[t], k, Capacity(s.tables[main]));
      s.(threads := go(if s.tables[main].keys[slot] == None then PlacingKey(main, n, v, k)
        else Placing(main, n, v, k + 1)))
    case PlacingKey(main, n, v, k) =>
      var slot := Slot(s.hashes[t], k, Capacity(s.tables[main]));
      if s.tables[main].keys[slot] == None then
        s.(tables := SetKey(s, main, slot, t), threads := go(PlacingValue(main, v, slot)))
      else
        s.(threads := go(Placing(main, n, v, k + 1)))
    case PlacingValue(main, v, slot) =>
      s.(tables := SetValue(s, main, slot, v), threads := go(Returned(Some(v))))
  }

  function Apply(s: State, step: Step): State
    requires Enabled(s, step)
  {
    match step
    case Begin(t) => s.(threads := s.threads[t := LoadingMain])
    case Run(t, granted) => RunThread(s, t, granted)
  }

  /* ---------- The invariant ---------- */

  ghost predicate Present(tb: Table, t: nat) {
    exists i :: 0 <= i < |tb.keys| && tb.keys[i] == Some(t)
  }

  ghost predicate Member(s: State, t: nat) {
    exists i :: 0 <= i < |s.tables| && Present(s.tables[i], t)
  }

  /** The first `k` slots on thread `t`'s probe path are taken, none of them by `t`. */
  ghost predicate PathTaken(tb: Table, hash: nat, k: nat, t: nat)
    requires Capacity(tb) > 0
  {
    forall j :: 0 <= j < k ==>
      tb.keys[Slot(hash, j, Capacity(tb))] != None && tb.keys[Slot(hash, j, Capacity(tb))] != Some(t)
  }

  /** Slot `i` is where probing for `t` ends: every slot on the way there is taken. */
  ghost predicate OnPath(tb: Table, hash: nat, i: nat, t: nat)
    requires Capacity(tb) > 0
  {
    exists k :: 0 <= k && Slot(hash, k, Capacity(tb)) == i && PathTaken(tb, hash, k, t)
  }

  /** Auxiliary facts: the threads holding a number, in the order they took it; the number each
      thread took last; the producer each thread made. */
  datatype Notes = Notes(order: seq<nat>, number: seq<int>, producer: seq<Option<nat>>)

  ghost predicate Unset(s: State, i: nat, slot: nat, t: nat) {
    && t < |s.threads|
    && ((s.threads[t].CopyingValue? && s.threads[t].main == i && s.threads[t].slot == slot)
     || (s.threads[t].PlacingValue? && s.threads[t].main == i && s.threads[t].slot == slot))
  }

  ghost predicate SlotOk(s: State, x: Notes, i: nat, slot: nat)
    requires i < |s.tables| && slot < |s.tables[i].keys| == |s.tables[i].values|
    requires |s.hashes| == |s.threads| == |x.number| == |x.producer|
  {
    var tb := s.tables[i];
    tb.keys[slot] == None ||
    (var t := tb.keys[slot].value;
     && t < |s.threads| && x.number[t] < Limit(tb) && OnPath(tb, s.hashes[t], slot, t)
     && x.producer[t].Some?
     && (tb.values[slot] == x.producer[t].value || Unset(s, i, slot, t)))
  }

  ghost predicate TableOk(s: State, x: Notes, i: nat)
    requires i < |s.tables| && |s.hashes| == |s.threads| == |x.number| == |x.producer|
  {
    var tb := s.tables[i];
    && Capacity(tb) % 4 == 0 && Capacity(tb) > 0 && |tb.values| == |tb.keys|
    && tb.prev == (if i == 0 then None else Some(i - 1))
    && (i > 0 ==> Capacity(s.tables[i - 1]) < Capacity(tb))
    && (forall slot :: 0 <= slot < |tb.keys| ==> SlotOk(s, x, i, slot))
    && (forall a, b :: 0 <= a < b < |tb.keys| && tb.keys[a].Some? ==> tb.keys[a] != tb.keys[b])
  }

  ghost predicate OrderOk(s: State, x: Notes)
    requires |s.threads| == |x.number|
  {
    && Distinct(x.order) && |x.order| == s.count
    && (forall p :: 0 <= p < |x.order| ==> x.order[p] < |s.threads| && p + 1 <= x.number[x.order[p]])
    && (forall t :: 0 <= t < |s.threads| ==> (t in x.order <==> s.threads[t].Numbered() || Member(s, t)))
  }

  ghost predicate AbsentAbove(s: State, t: nat, at: nat) {
    forall i :: at < i < |s.tables| ==> !Present(s.tables[i], t)
  }

  ghost predicate PresentBelow(s: State, t: nat, main: nat) {
    exists i :: 0 <= i < main && i < |s.tables| && Present(s.tables[i], t)
  }

  ghost predicate Sized(s: State, x: Notes) {
    && |s.hashes| == |s.threads| == |x.number| == |x.producer|
    && forall i :: 0 <= i < |s.tables| ==> Capacity(s.tables[i]) > 0
  }

  ghost predicate PathOk(s: State, main: nat, k: nat, t: nat)
    requires t < |s.hashes| && forall i :: 0 <= i < |s.tables| ==> Capacity(s.tables[i]) > 0
  {
    main < |s.tables| && !Present(s.tables[main], t) && PathTaken(s.tables[main], s.hashes[t], k, t)
  }

  ghost predicate KeyAt(s: State, main: nat, slot: nat, t: nat) {
    main < |s.tables| && slot < |s.tables[main].keys| && s.tables[main].keys[slot] == Some(t)
  }

  ghost predicate ThreadOk(s: State, x: Notes, t: nat)
    requires t < |s.threads| && Sized(s, x)
  {
    var c := s.threads[t];
    && (c.Placing? || c.PlacingKey? || (x.producer[t].Some? <==> Member(s, t)))
    && (c.Counting? || c.Numbered() ==> !Member(s, t))
    && (c.Numbered() ==> x.number[t] == c.n)
    && match c
       case Searching(main, at, k) =>
         at <= main < |s.tables| && AbsentAbove(s, t, at) && PathTaken(s.tables[at], s.hashes[t], k, t)
       case Copying(main, v, k) => x.producer[t] == Some(v) && PathOk(s, main, k, t) && PresentBelow(s, t, main)
       case CopyingKey(main, v, k) => x.producer[t] == Some(v) && PathOk(s, main, k, t) && PresentBelow(s, t, main)
       case CopyingValue(main, v, slot) => x.producer[t] == Some(v) && KeyAt(s, main, slot, t)
       case Counting(main) => main < |s.tables|
       case Deciding(main, _) => main < |s.tables|
       case Allocating(main, n) => main == |s.tables| - 1 && n >= Capacity(s.tables[main]) / 2
       case Unlocking(main, _) => main < |s.tables|
       case Checking(main, _) => main < |s.tables|
       case Making(main, n) => main < |s.tables| && n < Limit(s.tables[main])
       case Placing(main, n, v, k) => x.producer[t] == Some(v) && PathOk(s, main, k, t) && n < Limit(s.tables[main])
       case PlacingKey(main, n, v, k) => x.producer[t] == Some(v) && PathOk(s, main, k, t) && n < Limit(s.tables[main])
       case PlacingValue(main, v, slot) => x.producer[t] == Some(v) && KeyAt(s, main, slot, t)
       case UnlockingEmpty => !Member(s, t)
       case Returned(Some(v)) => x.producer[t] == Some(v)
       case Returned(None) => !Member(s, t)
       case _ => true
  }

  ghost predicate LockOk(s: State) {
    && (forall t :: 0 <= t < |s.threads| && s.threads[t].HoldsLock() ==> s.locked)
    && (forall t, u :: 0 <= t < u < |s.threads| && s.threads[t].HoldsLock() ==> !s.threads[u].HoldsLock())
  }

  ghost predicate ProducersOk(s: State, x: Notes) {
    && (forall t :: 0 <= t < |x.producer| && x.producer[t].Some? ==> x.producer[t].value < s.made)
    && (forall t, u :: 0 <= t < u < |x.producer| && x.producer[t].Some? ==> x.producer[t] != x.producer[u])
  }

  ghost predicate Good(s: State, x: Notes) {
    && Sized(s, x)
    && |s.tables| > 0 && s.current == |s.tables| - 1
    && Capacity(s.tables[0]) == INITIAL_SIZE
    && (forall i :: 0 <= i < |s.tables| ==> TableOk(s, x, i))
    && OrderOk(s, x) && LockOk(s) && ProducersOk(s, x)
    && (forall t :: 0 <= t < |s.threads| ==> ThreadOk(s, x, t))
  }

  ghost predicate Inv(s: State) {
    exists x :: Good(s, x)
  }

  /** A producer once made for a thread stays that thread's producer. */
  ghost predicate KeepsProducers(x: Notes, x': Notes) {
    && |x'.producer| == |x.producer|
    && forall t :: 0 <= t < |x.producer| && x.producer[t].Some? ==> x'.producer[t] == x.producer[t]
  }
}
