/**
 The dequeue counters of one producer, shared by its single producing thread and any number of
 consuming threads. Every atomic load, store and fetch_add is one step; indices are unbounded here
 (module WrappedTickets relates them to 64-bit words).

 A dequeue takes `desired` tickets from `optimistic` against an earlier snapshot of `overcommit`,
 reloads the tail, and either claims indices from `head` or pays its tickets back to `overcommit`.
 A single-element dequeue is the case `max == 1`.
 */
module Tickets {
  import opened Basics
  import opened Words

  datatype Consumer =
    | Idle
    | TailLoaded(max: nat, tail: nat)
    | OvercommitLoaded(max: nat, tail: nat, overcommit: nat)
    | Hopeful(desired: nat, overcommit: nat)
    | Ticketed(desired: nat, overcommit: nat, ticket: nat)
    | Refunding(refund: nat, ticket: nat, actual: nat)
    | Winner(ticket: nat, actual: nat)
    | Loser(desired: nat, ticket: nat)
    | Claimed(first: nat, count: nat)
  {
    /** The tickets taken by this dequeue and not yet turned into claims or refunds. */
    function InFlight(): nat {
      match this
      case Ticketed(d, _, _) => d
      case Refunding(r, _, a) => r + a
      case Winner(_, a) => a
      case Loser(d, _) => d
      case _ => 0
    }

    function Low(): nat {
      match this
      case Ticketed(_, _, m) => m
      case Refunding(_, m, _) => m
      case Winner(m, _) => m
      case Loser(_, m) => m
      case _ => 0
    }

    function High(): nat {
      Low() + InFlight()
    }
  }

  /** The producing thread: `next` is the first block base not yet known to fit. */
  datatype Producer =
    | Resting
    | Reserving(count: nat, next: nat)
    | HeadLoaded(count: nat, next: nat, seen: nat)

  datatype State = State(
    tail: nat, head: nat, optimistic: nat, overcommit: nat,
    producer: Producer, consumers: seq<Consumer>)

  datatype Step =
    | BeginEnqueue(count: nat)
    | LoadHead
    | ReserveBlock(granted: bool)
    | Publish
    | LoadTail(t: nat, max: nat)
    | LoadOvercommit(t: nat)
    | LoadOptimistic(t: nat)
    | TakeTickets(t: nat)
    | ReloadTail(t: nat)
    | Refund(t: nat)
    | Claim(t: nat)
    | PayBack(t: nat)
    | Return(t: nat)

  /** `Traits::MAX_SUBQUEUE_SIZE` rounded up to whole blocks; values close to the top of the word
      mean "no limit" and stay the largest word. */
  function RoundedMax(max: Word): Word {
    if WORD - 1 - max < BLOCK_SIZE then WORD - 1 else (max + (BLOCK_SIZE - 1)) / BLOCK_SIZE * BLOCK_SIZE
  }

  /** No limit: the largest value, and those that whole blocks would take past it. */
  predicate Unlimited(max: Word) {
    max > WORD - 1 - BLOCK_SIZE
  }

  /** The limit is the least number of elements at or above `max` that makes whole blocks. */
  lemma RoundedMaxExact(max: Word)
    ensures RoundedMax(max) == WORD - 1 <==> Unlimited(max)
    ensures !Unlimited(max) ==>
      && max <= RoundedMax(max) < max + BLOCK_SIZE && RoundedMax(max) % BLOCK_SIZE == 0
      && RoundedMax(max) == BlocksFor(max) * BLOCK_SIZE
      && forall size: nat :: size % BLOCK_SIZE == 0 && size >= max ==> size >= RoundedMax(max)
  {}

  /** The elements from the head to the end of a block at `base` stay below half the words, and need no
      more blocks than the limit does. */
  predicate HasRoom(max: Word, head: nat, base: nat)
    requires head <= base
  {
    base + BLOCK_SIZE - head < HALF && (Unlimited(max) || BlocksFor(base + BLOCK_SIZE - head) <= BlocksFor(max))
  }

  lemma FullExact(max: Word, seen: nat, base: nat)
    requires seen <= base
    ensures Full(max, seen, base) <==> !HasRoom(max, seen, base)
  {
    RoundedMaxExact(max);
  }

  /** The test made before each new block: is there no room for a block at `base`? */
  predicate Full(max: Word, seen: nat, base: nat) {
    || !(seen < base + BLOCK_SIZE < seen + HALF)
    || (RoundedMax(max) != WORD - 1 && (RoundedMax(max) == 0 || RoundedMax(max) - BLOCK_SIZE < base - seen))
  }

  /** The first block base at or after `index`. */
  function NextBase(index: nat): nat {
    BlocksFor(index) * BLOCK_SIZE
  }

  predicate Init(s: State) {
    && s.tail == s.head == s.optimistic == s.overcommit == 0
    && s.producer == Resting
    && forall t :: 0 <= t < |s.consumers| ==> s.consumers[t] == Idle
  }

  predicate Enabled(s: State, step: Step) {
    match step
    case BeginEnqueue(count) => s.producer.Resting? && count > 0
    case LoadHead => s.producer.Reserving? && s.producer.next < s.tail + s.producer.count
    case ReserveBlock(_) => s.producer.HeadLoaded?
    case Publish => s.producer.Reserving? && s.producer.next >= s.tail + s.producer.count
    case LoadTail(t, max) => t < |s.consumers| && s.consumers[t].Idle? && max > 0
    case LoadOvercommit(t) => t < |s.consumers| && s.consumers[t].TailLoaded?
    case LoadOptimistic(t) => t < |s.consumers| && s.consumers[t].OvercommitLoaded?
    case TakeTickets(t) => t < |s.consumers| && s.consumers[t].Hopeful?
    case ReloadTail(t) => t < |s.consumers| && s.consumers[t].Ticketed?
    case Refund(t) => t < |s.consumers| && s.consumers[t].Refunding?
    case Claim(t) => t < |s.consumers| && s.consumers[t].Winner?
    case PayBack(t) => t < |s.consumers| && s.consumers[t].Loser?
    case Return(t) => t < |s.consumers| && s.consumers[t].Claimed?
  }

  function SetConsumer(s: State, t: nat, c: Consumer): State
    requires t < |s.consumers|
  {
    s.(consumers := s.consumers[t := c])
  }

  /** What the loaded optimistic count decides: try for some tickets, or give up. */
  function AfterCheck(c: Consumer, optimistic: nat): Consumer
    requires c.OvercommitLoaded?
  {
    var available := c.tail - (optimistic - c.overcommit);
    if 0 < available then Hopeful(Min(available, c.max), c.overcommit) else Idle
  }

  /** What the reloaded tail decides about the tickets taken. */
  function AfterReload(c: Consumer, tail: nat): Consumer
    requires c.Ticketed?
  {
    var available := tail - (c.ticket - c.overcommit);
    if 0 < available then
      var actual := Min(c.desired, available);
      if actual < c.desired then Refunding(c.desired - actual, c.ticket, actual) else Winner(c.ticket, actual)
    else
      Loser(c.desired, c.ticket)
  }

  function Apply(max: Word, s: State, step: Step): State
    requires Enabled(s, step)
  {
    match step
    case BeginEnqueue(count) => s.(producer := Reserving(count, NextBase(s.tail)))
    case LoadHead => s.(producer := HeadLoaded(s.producer.count, s.producer.next, s.head))
    case ReserveBlock(granted) =>
      var p := s.producer;
      s.(producer :=
        if Full(max, p.seen, p.next) || !granted then Resting else Reserving(p.count, p.next + BLOCK_SIZE))
    case Publish => s.(tail := s.tail + s.producer.count, producer := Resting)
    case LoadTail(t, m) => SetConsumer(s, t, TailLoaded(m, s.tail))
    case LoadOvercommit(t) =>
      var c := s.consumers[t];
      SetConsumer(s, t, OvercommitLoaded(c.max, c.tail, s.overcommit))
    case LoadOptimistic(t) => SetConsumer(s, t, AfterCheck(s.consumers[t], s.optimistic))
    case TakeTickets(t) =>
      var c := s.consumers[t];
      SetConsumer(s.(optimistic := s.optimistic + c.desired), t, Ticketed(c.desired, c.overcommit, s.optimistic))
    case ReloadTail(t) => SetConsumer(s, t, AfterReload(s.consumers[t], s.tail))
    case Refund(t) =>
      var c := s.consumers[t];
      SetConsumer(s.(overcommit := s.overcommit + c.refund), t, Winner(c.ticket, c.actual))
    case Claim(t) =>
      var c := s.consumers[t];
      SetConsumer(s.(head := s.head + c.actual), t, Claimed(s.head, c.actual))
    case PayBack(t) => SetConsumer(s.(overcommit := s.overcommit + s.consumers[t].desired), t, Idle)
    case Return(t) => SetConsumer(s, t, Idle)
  }

  /** `states` is the run from an initial state that performs `steps` in order. */
  ghost predicate IsRun(max: Word, states: seq<State>, steps: seq<Step>) {
    && |states| == |steps| + 1
    && Init(states[0])
    && forall i :: 0 <= i < |steps| ==> Enabled(states[i], steps[i]) && states[i + 1] == Apply(max, states[i], steps[i])
  }

  /* ---------- The log of tickets ---------- */

  /** The fate of each ticket ever taken. */
  datatype Fate = Pending | Won | Spent | Lost | Repaid

  function Count(log: seq<Fate>, k: nat, f: Fate): nat
    requires k <= |log|
  {
    if k == 0 then 0 else Count(log, k - 1, f) + (if log[k - 1] == f then 1 else 0)
  }

  function Paint(log: seq<Fate>, low: nat, high: nat, f: Fate): (r: seq<Fate>)
    requires low <= high <= |log|
    ensures |r| == |log|
    ensures forall k :: 0 <= k < |log| ==> r[k] == if low <= k < high then f else log[k]
  {
    log[..low] + seq(high - low, _ => f) + log[high..]
  }

  ghost predicate AllAre(log: seq<Fate>, low: nat, high: nat, f: Fate) {
    low <= high <= |log| && forall k :: low <= k < high ==> log[k] == f
  }

  function Overlap(k: nat, low: nat, high: nat): nat
    requires low <= high
  {
    if k <= low then 0 else if k <= high then k - low else high - low
  }

  lemma CountPaint(log: seq<Fate>, low: nat, high: nat, was: Fate, f: Fate, k: nat, g: Fate)
    requires AllAre(log, low, high, was) && was != f && k <= |log|
    ensures Count(Paint(log, low, high, f), k, g)
         == Count(log, k, g) + (if g == f then Overlap(k, low, high) else 0)
            - (if g == was then Overlap(k, low, high) else 0)
  {
    CountPainted(log, Paint(log, low, high, f), low, high, was, f, k, g);
  }

  lemma {:induction false} CountPainted(
      log: seq<Fate>, painted: seq<Fate>, low: nat, high: nat, was: Fate, f: Fate, k: nat, g: Fate)
    requires AllAre(log, low, high, was) && was != f && k <= |log| == |painted|
    requires forall j :: 0 <= j < |log| ==> painted[j] == if low <= j < high then f else log[j]
    ensures Count(painted, k, g)
         == Count(log, k, g) + (if g == f then Overlap(k, low, high) else 0)
            - (if g == was then Overlap(k, low, high) else 0)
  {
    if k > 0 {
      CountPainted(log, painted, low, high, was, f, k - 1, g);
      assert Overlap(k, low, high) == Overlap(k - 1, low, high) + One(low < k <= high);
    }
  }

  lemma {:induction false} CountPrefix(log: seq<Fate>, longer: seq<Fate>, k: nat, f: Fate)
    requires k <= |log| <= |longer| && longer[..|log|] == log
    ensures Count(longer, k, f) == Count(log, k, f)
  {
    if k > 0 {
      assert longer[k - 1] == longer[..|log|][k - 1];
      CountPrefix(log, longer, k - 1, f);
    }
  }

  lemma {:induction false} CountRange(log: seq<Fate>, low: nat, high: nat, k: nat, f: Fate)
    requires AllAre(log, low, high, f) && low <= k <= |log|
    ensures Count(log, k, f) >= Count(log, low, f) + Overlap(k, low, high)
  {
    if k > low {
      CountRange(log, low, high, k - 1, f);
    }
  }

  lemma {:induction false} CountNone(log: seq<Fate>, low: nat, high: nat, f: Fate)
    requires low <= high <= |log|
    requires forall k :: low <= k < high ==> log[k] != f
    ensures Count(log, high, f) == Count(log, low, f)
  {
    if high > low {
      CountNone(log, low, high - 1, f);
    }
  }

  lemma {:induction false} CountsDisjoint(log: seq<Fate>, k: nat)
    requires k <= |log|
    ensures Count(log, k, Won) + Count(log, k, Spent) + Count(log, k, Repaid) <= k
  {
    if k > 0 {
      CountsDisjoint(log, k - 1);
    }
  }

  /** A ticket that won was, and stays, below the tail once the refunds before it are discounted. */
  ghost predicate Covered(log: seq<Fate>, k: nat, tail: nat) {
    k < |log| && (log[k] == Won || log[k] == Spent) ==> k + 1 - Count(log, k + 1, Repaid) <= tail
  }

  /** The counting argument: the last successful ticket bounds the number of successes. */
  lemma {:induction false} SuccessesBelowTail(log: seq<Fate>, k: nat, tail: nat)
    requires k <= |log| && forall j :: 0 <= j < k ==> Covered(log, j, tail)
    ensures Count(log, k, Won) + Count(log, k, Spent) <= tail
  {
    if k > 0 {
      SuccessesBelowTail(log, k - 1, tail);
      if log[k - 1] == Won || log[k - 1] == Spent {
        assert Covered(log, k - 1, tail);
        CountsDisjoint(log, k);
      }
    }
  }

  /* ---------- The invariant ---------- */

  function TotalInFlight(consumers: seq<Consumer>): nat {
    if |consumers| == 0 then 0
    else TotalInFlight(consumers[..|consumers| - 1]) + consumers[|consumers| - 1].InFlight()
  }

  lemma {:induction false} TotalInFlightUpdate(consumers: seq<Consumer>, t: nat, c: Consumer)
    requires t < |consumers|
    ensures TotalInFlight(consumers[t := c]) == TotalInFlight(consumers) - consumers[t].InFlight() + c.InFlight()
  {
    var last := |consumers| - 1;
    if t == last {
      assert consumers[t := c][..last] == consumers[..last];
    } else {
      assert consumers[t := c][..last] == consumers[..last][t := c];
      TotalInFlightUpdate(consumers[..last], t, c);
    }
  }

  ghost predicate ConsumerOk(s: State, log: seq<Fate>, c: Consumer) {
    match c
    case Idle => true
    case TailLoaded(m, tail) => m > 0 && tail <= s.tail
    case OvercommitLoaded(m, tail, o) => m > 0 && tail <= s.tail && o <= s.overcommit
    case Hopeful(d, o) => d > 0 && o <= s.overcommit
    case Ticketed(d, o, m) => d > 0 && AllAre(log, m, m + d, Pending) && o <= Count(log, m, Repaid)
    case Refunding(r, m, a) => r > 0 && a > 0 && AllAre(log, m, m + a, Won) && AllAre(log, m + a, m + a + r, Lost)
    case Winner(m, a) => a > 0 && AllAre(log, m, m + a, Won)
    case Loser(d, m) => d > 0 && AllAre(log, m, m + d, Lost)
    case Claimed(first, n) => n > 0 && first + n <= s.head
  }

  ghost predicate Apart(c: Consumer, d: Consumer) {
    c.InFlight() == 0 || d.InFlight() == 0 || c.High() <= d.Low() || d.High() <= c.Low()
  }

  ghost predicate LogOk(s: State, log: seq<Fate>) {
    && |log| == s.optimistic
    && Count(log, |log|, Spent) == s.head
    && Count(log, |log|, Repaid) == s.overcommit
    && (forall t :: 0 <= t < |s.consumers| ==> ConsumerOk(s, log, s.consumers[t]))
    && (forall t, u :: 0 <= t < u < |s.consumers| ==> Apart(s.consumers[t], s.consumers[u]))
    && (forall k :: 0 <= k < |log| ==> Covered(log, k, s.tail))
  }

  /** What the fullness checks made so far guarantee: everything up to `limit` fits. */
  ghost predicate Fits(max: Word, head: nat, limit: nat) {
    && limit - head < HALF
    && (RoundedMax(max) != WORD - 1 ==> limit - head <= RoundedMax(max))
  }

  ghost predicate ProducerOk(max: Word, s: State) {
    && Fits(max, s.head, NextBase(s.tail))
    && match s.producer
       case Resting => true
       case Reserving(n, next) => n > 0 && NextBase(s.tail) <= next && next % BLOCK_SIZE == 0 && Fits(max, s.head, next)
       case HeadLoaded(n, next, seen) =>
         n > 0 && NextBase(s.tail) <= next && next % BLOCK_SIZE == 0 && Fits(max, s.head, next) && seen <= s.head
           && Fits(max, seen, next)
  }

  ghost predicate Inv(max: Word, s: State) {
    && s.optimistic == s.head + s.overcommit + TotalInFlight(s.consumers)
    && ProducerOk(max, s)
    && exists log :: LogOk(s, log)
  }
}
