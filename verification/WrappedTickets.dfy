/**
 The dequeue counters as the code computes them: 64-bit words that wrap, compared circularly.
 The word machine and the unbounded machine of module Tickets take the same steps to matching
 states as long as no thread sits on a loaded value while the counters run half a turn past it.
 */
module WrappedTickets {
  import opened Basics
  import opened Words
  import opened Tickets
  import opened TicketRuns

  /** The producer's view: `remaining` is the code's blockBaseDiff. */
  datatype WordProducer =
    | AtRest
    | Securing(count: Word, next: Word, remaining: Word)
    | HeadSeen(count: Word, next: Word, remaining: Word, seen: Word)

  datatype WordState = WordState(
    tail: Word, head: Word, optimistic: Word, overcommit: Word,
    producer: WordProducer, consumers: seq<Consumer>)

  /** The wrapped form of the fullness check made before each new block. */
  predicate WordFull(max: Word, seen: Word, base: Word) {
    || !CircularLess(seen, Wrap(base + BLOCK_SIZE))
    || (RoundedMax(max) != WORD - 1 && (RoundedMax(max) == 0 || RoundedMax(max) - BLOCK_SIZE < Wrap(base - seen)))
  }

  predicate WordEnabled(s: WordState, step: Step) {
    match step
    case BeginEnqueue(count) => s.producer.AtRest? && 0 < count < WORD
    case LoadHead => s.producer.Securing? && s.producer.remaining > 0
    case ReserveBlock(_) => s.producer.HeadSeen?
    case Publish => s.producer.Securing? && s.producer.remaining == 0
    case LoadTail(t, max) => t < |s.consumers| && s.consumers[t].Idle? && 0 < max < WORD
    case LoadOvercommit(t) => t < |s.consumers| && s.consumers[t].TailLoaded?
    case LoadOptimistic(t) => t < |s.consumers| && s.consumers[t].OvercommitLoaded?
    case TakeTickets(t) => t < |s.consumers| && s.consumers[t].Hopeful?
    case ReloadTail(t) => t < |s.consumers| && s.consumers[t].Ticketed?
    case Refund(t) => t < |s.consumers| && s.consumers[t].Refunding?
    case Claim(t) => t < |s.consumers| && s.consumers[t].Winner?
    case PayBack(t) => t < |s.consumers| && s.consumers[t].Loser?
    case Return(t) => t < |s.consumers| && s.consumers[t].Claimed?
  }

  /** The bulk form of the check: is the wrapped difference circularly positive? */
  function WordAfterCheck(c: Consumer, optimistic: Word): Consumer
    requires c.OvercommitLoaded?
  {
    var available := Wrap(c.tail - (optimistic - c.overcommit));
    if CircularLess(0, available) then Hopeful(Min(available, c.max), c.overcommit) else Idle
  }

  function WordAfterReload(c: Consumer, tail: Word): Consumer
    requires c.Ticketed?
  {
    var available := Wrap(tail - (c.ticket - c.overcommit));
    if CircularLess(0, available) then
      var actual := Min(c.desired, available);
      if actual < c.desired then Refunding(c.desired - actual, c.ticket, actual) else Winner(c.ticket, actual)
    else
      Loser(c.desired, c.ticket)
  }

  function WithConsumer(s: WordState, t: nat, c: Consumer): WordState
    requires t < |s.consumers|
  {
    s.(consumers := s.consumers[t := c])
  }

  function WordApply(max: Word, s: WordState, step: Step): WordState
    requires WordEnabled(s, step)
  {
    match step
    case BeginEnqueue(count) =>
      var before := BlockBase(Wrap(s.tail - 1));
      var remaining := Wrap(BlockBase(Wrap(s.tail + count - 1)) - before);
      s.(producer := Securing(count, Wrap(before + BLOCK_SIZE), remaining))
    case LoadHead =>
      var p := s.producer;
      s.(producer := HeadSeen(p.count, p.next, p.remaining, s.head))
    case ReserveBlock(granted) =>
      var p := s.producer;
      s.(producer :=
        if WordFull(max, p.seen, p.next) || !granted then AtRest
        else Securing(p.count, Wrap(p.next + BLOCK_SIZE), Wrap(p.remaining - BLOCK_SIZE)))
    case Publish => s.(tail := Wrap(s.tail + s.producer.count), producer := AtRest)
    case LoadTail(t, m) => WithConsumer(s, t, TailLoaded(m, s.tail))
    case LoadOvercommit(t) =>
      var c := s.consumers[t];
      WithConsumer(s, t, OvercommitLoaded(c.max, c.tail, s.overcommit))
    case LoadOptimistic(t) => WithConsumer(s, t, WordAfterCheck(s.consumers[t], s.optimistic))
    case TakeTickets(t) =>
      var c := s.consumers[t];
      WithConsumer(s.(optimistic := Wrap(s.optimistic + c.desired)), t, Ticketed(c.desired, c.overcommit, s.optimistic))
    case ReloadTail(t) => WithConsumer(s, t, WordAfterReload(s.consumers[t], s.tail))
    case Refund(t) =>
      var c := s.consumers[t];
      WithConsumer(s.(overcommit := Wrap(s.overcommit + c.refund)), t, Winner(c.ticket, c.actual))
    case Claim(t) =>
      var c := s.consumers[t];
      WithConsumer(s.(head := Wrap(s.head + c.actual)), t, Claimed(s.head, c.actual))
    case PayBack(t) => WithConsumer(s.(overcommit := Wrap(s.overcommit + s.consumers[t].desired)), t, Idle)
    case Return(t) => WithConsumer(s, t, Idle)
  }

  /** The single-element dequeue compares the counters directly; the bulk form compares the wrapped
      difference with zero. They decide alike, for every four words. */
  lemma SingleIsBulk(count: Word, overcommit: Word, tail: Word)
    ensures CircularLess(Wrap(count - overcommit), tail) <==> CircularLess(0, Wrap(tail - (count - overcommit)))
  {
    var difference := count - overcommit;
    assert (Wrap(difference) - tail) % WORD == (difference - tail) % WORD;
    assert (0 - Wrap(tail - difference)) % WORD == (difference - tail) % WORD;
  }

  /* ---------- The correspondence ---------- */

  function WrapConsumer(c: Consumer): Consumer {
    match c
    case Idle => Idle
    case TailLoaded(m, tail) => TailLoaded(m, Wrap(tail))
    case OvercommitLoaded(m, tail, o) => OvercommitLoaded(m, Wrap(tail), Wrap(o))
    case Hopeful(d, o) => Hopeful(d, Wrap(o))
    case Ticketed(d, o, m) => Ticketed(d, Wrap(o), Wrap(m))
    case Refunding(r, m, a) => Refunding(r, Wrap(m), a)
    case Winner(m, a) => Winner(Wrap(m), a)
    case Loser(d, m) => Loser(d, Wrap(m))
    case Claimed(first, n) => Claimed(Wrap(first), n)
  }

  /** A word can hold the number of elements, and the size of the blocks that start within them. */
  predicate Countable(tail: nat, count: nat) {
    count < WORD && NextBase(tail + count) - NextBase(tail) < WORD
  }

  ghost predicate ProducersMatch(w: WordState, s: State) {
    match s.producer
    case Resting => w.producer == AtRest
    case Reserving(n, next) =>
      && Countable(s.tail, n) && next <= NextBase(s.tail + n)
      && w.producer == Securing(n, Wrap(next), Wrap(NextBase(s.tail + n) - next))
    case HeadLoaded(n, next, seen) =>
      && Countable(s.tail, n) && next < s.tail + n
      && w.producer == HeadSeen(n, Wrap(next), Wrap(NextBase(s.tail + n) - next), Wrap(seen))
  }

  ghost predicate Match(w: WordState, s: State) {
    && w.tail == Wrap(s.tail) && w.head == Wrap(s.head)
    && w.optimistic == Wrap(s.optimistic) && w.overcommit == Wrap(s.overcommit)
    && |w.consumers| == |s.consumers|
    && (forall t :: 0 <= t < |s.consumers| ==> w.consumers[t] == WrapConsumer(s.consumers[t]))
    && ProducersMatch(w, s)
  }

  /** The arguments are machine words, and the values the thread loaded earlier are less than half a
      turn behind the counters it now compares them with. */
  ghost predicate Fresh(s: State, step: Step)
    requires Enabled(s, step)
  {
    match step
    case BeginEnqueue(count) => Countable(s.tail, count)
    case LoadTail(_, max) => max < WORD
    case LoadOptimistic(t) => s.optimistic - s.consumers[t].overcommit - s.consumers[t].tail <= HALF
    case ReloadTail(t) =>
      var c := s.consumers[t];
      -HALF <= s.tail - (c.ticket - c.overcommit) < HALF
    case _ => true
  }

  /** The values a check compares are less than a whole turn apart. */
  predicate Near(s: State, step: Step)
    requires Enabled(s, step)
  {
    match step
    case LoadOptimistic(t) => s.optimistic - s.consumers[t].overcommit - s.consumers[t].tail < WORD
    case ReloadTail(t) => -WORD < s.tail - (s.consumers[t].ticket - s.consumers[t].overcommit) < WORD
    case _ => true
  }

  lemma WrapCancels(x: int, y: int, z: int)
    ensures Wrap(Wrap(x) - (Wrap(y) - Wrap(z))) == Wrap(x - (y - z))
  {
    assert Wrap(x) == x - x / WORD * WORD && Wrap(y) == y - y / WORD * WORD && Wrap(z) == z - z / WORD * WORD;
    ModShift(x - (y - z), y / WORD - x / WORD - z / WORD, WORD);
  }

  /** The wrapped first check decides as the unbounded one exactly when the count of elements it sees
      lies in the signed half-range. */
  lemma CheckMatches(c: Consumer, optimistic: nat)
    requires c.OvercommitLoaded? && -WORD < c.tail - (optimistic - c.overcommit) < WORD
    ensures WordAfterCheck(WrapConsumer(c), Wrap(optimistic)) == WrapConsumer(AfterCheck(c, optimistic))
      <==> -HALF <= c.tail - (optimistic - c.overcommit) < HALF
  {
    var available := c.tail - (optimistic - c.overcommit);
    WrapCancels(c.tail, optimistic, c.overcommit);
    CircularLessExact(0, available);
  }

  /** The same for the check after the tail is loaded again, with the claim and refund it computes. */
  lemma ReloadMatches(c: Consumer, tail: nat)
    requires c.Ticketed? && -WORD < tail - (c.ticket - c.overcommit) < WORD
    ensures WordAfterReload(WrapConsumer(c), Wrap(tail)) == WrapConsumer(AfterReload(c, tail))
      <==> -HALF <= tail - (c.ticket - c.overcommit) < HALF
  {
    var available := tail - (c.ticket - c.overcommit);
    WrapCancels(tail, c.ticket, c.overcommit);
    CircularLessExact(0, available);
  }

  /** The values a consumer loads for its first check are never half a turn ahead of the counters. */
  lemma CheckNotAhead(max: Word, s: State, t: nat)
    requires Inv(max, s) && Enabled(s, LoadOptimistic(t))
    ensures s.consumers[t].tail - (s.optimistic - s.consumers[t].overcommit) < HALF
  {
    EndsInOrder(max, s);
    var log :| LogOk(s, log);
    assert ConsumerOk(s, log, s.consumers[t]);
  }

  lemma FullMatches(max: Word, seen: nat, base: nat)
    requires seen <= base < seen + HALF
    ensures WordFull(max, Wrap(seen), Wrap(base)) == Full(max, seen, base)
  {
    RoomMatches(seen, base);
    WrapDifference(base, seen);
  }

  lemma RoomMatches(seen: nat, base: nat)
    requires seen <= base < seen + HALF
    ensures CircularLess(Wrap(seen), Wrap(Wrap(base) + BLOCK_SIZE)) <==> base + BLOCK_SIZE < seen + HALF
  {
    ModAdd(base, BLOCK_SIZE, WORD);
    CircularLessExact(seen, base + BLOCK_SIZE);
    if base + BLOCK_SIZE >= seen + HALF {
      WrapDifference(base + BLOCK_SIZE, seen);
    }
  }

  lemma BaseMatches(index: int)
    ensures BlockBase(Wrap(index)) == Wrap(index / BLOCK_SIZE * BLOCK_SIZE)
  {
    var turns := index / WORD;
    DivModUnique(Wrap(index), index / BLOCK_SIZE - turns * BLOCK_WORDS, index % BLOCK_SIZE, BLOCK_SIZE);
    ModShift(BlockBase(Wrap(index)), turns, WORD);
  }

  /** The two ways of adding and subtracting before and after wrapping agree. */
  lemma WrapSum(x: int, y: int)
    ensures Wrap(Wrap(x) + y) == Wrap(x + y) && Wrap(x - Wrap(y)) == Wrap(x - y)
  {
    ModAdd(x, y, WORD);
    ModShift(x - Wrap(y), -(y / WORD), WORD);
  }

  lemma NextBaseBounds(index: nat)
    ensures index <= NextBase(index) < index + BLOCK_SIZE && NextBase(index) % BLOCK_SIZE == 0
    ensures (index - 1) / BLOCK_SIZE * BLOCK_SIZE + BLOCK_SIZE == NextBase(index)
    ensures forall base: nat :: base % BLOCK_SIZE == 0 && base < index ==> base + BLOCK_SIZE <= NextBase(index)
  {}

  lemma BaseBefore(index: nat)
    ensures BlockBase(Wrap(index - 1)) == Wrap(NextBase(index) - BLOCK_SIZE)
  {
    BaseMatches(index - 1);
    NextBaseBounds(index);
  }

  /** The code's blockBaseDiff is BLOCK_SIZE for every block that starts within the new elements,
      exactly when that total fits a word: it does unless the count is within 32 of 2^64. */
  lemma BlockBaseDiff(tail: nat, count: nat)
    ensures var before := BlockBase(Wrap(Wrap(tail) - 1));
      var needed := NextBase(tail + count) - NextBase(tail);
      && Wrap(before + BLOCK_SIZE) == Wrap(NextBase(tail))
      && (Wrap(BlockBase(Wrap(Wrap(tail) + count - 1)) - before) == needed <==> needed < WORD)
      && (count <= WORD - BLOCK_SIZE ==> needed < WORD)
  {
    var first, last := NextBase(tail), NextBase(tail + count);
    BasesApart(tail, count);
    assert BlockBase(Wrap(Wrap(tail) - 1)) == Wrap(first - BLOCK_SIZE) by {
      WrapSum(tail, -1);
      BaseBefore(tail);
    }
    assert BlockBase(Wrap(Wrap(tail) + count - 1)) == Wrap(last - BLOCK_SIZE) by {
      WrapSum(tail, count - 1);
      BaseBefore(tail + count);
    }
    WrapSum(first - BLOCK_SIZE, BLOCK_SIZE);
    WrapBoth(last - BLOCK_SIZE, first - BLOCK_SIZE);
    WrapsToItself(last - first);
  }

  lemma BasesApart(tail: nat, count: nat)
    ensures NextBase(tail) <= NextBase(tail + count)
    ensures count <= WORD - BLOCK_SIZE ==> NextBase(tail + count) - NextBase(tail) < WORD
  {
    NextBaseBounds(tail);
    NextBaseBounds(tail + count);
  }

  lemma WrapBoth(x: int, y: int)
    ensures Wrap(Wrap(x) - Wrap(y)) == Wrap(x - y)
  {
    WrapSum(x, 0 - Wrap(y));
    WrapSum(x, y);
  }

  lemma WrapsToItself(x: nat)
    ensures Wrap(x) == x <==> x < WORD
  {}

  lemma BeginMatches(max: Word, w: WordState, s: State, count: nat)
    requires w.producer.AtRest? && w.tail == Wrap(s.tail) && s.producer == Resting && 0 < count
    requires Countable(s.tail, count)
    ensures ProducersMatch(WordApply(max, w, BeginEnqueue(count)), Apply(max, s, BeginEnqueue(count)))
  {
    var needed := NextBase(s.tail + count) - NextBase(s.tail);
    BlockBaseDiff(s.tail, count);
    BasesApart(s.tail, count);
    WrapsToItself(needed);
    assert WordApply(max, w, BeginEnqueue(count)).producer == Securing(count, Wrap(NextBase(s.tail)), needed);
  }

  /** The block about to be checked lies at or after the head seen, less than half a turn ahead, and
      within the elements to come. */
  lemma NextInReach(max: Word, s: State)
    requires Inv(max, s) && s.producer.HeadLoaded? && s.producer.next < s.tail + s.producer.count
    ensures var p := s.producer;
      p.seen <= p.next < p.seen + HALF && p.next + BLOCK_SIZE <= NextBase(s.tail + p.count)
  {
    EndsInOrder(max, s);
    NextBaseBounds(s.tail);
    NextBaseBounds(s.tail + s.producer.count);
  }

  lemma ReserveMatches(max: Word, w: WordState, s: State, granted: bool)
    requires Match(w, s) && Inv(max, s) && s.producer.HeadLoaded?
    ensures ProducersMatch(WordApply(max, w, ReserveBlock(granted)), Apply(max, s, ReserveBlock(granted)))
  {
    var p := s.producer;
    NextInReach(max, s);
    FullMatches(max, p.seen, p.next);
    var end := NextBase(s.tail + p.count);
    if !Full(max, p.seen, p.next) && granted {
      SecuredMatches(w.producer, p.count, p.next, end);
    }
  }

  lemma SecuredMatches(p: WordProducer, count: Word, next: nat, end: nat)
    requires p.HeadSeen? && p.count == count && p.next == Wrap(next) && p.remaining == Wrap(end - next)
    requires next + BLOCK_SIZE <= end
    ensures Securing(p.count, Wrap(p.next + BLOCK_SIZE), Wrap(p.remaining - BLOCK_SIZE))
         == Securing(count, Wrap(next + BLOCK_SIZE), Wrap(end - (next + BLOCK_SIZE)))
  {
    WrapSum(next, BLOCK_SIZE);
    WrapSum(end - next, 0 - BLOCK_SIZE);
  }

  lemma ProducerMatches(max: Word, w: WordState, s: State, step: Step)
    requires Match(w, s) && Inv(max, s) && Enabled(s, step) && IsProducerStep(step) && Fresh(s, step)
    ensures WordEnabled(w, step)
    ensures ProducersMatch(WordApply(max, w, step), Apply(max, s, step))
  {
    match step
    case BeginEnqueue(count) => BeginMatches(max, w, s, count);
    case ReserveBlock(granted) => ReserveMatches(max, w, s, granted);
    case LoadHead => RemainingMatches(max, w, s);
    case Publish => RemainingMatches(max, w, s);
  }

  /** The code's loop over new blocks ends exactly when every block the elements need is secured. */
  lemma RemainingMatches(max: Word, w: WordState, s: State)
    requires Match(w, s) && Inv(max, s) && s.producer.Reserving?
    ensures w.producer.Securing? && (w.producer.remaining > 0 <==> s.producer.next < s.tail + s.producer.count)
  {
    var p := s.producer;
    NextBaseBounds(s.tail);
    assert p.next <= NextBase(s.tail + p.count) by {
      NextBaseBounds(s.tail + p.count);
    }
    RemainingBlocks(s.tail + p.count, p.next);
  }

  lemma RemainingBlocks(end: nat, next: nat)
    requires next % BLOCK_SIZE == 0 && next <= NextBase(end)
    ensures NextBase(end) - next > 0 <==> next < end
    ensures NextBase(end) - next < WORD ==> Wrap(NextBase(end) - next) == NextBase(end) - next
  {
    NextBaseBounds(end);
  }

  lemma ConsumerMatches(max: Word, w: WordState, s: State, step: Step)
    requires Match(w, s) && Inv(max, s) && Enabled(s, step) && !IsProducerStep(step) && Fresh(s, step)
    ensures WordEnabled(w, step)
    ensures WordApply(max, w, step).consumers[step.t] == WrapConsumer(Apply(max, s, step).consumers[step.t])
  {
    var c := s.consumers[step.t];
    assert w.consumers[step.t] == WrapConsumer(c);
    match step
    case LoadOptimistic(t) =>
      CheckNotAhead(max, s, t);
      CheckMatches(c, s.optimistic);
    case ReloadTail(t) => ReloadMatches(c, s.tail);
    case _ =>
  }

  lemma CountersMatch(max: Word, w: WordState, s: State, step: Step)
    requires Match(w, s) && Enabled(s, step) && WordEnabled(w, step)
    ensures var w', s' := WordApply(max, w, step), Apply(max, s, step);
      && w'.tail == Wrap(s'.tail) && w'.head == Wrap(s'.head)
      && w'.optimistic == Wrap(s'.optimistic) && w'.overcommit == Wrap(s'.overcommit)
  {
    match step {
      case Publish => WrapSum(s.tail, s.producer.count);
      case TakeTickets(t) =>
        assert w.consumers[t] == WrapConsumer(s.consumers[t]);
        WrapSum(s.optimistic, s.consumers[t].desired);
      case Refund(t) =>
        assert w.consumers[t] == WrapConsumer(s.consumers[t]);
        WrapSum(s.overcommit, s.consumers[t].refund);
      case PayBack(t) =>
        assert w.consumers[t] == WrapConsumer(s.consumers[t]);
        WrapSum(s.overcommit, s.consumers[t].desired);
      case Claim(t) =>
        assert w.consumers[t] == WrapConsumer(s.consumers[t]);
        WrapSum(s.head, s.consumers[t].actual);
      case _ =>
    }
  }

  /** A consumer's step leaves the producer and the other consumers alone, in both machines. */
  lemma OthersMatch(max: Word, w: WordState, s: State, step: Step)
    requires Match(w, s) && Enabled(s, step) && WordEnabled(w, step) && !IsProducerStep(step)
    ensures var w', s' := WordApply(max, w, step), Apply(max, s, step);
      && |w'.consumers| == |s'.consumers| && w'.producer == w.producer && s'.producer == s.producer && s'.tail == s.tail
      && forall t :: 0 <= t < |s'.consumers| && t != step.t ==> w'.consumers[t] == WrapConsumer(s'.consumers[t])
  {}

  /** One step of the word machine matches the same step of the unbounded machine when what it compares
      is fresh; and, within a turn, only then: otherwise the check on words takes the other branch. */
  lemma StepMatches(max: Word, w: WordState, s: State, step: Step)
    requires Match(w, s) && Inv(max, s) && Enabled(s, step)
    ensures Fresh(s, step) ==> WordEnabled(w, step) && Match(WordApply(max, w, step), Apply(max, s, step))
    ensures WordEnabled(w, step) && Near(s, step) ==>
      (Match(WordApply(max, w, step), Apply(max, s, step)) <==> Fresh(s, step))
  {
    if Fresh(s, step) {
      FreshMatches(max, w, s, step);
    } else if WordEnabled(w, step) && Near(s, step) {
      StaleDiffers(max, w, s, step);
    }
  }

  lemma StaleDiffers(max: Word, w: WordState, s: State, step: Step)
    requires Match(w, s) && Inv(max, s) && Enabled(s, step) && WordEnabled(w, step)
    requires Near(s, step) && !Fresh(s, step)
    ensures !Match(WordApply(max, w, step), Apply(max, s, step))
  {
    match step
    case LoadOptimistic(t) =>
      assert w.consumers[t] == WrapConsumer(s.consumers[t]);
      CheckNotAhead(max, s, t);
      CheckMatches(s.consumers[t], s.optimistic);
      assert WordApply(max, w, step).consumers[t] != WrapConsumer(Apply(max, s, step).consumers[t]);
    case ReloadTail(t) =>
      assert w.consumers[t] == WrapConsumer(s.consumers[t]);
      ReloadMatches(s.consumers[t], s.tail);
      assert WordApply(max, w, step).consumers[t] != WrapConsumer(Apply(max, s, step).consumers[t]);
    case _ =>
  }

  lemma FreshMatches(max: Word, w: WordState, s: State, step: Step)
    requires Match(w, s) && Inv(max, s) && Enabled(s, step) && Fresh(s, step)
    ensures WordEnabled(w, step) && Match(WordApply(max, w, step), Apply(max, s, step))
  {
    if IsProducerStep(step) {
      ProducerMatches(max, w, s, step);
      assert WordApply(max, w, step).consumers == w.consumers;
    } else {
      ConsumerMatches(max, w, s, step);
      OthersMatch(max, w, s, step);
    }
    CountersMatch(max, w, s, step);
  }

  ghost predicate IsWordRun(max: Word, words: seq<WordState>, steps: seq<Step>) {
    && |words| == |steps| + 1
    && forall i :: 0 <= i < |steps| ==>
         WordEnabled(words[i], steps[i]) && words[i + 1] == WordApply(max, words[i], steps[i])
  }

  /** Over whole runs: performing the same steps, the wrapped counters stay the images of the
      unbounded ones, however often they wrap, up to the first check of values that are not fresh;
      and such a check, if within a turn, is where they part. */
  lemma {:induction false} RunsMatch(max: Word, words: seq<WordState>, states: seq<State>, steps: seq<Step>, i: nat)
    requires IsRun(max, states, steps) && IsWordRun(max, words, steps) && Match(words[0], states[0]) && i < |states|
    requires forall j :: 0 <= j < i ==> Enabled(states[j], steps[j]) && Fresh(states[j], steps[j])
    ensures Match(words[i], states[i])
    ensures i < |steps| ==>
      && Enabled(states[i], steps[i])
      && (Near(states[i], steps[i]) ==> (Match(words[i + 1], states[i + 1]) <==> Fresh(states[i], steps[i])))
  {
    if i > 0 {
      RunsMatch(max, words, states, steps, i - 1);
      RunKeepsInv(max, states, steps, i - 1);
      StepMatches(max, words[i - 1], states[i - 1], steps[i - 1]);
    }
    if i < |steps| {
      RunKeepsInv(max, states, steps, i);
      StepMatches(max, words[i], states[i], steps[i]);
    }
  }
}
