/** What the calls on a sub-queue answer: when an enqueue finds room, and how a dequeue ends. */
module TicketAnswers {
  import opened Words
  import opened Tickets
  import opened TicketSteps
  import opened TicketRuns

  /** Steps of the producer in which every block it asks for is granted. */
  predicate Granted(steps: seq<Step>) {
    forall i :: 0 <= i < |steps| ==> IsProducerStep(steps[i]) && (steps[i].ReserveBlock? ==> steps[i].granted)
  }

  /** Every block that starts in [low, high) has room. */
  ghost predicate RoomFrom(max: Word, head: nat, low: nat, high: nat)
    requires head <= low
  {
    forall base: nat :: base % BLOCK_SIZE == 0 && low <= base < high ==> HasRoom(max, head, base)
  }

  lemma RoomAfter(max: Word, head: nat, next: nat, high: nat)
    requires head <= next < high && next % BLOCK_SIZE == 0
    ensures RoomFrom(max, head, next, high) <==>
      HasRoom(max, head, next) && RoomFrom(max, head, next + BLOCK_SIZE, high)
  {
    if HasRoom(max, head, next) && RoomFrom(max, head, next + BLOCK_SIZE, high) {
      forall base: nat | base % BLOCK_SIZE == 0 && next <= base < high ensures HasRoom(max, head, base) {
        assert base == next || base >= next + BLOCK_SIZE;
      }
    }
  }

  lemma LeadsFirst(max: Word, s: State, step: Step, mid: State, steps: seq<Step>, s': State)
    requires Enabled(s, step) && mid == Apply(max, s, step) && Leads(max, mid, steps, s')
    ensures Leads(max, s, [step] + steps, s')
  {
    assert ([step] + steps)[1..] == steps;
  }

  /** The producer, alone, from the block at `next` on. */
  lemma SoloReserve(max: Word, s: State, count: nat, next: nat) returns (steps: seq<Step>)
    requires s.producer == Reserving(count, next) && s.head <= next && next % BLOCK_SIZE == 0
    ensures Granted(steps)
    ensures var tail := if RoomFrom(max, s.head, next, s.tail + count) then s.tail + count else s.tail;
      Leads(max, s, steps, s.(tail := tail, producer := Resting))
    decreases s.tail + count - next
  {
    if next >= s.tail + count {
      steps := [Publish];
      LeadsFirst(max, s, Publish, Apply(max, s, Publish), [], Apply(max, s, Publish));
    } else {
      var loaded := s.(producer := HeadLoaded(count, next, s.head));
      FullExact(max, s.head, next);
      RoomAfter(max, s.head, next, s.tail + count);
      if HasRoom(max, s.head, next) {
        var reserved := s.(producer := Reserving(count, next + BLOCK_SIZE));
        var rest := SoloReserve(max, reserved, count, next + BLOCK_SIZE);
        var tail := if RoomFrom(max, s.head, next, s.tail + count) then s.tail + count else s.tail;
        LeadsFirst(max, loaded, ReserveBlock(true), reserved, rest, s.(tail := tail, producer := Resting));
        LeadsFirst(max, s, LoadHead, loaded, [ReserveBlock(true)] + rest, s.(tail := tail, producer := Resting));
        steps := [LoadHead] + ([ReserveBlock(true)] + rest);
      } else {
        var refused := s.(producer := Resting);
        LeadsFirst(max, loaded, ReserveBlock(true), refused, [], refused);
        LeadsFirst(max, s, LoadHead, loaded, [ReserveBlock(true)] + [], refused);
        steps := [LoadHead] + ([ReserveBlock(true)] + []);
      }
    }
  }

  /** An enqueue that runs alone, wherever the dequeues have stopped, and gets every block it asks for,
      publishes its elements exactly when every block to come has room; otherwise it leaves everything
      as it was. */
  lemma SoloEnqueue(max: Word, s: State, count: nat) returns (steps: seq<Step>, s': State)
    requires Inv(max, s) && s.producer.Resting? && count > 0
    ensures s.head <= s.tail && Granted(steps) && |steps| > 0 && steps[0] == BeginEnqueue(count)
    ensures Leads(max, s, steps, s') && Inv(max, s')
    ensures s' == if RoomFrom(max, s.head, s.tail, s.tail + count) then s.(tail := s.tail + count) else s
  {
    EndsInOrder(max, s);
    var next := NextBase(s.tail);
    assert RoomFrom(max, s.head, s.tail, s.tail + count) <==> RoomFrom(max, s.head, next, s.tail + count) by {
      forall base: nat | base % BLOCK_SIZE == 0 && s.tail <= base ensures next <= base {}
    }
    var begun := s.(producer := Reserving(count, next));
    var rest := SoloReserve(max, begun, count, next);
    s' := if RoomFrom(max, s.head, next, s.tail + count) then s.(tail := s.tail + count) else s;
    assert s' == begun.(tail := s'.tail, producer := Resting);
    steps := [BeginEnqueue(count)] + rest;
    LeadsFirst(max, s, BeginEnqueue(count), begun, rest, s');
    LeadsKeepsInv(max, s, steps, s');
  }

  /** An enqueue that needs no new block always succeeds. */
  lemma NoBlockNeeded(max: Word, s: State, count: nat)
    requires s.head <= s.tail && s.tail + count <= NextBase(s.tail)
    ensures RoomFrom(max, s.head, s.tail, s.tail + count)
  {
    forall base: nat | base % BLOCK_SIZE == 0 && s.tail <= base ensures NextBase(s.tail) <= base {}
  }

  /** A dequeue that has reloaded the tail, to its end. */
  lemma AfterReloading(max: Word, s: State, t: nat) returns (steps: seq<Step>, s': State)
    requires t < |s.consumers| && (s.consumers[t].Refunding? || s.consumers[t].Winner? || s.consumers[t].Loser?)
    ensures (forall i :: 0 <= i < |steps| ==> !IsProducerStep(steps[i]) && steps[i].t == t) && Leads(max, s, steps, s')
    ensures s' ==
      match s.consumers[t]
      case Refunding(refund, _, n) =>
        SetConsumer(s, t, Claimed(s.head, n)).(head := s.head + n, overcommit := s.overcommit + refund)
      case Winner(_, n) => SetConsumer(s, t, Claimed(s.head, n)).(head := s.head + n)
      case Loser(desired, _) => SetConsumer(s, t, Idle).(overcommit := s.overcommit + desired)
  {
    if s.consumers[t].Refunding? {
      var refunded := Apply(max, s, Refund(t));
      s' := Apply(max, refunded, Claim(t));
      LeadsFirst(max, refunded, Claim(t), s', [], s');
      LeadsFirst(max, s, Refund(t), refunded, [Claim(t)] + [], s');
      steps := [Refund(t)] + ([Claim(t)] + []);
    } else {
      var last := if s.consumers[t].Winner? then Claim(t) else PayBack(t);
      s' := Apply(max, s, last);
      LeadsFirst(max, s, last, s', [], s');
      steps := [last] + [];
    }
    assert s'.consumers == s.consumers[t := s'.consumers[t]];
  }

  /** However others came in between, a dequeue that has its tickets and now runs alone claims from the
      head as many indices as its tickets and the tail allow, and pays the rest of its tickets back. */
  lemma FinishDequeue(max: Word, s: State, t: nat) returns (steps: seq<Step>, s': State)
    requires Inv(max, s) && t < |s.consumers| && s.consumers[t].Ticketed?
    ensures forall i :: 0 <= i < |steps| ==> !IsProducerStep(steps[i]) && steps[i].t == t
    ensures Leads(max, s, steps, s') && Inv(max, s')
    ensures var c := s.consumers[t];
      var available := s.tail - (c.ticket - c.overcommit);
      if available <= 0 then s' == SetConsumer(s, t, Idle).(overcommit := s.overcommit + c.desired)
      else
        var n := if available < c.desired then available else c.desired;
        s' == SetConsumer(s, t, Claimed(s.head, n)).(head := s.head + n, overcommit := s.overcommit + (c.desired - n))
  {
    var reloaded := Apply(max, s, ReloadTail(t));
    var rest;
    rest, s' := AfterReloading(max, reloaded, t);
    LeadsFirst(max, s, ReloadTail(t), reloaded, rest, s');
    steps := [ReloadTail(t)] + rest;
    LeadsKeepsInv(max, s, steps, s');
    assert s'.consumers == s.consumers[t := s'.consumers[t]];
  }
}
