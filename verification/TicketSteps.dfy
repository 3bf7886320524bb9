/** Each kind of step keeps the invariant of the ticket machine. */
module TicketSteps {
  import opened Words
  import opened Tickets

  lemma InitInv(max: Word, s: State)
    requires Init(s)
    ensures Inv(max, s)
  {
    NothingInFlight(s.consumers);
    assert LogOk(s, []);
  }

  lemma {:induction false} NothingInFlight(consumers: seq<Consumer>)
    requires forall t :: 0 <= t < |consumers| ==> consumers[t].InFlight() == 0
    ensures TotalInFlight(consumers) == 0
  {
    if |consumers| > 0 {
      NothingInFlight(consumers[..|consumers| - 1]);
    }
  }

  lemma ProducerStep(max: Word, s: State, step: Step, log: seq<Fate>)
    requires LogOk(s, log) && ProducerOk(max, s) && Enabled(s, step)
    requires step.BeginEnqueue? || step.LoadHead? || step.ReserveBlock? || step.Publish?
    ensures LogOk(Apply(max, s, step), log) && ProducerOk(max, Apply(max, s, step))
  {
    var s' := Apply(max, s, step);
    assert forall k :: 0 <= k < |log| && Covered(log, k, s.tail) ==> Covered(log, k, s'.tail);
    EndsFit(max, s, step);
  }

  /** The fullness checks are made for every block before its elements are published. */
  lemma EndsFit(max: Word, s: State, step: Step)
    requires ProducerOk(max, s) && Enabled(s, step)
    requires step.BeginEnqueue? || step.LoadHead? || step.ReserveBlock? || step.Publish?
    ensures ProducerOk(max, Apply(max, s, step))
  {}

  /** Consumer steps that only load, decide against trying, or return. */
  lemma LocalStep(max: Word, s: State, step: Step, log: seq<Fate>)
    requires LogOk(s, log) && Enabled(s, step)
    requires step.LoadTail? || step.LoadOvercommit? || step.LoadOptimistic? || step.Return?
    ensures LogOk(Apply(max, s, step), log)
  {
    var s' := Apply(max, s, step);
    assert s'.consumers[step.t].InFlight() == 0;
  }

  /** The log with `d` freshly taken tickets. */
  function Taken(log: seq<Fate>, d: nat): seq<Fate> {
    log + seq(d, _ => Pending)
  }

  lemma TakenCounts(log: seq<Fate>, d: nat)
    ensures forall k, f :: 0 <= k <= |log| ==> Count(Taken(log, d), k, f) == Count(log, k, f)
    ensures forall f :: f != Pending ==> Count(Taken(log, d), |log| + d, f) == Count(log, |log|, f)
  {
    var log' := Taken(log, d);
    forall k, f | 0 <= k <= |log| ensures Count(log', k, f) == Count(log, k, f) {
      CountPrefix(log, log', k, f);
    }
    forall f | f != Pending ensures Count(log', |log'|, f) == Count(log, |log|, f) {
      CountNone(log', |log|, |log'|, f);
    }
  }

  lemma TakenKeeps(s: State, s': State, log: seq<Fate>, d: nat, c: Consumer)
    requires ConsumerOk(s, log, c) && s'.tail == s.tail && s'.head == s.head && s'.overcommit == s.overcommit
    ensures ConsumerOk(s', Taken(log, d), c)
    ensures c.InFlight() > 0 ==> c.High() <= |log|
  {
    TakenCounts(log, d);
  }

  lemma TakeTicketsStep(max: Word, s: State, step: Step, log: seq<Fate>)
    requires LogOk(s, log) && Enabled(s, step) && step.TakeTickets?
    ensures LogOk(Apply(max, s, step), Taken(log, s.consumers[step.t].desired))
  {
    var s' := Apply(max, s, step);
    var d := s.consumers[step.t].desired;
    var log' := Taken(log, d);
    TakenCounts(log, d);
    assert ConsumerOk(s, log, s.consumers[step.t]);
    forall u | 0 <= u < |s.consumers|
      ensures ConsumerOk(s', log', s.consumers[u])
      ensures s.consumers[u].InFlight() > 0 ==> s.consumers[u].High() <= |log|
    {
      TakenKeeps(s, s', log, d, s.consumers[u]);
    }
    forall k | 0 <= k < |log'| ensures Covered(log', k, s'.tail) {
      assert k < |log| ==> Covered(log, k, s.tail);
    }
    forall u, v | 0 <= u < v < |s'.consumers| ensures Apart(s'.consumers[u], s'.consumers[v]) {
      assert Apart(s.consumers[u], s.consumers[v]);
    }
  }

  /** Every consumer but `t` is in order and holds tickets apart from those of `t`. */
  ghost predicate OthersOk(s: State, log: seq<Fate>, t: nat, c: Consumer) {
    forall u :: 0 <= u < |s.consumers| && u != t ==> ConsumerOk(s, log, s.consumers[u]) && Apart(s.consumers[u], c)
  }

  /** Repainting tickets that belong to one consumer leaves every other consumer's facts intact. */
  lemma PaintKeepsOthers(s: State, log: seq<Fate>, t: nat, c: Consumer, low: nat, high: nat, was: Fate, f: Fate)
    requires OthersOk(s, log, t, c) && AllAre(log, low, high, was) && was != f && was != Repaid
    requires c.Low() <= low <= high <= c.High()
    ensures OthersOk(s, Paint(log, low, high, f), t, c)
  {
    var log' := Paint(log, low, high, f);
    forall u | 0 <= u < |s.consumers| && u != t ensures ConsumerOk(s, log', s.consumers[u]) {
      var d := s.consumers[u];
      assert ConsumerOk(s, log, d) && Apart(d, c);
      if d.Ticketed? {
        CountPaint(log, low, high, was, f, d.ticket, Repaid);
      }
    }
  }

  lemma PaintKeepsCovered(log: seq<Fate>, tail: nat, low: nat, high: nat, was: Fate, f: Fate)
    requires AllAre(log, low, high, was) && was != f && was != Repaid
    requires forall k :: 0 <= k < |log| ==> Covered(log, k, tail)
    requires f == Won || (f == Spent && was != Won) ==> high - Count(log, low, Repaid) <= tail
    ensures forall k :: 0 <= k < |log| ==> Covered(Paint(log, low, high, f), k, tail)
  {
    var log' := Paint(log, low, high, f);
    forall k | 0 <= k < |log| ensures Covered(log', k, tail) {
      assert Covered(log, k, tail);
      CountPaint(log, low, high, was, f, k + 1, Repaid);
      if low <= k < high {
        CountMonotone(log, low, k + 1, Repaid);
      }
    }
  }

  lemma {:induction false} CountMonotone(log: seq<Fate>, low: nat, high: nat, f: Fate)
    requires low <= high <= |log|
    ensures Count(log, low, f) <= Count(log, high, f)
  {
    if low < high {
      CountMonotone(log, low, high - 1, f);
    }
  }

  /** Assembles the new log's facts after consumer `t` moves to a state within its own tickets. */
  lemma Reassemble(s: State, s': State, log: seq<Fate>, log': seq<Fate>, t: nat)
    requires LogOk(s, log) && t < |s.consumers| && OthersOk(s, log', t, s.consumers[t])
    requires |s'.consumers| == |s.consumers| && s'.consumers == s.consumers[t := s'.consumers[t]]
    requires s'.tail == s.tail && s'.optimistic == s.optimistic == |log'| && s.overcommit <= s'.overcommit
    requires s.head <= s'.head
    requires Count(log', |log'|, Spent) == s'.head && Count(log', |log'|, Repaid) == s'.overcommit
    requires forall k :: 0 <= k < |log'| ==> Covered(log', k, s.tail)
    requires ConsumerOk(s', log', s'.consumers[t])
    requires s'.consumers[t].InFlight() == 0
          || s.consumers[t].Low() <= s'.consumers[t].Low() <= s'.consumers[t].High() <= s.consumers[t].High()
    ensures LogOk(s', log')
  {
    forall u | 0 <= u < |s'.consumers| ensures ConsumerOk(s', log', s'.consumers[u]) {
      if u != t {
        assert ConsumerOk(s, log', s.consumers[u]);
      }
    }
    forall u, v | 0 <= u < v < |s'.consumers| ensures Apart(s'.consumers[u], s'.consumers[v]) {
      assert Apart(s.consumers[u], s.consumers[v]);
    }
  }

  lemma OthersAtStart(s: State, log: seq<Fate>, t: nat)
    requires LogOk(s, log) && t < |s.consumers|
    ensures OthersOk(s, log, t, s.consumers[t])
  {
    forall u | 0 <= u < |s.consumers| && u != t ensures Apart(s.consumers[u], s.consumers[t]) {
      assert if u < t then Apart(s.consumers[u], s.consumers[t]) else Apart(s.consumers[t], s.consumers[u]);
    }
  }

  /** One range of the stepping consumer's tickets changes fate. */
  lemma RepaintStep(s: State, s': State, log: seq<Fate>, t: nat, low: nat, high: nat, was: Fate, f: Fate)
    requires LogOk(s, log) && t < |s.consumers| && |s'.consumers| == |s.consumers|
    requires AllAre(log, low, high, was) && was != f && was != Repaid && was != Spent
    requires s.consumers[t].Low() <= low <= high <= s.consumers[t].High()
    requires f == Won || (f == Spent && was != Won) ==> high - Count(log, low, Repaid) <= s.tail
    requires s'.consumers == s.consumers[t := s'.consumers[t]]
    requires s'.tail == s.tail && s'.optimistic == s.optimistic
    requires s'.head == s.head + (if f == Spent then high - low else 0)
    requires s'.overcommit == s.overcommit + (if f == Repaid then high - low else 0)
    requires ConsumerOk(s', Paint(log, low, high, f), s'.consumers[t])
    requires s'.consumers[t].InFlight() == 0
          || s.consumers[t].Low() <= s'.consumers[t].Low() <= s'.consumers[t].High() <= s.consumers[t].High()
    ensures LogOk(s', Paint(log, low, high, f))
  {
    OthersAtStart(s, log, t);
    PaintKeepsOthers(s, log, t, s.consumers[t], low, high, was, f);
    PaintKeepsCovered(log, s.tail, low, high, was, f);
    CountPaint(log, low, high, was, f, |log|, Spent);
    CountPaint(log, low, high, was, f, |log|, Repaid);
    Reassemble(s, s', log, Paint(log, low, high, f), t);
  }

  /** Only some of the tickets win: the first ones are painted won, the rest lost. */
  lemma PartialWin(s: State, s': State, log: seq<Fate>, t: nat) returns (log': seq<Fate>)
    requires LogOk(s, log) && t < |s.consumers| && s.consumers[t].Ticketed?
    requires s' == SetConsumer(s, t, AfterReload(s.consumers[t], s.tail)) && s'.consumers[t].Refunding?
    ensures LogOk(s', log')
  {
    var c := s.consumers[t];
    assert ConsumerOk(s, log, c);
    var middle := c.ticket + s'.consumers[t].actual;
    var mid := Paint(log, c.ticket, middle, Won);
    log' := Paint(mid, middle, c.High(), Lost);
    OthersAtStart(s, log, t);
    PaintKeepsOthers(s, log, t, c, c.ticket, middle, Pending, Won);
    PaintKeepsOthers(s, mid, t, c, middle, c.High(), Pending, Lost);
    PaintKeepsCovered(log, s.tail, c.ticket, middle, Pending, Won);
    PaintKeepsCovered(mid, s.tail, middle, c.High(), Pending, Lost);
    forall g | g == Spent || g == Repaid ensures Count(log', |log'|, g) == Count(log, |log|, g) {
      CountPaint(log, c.ticket, middle, Pending, Won, |log|, g);
      CountPaint(mid, middle, c.High(), Pending, Lost, |log|, g);
    }
    Reassemble(s, s', log, log', t);
  }

  lemma ReloadTailStep(max: Word, s: State, step: Step, log: seq<Fate>) returns (log': seq<Fate>)
    requires LogOk(s, log) && Enabled(s, step) && step.ReloadTail?
    ensures LogOk(Apply(max, s, step), log')
  {
    var s' := Apply(max, s, step);
    var t := step.t;
    var c, c' := s.consumers[t], s'.consumers[t];
    assert ConsumerOk(s, log, c);
    match c'
    case Loser(_, _) =>
      log' := Paint(log, c.ticket, c.High(), Lost);
      RepaintStep(s, s', log, t, c.ticket, c.High(), Pending, Lost);
    case Winner(_, _) =>
      log' := Paint(log, c.ticket, c.High(), Won);
      RepaintStep(s, s', log, t, c.ticket, c.High(), Pending, Won);
    case Refunding(_, _, _) =>
      log' := PartialWin(s, s', log, t);
  }

  lemma RefundStep(max: Word, s: State, step: Step, log: seq<Fate>) returns (log': seq<Fate>)
    requires LogOk(s, log) && Enabled(s, step) && step.Refund?
    ensures LogOk(Apply(max, s, step), log')
  {
    var c := s.consumers[step.t];
    assert ConsumerOk(s, log, c);
    log' := Paint(log, c.ticket + c.actual, c.High(), Repaid);
    RepaintStep(s, Apply(max, s, step), log, step.t, c.ticket + c.actual, c.High(), Lost, Repaid);
  }

  lemma PayBackStep(max: Word, s: State, step: Step, log: seq<Fate>) returns (log': seq<Fate>)
    requires LogOk(s, log) && Enabled(s, step) && step.PayBack?
    ensures LogOk(Apply(max, s, step), log')
  {
    var c := s.consumers[step.t];
    assert ConsumerOk(s, log, c);
    log' := Paint(log, c.ticket, c.High(), Repaid);
    RepaintStep(s, Apply(max, s, step), log, step.t, c.ticket, c.High(), Lost, Repaid);
  }

  lemma ClaimStep(max: Word, s: State, step: Step, log: seq<Fate>) returns (log': seq<Fate>)
    requires LogOk(s, log) && Enabled(s, step) && step.Claim?
    ensures LogOk(Apply(max, s, step), log')
  {
    var c := s.consumers[step.t];
    assert ConsumerOk(s, log, c);
    log' := Paint(log, c.ticket, c.High(), Spent);
    RepaintStep(s, Apply(max, s, step), log, step.t, c.ticket, c.High(), Won, Spent);
  }
}
