/** Runs of the producer hash: its tables never fill up, and each thread has one producer. */
module ProducerHashRuns {
  import Words
  import opened Basics
  import opened ProducerHash
  import opened ProducerHashSteps

  lemma StepKeepsGood(s: State, step: Step, x: Notes) returns (x': Notes)
    requires Good(s, x) && Enabled(s, step)
    ensures Good(Apply(s, step), x')
    ensures KeepsProducers(x, x')
  {
    x' := x;
    if step.Begin? {
      BeginStep(s, step.t, x);
      return;
    }
    var Run(t, granted) := step;
    var c := s.threads[t];
    assert ThreadOk(s, x, t);
    if c.Searching? {
      SearchStep(s, t, granted, x);
    } else if c.Counting? {
      x' := CountingStep(s, t, granted, x);
    } else if c.GivingUp? || c.Unmaking? {
      x' := GiveBackStep(s, t, granted, x);
    } else if c.Making? && granted {
      x' := MakingStep(s, t, x);
    } else if c.Allocating? && granted {
      PublishStep(s, t, x);
    } else if c.CopyingValue? || c.PlacingValue? {
      StoreStep(s, t, granted, x);
    } else if c.Copying? || c.CopyingKey? || c.Placing? || c.PlacingKey? {
      var free := s.tables[c.main].keys[Slot(s.hashes[t], c.k, Capacity(s.tables[c.main]))] == None;
      if free && (c.CopyingKey? || c.PlacingKey?) {
        InsertStep(s, t, granted, x);
      } else {
        ProbeStep(s, t, granted, x);
      }
    } else {
      PlainStep(s, t, granted, x);
    }
  }

  /** Every atomic step of every interleaving keeps the invariant. */
  lemma StepKeepsInv(s: State, step: Step)
    requires Inv(s) && Enabled(s, step)
    ensures Inv(Apply(s, step))
  {
    var x :| Good(s, x);
    var x' := StepKeepsGood(s, step, x);
  }

  lemma InitInv(s: State)
    requires InitState(s)
    ensures Inv(s)
  {
    var x := Notes([], seq(|s.threads|, _ => 0), seq(|s.threads|, _ => None));
    assert TableOk(s, x, 0);
    assert Good(s, x);
  }

  /** `states` is the run from an initial state that performs `steps` in order. */
  ghost predicate IsRun(states: seq<State>, steps: seq<Step>) {
    && |states| == |steps| + 1
    && InitState(states[0])
    && forall i :: 0 <= i < |steps| ==> Enabled(states[i], steps[i]) && states[i + 1] == Apply(states[i], steps[i])
  }

  lemma {:induction false} RunKeepsInv(states: seq<State>, steps: seq<Step>, i: nat)
    requires IsRun(states, steps) && i < |states|
    ensures Inv(states[i])
  {
    if i == 0 {
      InitInv(states[0]);
    } else {
      RunKeepsInv(states, steps, i - 1);
      StepKeepsInv(states[i - 1], steps[i - 1]);
    }
  }

  /* ---------- The tables never fill up ---------- */

  /** The keys of the slots, in slot order. */
  function Keys(keys: seq<Option<nat>>): seq<nat> {
    if |keys| == 0 then []
    else
      var rest := Keys(keys[..|keys| - 1]);
      match keys[|keys| - 1]
      case None => rest
      case Some(t) => rest + [t]
  }

  lemma {:induction false} KeysAreKeys(keys: seq<Option<nat>>)
    requires forall a, b :: 0 <= a < b < |keys| && keys[a].Some? ==> keys[a] != keys[b]
    ensures Distinct(Keys(keys))
    ensures forall t :: t in Keys(keys) <==> Some(t) in keys
  {
    if |keys| > 0 {
      var front := keys[..|keys| - 1];
      KeysAreKeys(front);
      assert keys == front + [keys[|keys| - 1]];
      assert forall t :: Some(t) in keys <==> Some(t) in front || keys[|keys| - 1] == Some(t);
      if keys[|keys| - 1].Some? {
        assert Some(keys[|keys| - 1].value) !in front;
      }
    }
  }

  lemma {:induction false} Pigeonhole(a: seq<nat>, b: seq<nat>)
    requires Distinct(a) && forall t :: t in a ==> t in b
    ensures |a| <= |b|
  {
    if |a| > 0 {
      var last := a[|a| - 1];
      assert last in b;
      var p :| 0 <= p < |b| && b[p] == last;
      var a' := a[..|a| - 1];
      forall t | t in a' ensures t in Without(b, p) {
        assert t in a && t != last && t in b;
        var q :| 0 <= q < |b| && b[q] == t;
        assert Without(b, p)[if q < p then q else q - 1] == t;
      }
      Pigeonhole(a', Without(b, p));
    }
  }

  /** Among some holders of numbers there is one that took its number last. */
  lemma {:induction false} LastHolder(members: seq<nat>, order: seq<nat>, m: nat) returns (p: nat)
    requires |members| > 0 && m <= |order| && forall t :: t in members ==> t in order[..m]
    ensures p < m && order[p] in members && forall t :: t in members ==> t in order[..p + 1]
  {
    assert members[0] in order[..m];
    if order[m - 1] in members {
      p := m - 1;
    } else {
      forall t | t in members ensures t in order[..m - 1] {
        assert order[..m] == order[..m - 1] + [order[m - 1]];
      }
      p := LastHolder(members, order, m - 1);
    }
  }

  /** Every table holds fewer keys than three quarters of its capacity: the last of its members to
      take a number took one at least as large as the number of members. */
  lemma BelowLimit(s: State, i: nat)
    requires Inv(s) && i < |s.tables|
    ensures |Keys(s.tables[i].keys)| < Limit(s.tables[i]) == Capacity(s.tables[i]) / 4 * 3 < Capacity(s.tables[i])
  {
    var x: Notes :| Good(s, x);
    var tb := s.tables[i];
    assert TableOk(s, x, i);
    KeysAreKeys(tb.keys);
    var members := Keys(tb.keys);
    if |members| > 0 {
      forall t | t in members ensures t in x.order {
        var slot :| 0 <= slot < |tb.keys| && tb.keys[slot] == Some(t);
        assert SlotOk(s, x, i, slot) && Present(tb, t) && Member(s, t);
      }
      assert x.order[..|x.order|] == x.order;
      var p := LastHolder(members, x.order, |x.order|);
      Pigeonhole(members, x.order[..p + 1]);
      var slot :| 0 <= slot < |tb.keys| && tb.keys[slot] == Some(x.order[p]);
      assert SlotOk(s, x, i, slot);
    }
  }

  lemma SlotsApart(hash: nat, j: nat, k: nat, capacity: nat)
    requires j < k < j + capacity
    ensures Slot(hash, j, capacity) != Slot(hash, k, capacity)
  {
    if Slot(hash, j, capacity) == Slot(hash, k, capacity) {
      Words.ModInjective(hash + j, hash + k, capacity);
    }
  }

  /** From any hash, fewer than 3/4 capacity probes meet a free slot, in every table at every moment. */
  lemma FreeSlotAhead(s: State, i: nat, hash: nat) returns (k: nat)
    requires Inv(s) && i < |s.tables|
    ensures |s.tables[i].keys| > 0 && k < Limit(s.tables[i])
    ensures s.tables[i].keys[Slot(hash, k, Capacity(s.tables[i]))] == None
  {
    var x: Notes :| Good(s, x);
    var tb := s.tables[i];
    assert TableOk(s, x, i);
    BelowLimit(s, i);
    KeysAreKeys(tb.keys);
    if forall j :: 0 <= j < Limit(tb) ==> tb.keys[Slot(hash, j, Capacity(tb))].Some? {
      var probed := seq(Limit(tb), j requires 0 <= j < Limit(tb) => tb.keys[Slot(hash, j, Capacity(tb))].value);
      forall a, b | 0 <= a < b < |probed| ensures probed[a] != probed[b] {
        SlotsApart(hash, a, b, Capacity(tb));
      }
      forall t | t in probed ensures t in Keys(tb.keys) {
        assert Some(t) in tb.keys;
      }
      Pigeonhole(probed, Keys(tb.keys));
      assert false;
    }
    k :| 0 <= k < Limit(tb) && tb.keys[Slot(hash, k, Capacity(tb))] == None;
  }

  /** No probe loop runs away: a thread has always made fewer than 3/4 capacity probes. */
  lemma ProbesEnd(s: State, t: nat)
    requires Inv(s) && t < |s.threads|
    ensures match s.threads[t]
      case Searching(_, at, k) => at < |s.tables| && k < Limit(s.tables[at])
      case Copying(main, _, k) => main < |s.tables| && k < Limit(s.tables[main])
      case CopyingKey(main, _, k) => main < |s.tables| && k < Limit(s.tables[main])
      case Placing(main, _, _, k) => main < |s.tables| && k < Limit(s.tables[main])
      case PlacingKey(main, _, _, k) => main < |s.tables| && k < Limit(s.tables[main])
      case _ => true
  {
    var x :| Good(s, x);
    assert ThreadOk(s, x, t);
    match s.threads[t]
    case Searching(_, at, k) => var j := FreeSlotAhead(s, at, s.hashes[t]);
    case Copying(main, _, k) => var j := FreeSlotAhead(s, main, s.hashes[t]);
    case CopyingKey(main, _, k) => var j := FreeSlotAhead(s, main, s.hashes[t]);
    case Placing(main, _, _, k) => var j := FreeSlotAhead(s, main, s.hashes[t]);
    case PlacingKey(main, _, _, k) => var j := FreeSlotAhead(s, main, s.hashes[t]);
    case _ =>
  }

  /** No table has a key twice, and every slot on the way from a key's hash to its slot is taken. */
  lemma TablesAreSound(s: State, i: nat, slot: nat, t: nat)
    requires Inv(s) && i < |s.tables| && slot < |s.tables[i].keys| && s.tables[i].keys[slot] == Some(t)
    ensures t < |s.hashes| && OnPath(s.tables[i], s.hashes[t], slot, t)
    ensures forall other :: 0 <= other < |s.tables[i].keys| && s.tables[i].keys[other] == Some(t) ==> other == slot
  {
    var x :| Good(s, x);
    assert TableOk(s, x, i) && SlotOk(s, x, i, slot);
  }

  /* ---------- One producer per thread ---------- */

  lemma KeepsProducersOn(x: Notes, y: Notes, z: Notes)
    requires KeepsProducers(x, y) && KeepsProducers(y, z)
    ensures KeepsProducers(x, z)
  {}

  lemma ProducersStayOne(states: seq<State>, steps: seq<Step>, i: nat, x: Notes) returns (x': Notes)
    requires IsRun(states, steps) && i < |steps| && Good(states[i], x)
    ensures Good(states[i + 1], x') && KeepsProducers(x, x')
  {
    x' := StepKeepsGood(states[i], steps[i], x);
  }

  lemma {:induction false} ProducersStay(
      states: seq<State>, steps: seq<Step>, i: nat, j: nat, x: Notes) returns (x': Notes)
    requires IsRun(states, steps) && i <= j < |states| && Good(states[i], x)
    ensures Good(states[j], x') && KeepsProducers(x, x')
  {
    if i == j {
      return x;
    }
    var mid := ProducersStay(states, steps, i, j - 1, x);
    x' := ProducersStayOne(states, steps, j - 1, mid);
    KeepsProducersOn(x, mid, x');
  }

  /** Once a thread has got a producer, every later call of it returns the same one. */
  lemma LookupIsStable(states: seq<State>, steps: seq<Step>, i: nat, j: nat, t: nat)
    requires IsRun(states, steps) && i <= j < |states| && t < |states[i].threads| && t < |states[j].threads|
    requires states[i].threads[t].Returned? && states[i].threads[t].result.Some? && states[j].threads[t].Returned?
    ensures states[j].threads[t].result == states[i].threads[t].result
  {
    RunKeepsInv(states, steps, i);
    var x :| Good(states[i], x);
    var x' := ProducersStay(states, steps, i, j, x);
    assert ThreadOk(states[i], x, t) && ThreadOk(states[j], x', t);
  }

  /** No two threads ever get the same producer, at the same or at different times. */
  lemma LookupIsInjective(states: seq<State>, steps: seq<Step>, i: nat, j: nat, t: nat, u: nat)
    requires IsRun(states, steps) && i <= j < |states| && t < |states[i].threads| && u < |states[j].threads| && t != u
    requires states[i].threads[t].Returned? && states[i].threads[t].result.Some?
    requires states[j].threads[u].Returned? && states[j].threads[u].result.Some?
    ensures states[j].threads[u].result != states[i].threads[t].result
  {
    RunKeepsInv(states, steps, i);
    var x :| Good(states[i], x);
    var x' := ProducersStay(states, steps, i, j, x);
    assert ThreadOk(states[i], x, t) && ThreadOk(states[j], x', u);
  }
}
