/** Each kind of step keeps the invariant of the producer hash. */
module ProducerHashSteps {
  import opened Basics
  import opened ProducerHash

  /** Thread `t` moves; the tables stay, and so do the other threads' numbers and producers. */
  ghost predicate Moves(s: State, s': State, x: Notes, x': Notes, t: nat) {
    && t < |s.threads| && t < |x.number| && t < |x.producer| && s'.tables == s.tables && s'.current == s.current
    && s'.hashes == s.hashes
    && |s'.threads| == |s.threads| && s'.threads == s.threads[t := s'.threads[t]]
    && |x'.number| == |x.number| && x'.number == x.number[t := x'.number[t]]
    && |x'.producer| == |x.producer| && x'.producer == x.producer[t := x'.producer[t]]
    && !s.threads[t].CopyingValue? && !s.threads[t].PlacingValue?
  }

  lemma MoveKeepsTables(s: State, s': State, x: Notes, x': Notes, t: nat)
    requires Good(s, x) && Sized(s', x') && Moves(s, s', x, x', t)
    requires Member(s, t) ==> x'.number[t] == x.number[t] && x'.producer[t] == x.producer[t]
    ensures forall i :: 0 <= i < |s'.tables| ==> TableOk(s', x', i)
  {
    forall i | 0 <= i < |s'.tables| ensures TableOk(s', x', i) {
      assert TableOk(s, x, i);
      forall slot | 0 <= slot < |s.tables[i].keys| ensures SlotOk(s', x', i, slot) {
        assert SlotOk(s, x, i, slot);
        if s.tables[i].keys[slot] == Some(t) {
          assert Present(s.tables[i], t);
        }
      }
    }
  }

  lemma MoveKeepsThreads(s: State, s': State, x: Notes, x': Notes, t: nat)
    requires Good(s, x) && Sized(s', x') && Moves(s, s', x, x', t)
    ensures forall u :: 0 <= u < |s.threads| && u != t ==> ThreadOk(s', x', u)
    ensures forall u :: 0 <= u < |s.threads| ==> (Member(s', u) <==> Member(s, u))
  {
    forall u | 0 <= u < |s.threads| ensures Member(s', u) <==> Member(s, u) {
      assert s'.tables == s.tables;
    }
    forall u | 0 <= u < |s.threads| && u != t ensures ThreadOk(s', x', u) {
      assert ThreadOk(s, x, u);
    }
  }

  /** A step that changes no count, number or producer. */
  lemma QuietStep(s: State, s': State, x: Notes, t: nat)
    requires Good(s, x) && Moves(s, s', x, x, t)
    requires s'.count == s.count && s'.made == s.made
    requires s'.threads[t].Numbered() == s.threads[t].Numbered()
    requires s'.locked
      == (if s'.threads[t].HoldsLock() != s.threads[t].HoldsLock() then s'.threads[t].HoldsLock() else s.locked)
    requires s'.threads[t].HoldsLock() && !s.threads[t].HoldsLock() ==> !s.locked
    requires ThreadOk(s', x, t)
    ensures Good(s', x)
  {
    MoveKeepsTables(s, s', x, x, t);
    MoveKeepsThreads(s, s', x, x, t);
    forall u, v | 0 <= u < v < |s'.threads| && s'.threads[u].HoldsLock() ensures !s'.threads[v].HoldsLock() {
      assert u != t ==> s'.threads[u] == s.threads[u];
      assert v != t ==> s'.threads[v] == s.threads[v];
    }
    forall u | 0 <= u < |s'.threads| && s'.threads[u].HoldsLock() ensures s'.locked {
      assert u != t ==> s'.threads[u] == s.threads[u];
    }
  }

  lemma BeginStep(s: State, t: nat, x: Notes)
    requires Good(s, x) && Enabled(s, Begin(t))
    ensures Good(Apply(s, Begin(t)), x)
  {
    assert ThreadOk(s, x, t);
    var s' := Apply(s, Begin(t));
    assert Member(s', t) <==> Member(s, t);
    QuietStep(s, s', x, t);
  }

  /** An empty slot on the probe path means the thread's key is not in the table. */
  lemma EmptyEndsSearch(s: State, x: Notes, i: nat, k: nat, t: nat)
    requires Good(s, x) && i < |s.tables| && t < |s.hashes|
    requires PathTaken(s.tables[i], s.hashes[t], k, t)
    requires s.tables[i].keys[Slot(s.hashes[t], k, Capacity(s.tables[i]))] == None
    ensures !Present(s.tables[i], t)
  {
    var tb := s.tables[i];
    assert TableOk(s, x, i);
    forall slot | 0 <= slot < |tb.keys| ensures tb.keys[slot] != Some(t) {
      assert SlotOk(s, x, i, slot);
    }
  }

  lemma SearchStep(s: State, t: nat, granted: bool, x: Notes)
    requires Good(s, x) && Enabled(s, Run(t, granted)) && s.threads[t].Searching?
    ensures Good(RunThread(s, t, granted), x)
  {
    SearchThread(s, t, granted, x);
    QuietStep(s, RunThread(s, t, granted), x, t);
  }

  lemma SearchThread(s: State, t: nat, granted: bool, x: Notes)
    requires Good(s, x) && Enabled(s, Run(t, granted)) && s.threads[t].Searching?
    ensures ThreadOk(RunThread(s, t, granted), x, t)
  {
    var s' := RunThread(s, t, granted);
    var c := s.threads[t];
    var tb := s.tables[c.at];
    var slot := Slot(s.hashes[t], c.k, Capacity(tb));
    assert ThreadOk(s, x, t) && TableOk(s, x, c.at);
    assert Member(s', t) <==> Member(s, t);
    if tb.keys[slot] == Some(t) {
      assert SlotOk(s, x, c.at, slot);
      assert Present(tb, t);
    } else if tb.keys[slot] == None {
      EmptyEndsSearch(s, x, c.at, c.k, t);
      if c.at == 0 {
        assert !Member(s, t);
      }
    }
  }

  /** Loads of one slot, and CASes that find the slot taken: the probe moves on or stays. */
  lemma ProbeStep(s: State, t: nat, granted: bool, x: Notes)
    requires Good(s, x) && Enabled(s, Run(t, granted))
    requires s.threads[t].Copying? || s.threads[t].CopyingKey? || s.threads[t].Placing? || s.threads[t].PlacingKey?
    requires var c := s.threads[t];
      c.CopyingKey? || c.PlacingKey? ==>
        s.tables[c.main].keys[Slot(s.hashes[t], c.k, Capacity(s.tables[c.main]))] != None
    ensures Good(RunThread(s, t, granted), x)
  {
    ProbeThread(s, t, granted, x);
    QuietStep(s, RunThread(s, t, granted), x, t);
  }

  lemma ProbeThread(s: State, t: nat, granted: bool, x: Notes)
    requires Good(s, x) && Enabled(s, Run(t, granted))
    requires s.threads[t].Copying? || s.threads[t].CopyingKey? || s.threads[t].Placing? || s.threads[t].PlacingKey?
    requires var c := s.threads[t];
      c.CopyingKey? || c.PlacingKey? ==>
        s.tables[c.main].keys[Slot(s.hashes[t], c.k, Capacity(s.tables[c.main]))] != None
    ensures ThreadOk(RunThread(s, t, granted), x, t)
  {
    var s' := RunThread(s, t, granted);
    var c := s.threads[t];
    assert ThreadOk(s, x, t);
    assert Member(s', t) <==> Member(s, t);
    if s.tables[c.main].keys[Slot(s.hashes[t], c.k, Capacity(s.tables[c.main]))] != None {
      PathGrows(s, c.main, c.k, t);
    }
  }

  lemma PathGrows(s: State, main: nat, k: nat, t: nat)
    requires t < |s.hashes| && forall i :: 0 <= i < |s.tables| ==> Capacity(s.tables[i]) > 0
    requires PathOk(s, main, k, t) && s.tables[main].keys[Slot(s.hashes[t], k, Capacity(s.tables[main]))] != None
    ensures PathOk(s, main, k + 1, t)
  {
    assert s.tables[main].keys[Slot(s.hashes[t], k, Capacity(s.tables[main]))] != Some(t);
  }

  lemma PlainStep(s: State, t: nat, granted: bool, x: Notes)
    requires Good(s, x) && Enabled(s, Run(t, granted))
    requires var c := s.threads[t];
      c.LoadingMain? || c.Deciding? || c.Reloading? || (c.Allocating? && !granted) || c.UnlockingEmpty? || c.Unlocking?
      || c.Checking? || (c.Making? && !granted)
    ensures Good(RunThread(s, t, granted), x)
  {
    var s' := RunThread(s, t, granted);
    assert ThreadOk(s, x, t);
    assert Member(s', t) <==> Member(s, t);
    QuietStep(s, s', x, t);
  }

  /* ---------- Steps that take or give back a number, or make a producer ---------- */

  lemma OthersInOrder(order: seq<nat>, order': seq<nat>, t: nat)
    requires order' == order + [t]
    ensures forall u :: u in order' <==> u in order || u == t
  {}

  lemma CountingStep(s: State, t: nat, granted: bool, x: Notes) returns (x': Notes)
    requires Good(s, x) && Enabled(s, Run(t, granted)) && s.threads[t].Counting?
    ensures Good(RunThread(s, t, granted), x')
    ensures KeepsProducers(x, x')
  {
    var s' := RunThread(s, t, granted);
    assert ThreadOk(s, x, t);
    x' := x.(order := x.order + [t], number := x.number[t := s.count + 1]);
    MoveKeepsTables(s, s', x, x', t);
    MoveKeepsThreads(s, s', x, x', t);
    OthersInOrder(x.order, x'.order, t);
    assert t !in x.order;
    assert LockOk(s');
  }

  function Without(order: seq<nat>, p: nat): seq<nat>
    requires p < |order|
  {
    order[..p] + order[p + 1..]
  }

  lemma WithoutOne(order: seq<nat>, p: nat)
    requires p < |order| && Distinct(order)
    ensures Distinct(Without(order, p))
    ensures forall u :: u in Without(order, p) <==> u in order && u != order[p]
  {
    var order' := Without(order, p);
    forall u | u in order && u != order[p] ensures u in order' {
      var q :| 0 <= q < |order| && order[q] == u;
      assert order'[if q < p then q else q - 1] == u;
    }
  }

  lemma OrderWithout(s: State, s': State, x: Notes, p: nat)
    requires |s.threads| == |s'.threads| == |x.number| && OrderOk(s, x) && p < |x.order| && s'.count == s.count - 1
    requires forall u :: 0 <= u < |s.threads| ==>
      ((s'.threads[u].Numbered() || Member(s', u)) <==> u != x.order[p] && (s.threads[u].Numbered() || Member(s, u)))
    ensures OrderOk(s', x.(order := Without(x.order, p)))
  {
    WithoutOne(x.order, p);
    var order := Without(x.order, p);
    forall q | 0 <= q < |order| ensures order[q] < |s'.threads| && q + 1 <= x.number[order[q]] {
      assert order[q] == x.order[if q < p then q else q + 1];
    }
  }

  /** Giving a number back moves the later holders down; their numbers stay large enough. */
  lemma GiveBackStep(s: State, t: nat, granted: bool, x: Notes) returns (x': Notes)
    requires Good(s, x) && Enabled(s, Run(t, granted)) && (s.threads[t].GivingUp? || s.threads[t].Unmaking?)
    ensures Good(RunThread(s, t, granted), x')
    ensures KeepsProducers(x, x')
  {
    var s' := RunThread(s, t, granted);
    assert ThreadOk(s, x, t);
    assert t in x.order;
    var p :| 0 <= p < |x.order| && x.order[p] == t;
    x' := x.(order := Without(x.order, p));
    MoveKeepsTables(s, s', x, x', t);
    MoveKeepsThreads(s, s', x, x', t);
    OrderWithout(s, s', x, p);
    assert LockOk(s');
  }

  lemma MakingStep(s: State, t: nat, x: Notes) returns (x': Notes)
    requires Good(s, x) && Enabled(s, Run(t, true)) && s.threads[t].Making?
    ensures Good(RunThread(s, t, true), x')
    ensures KeepsProducers(x, x')
  {
    var s' := RunThread(s, t, true);
    assert ThreadOk(s, x, t);
    x' := x.(producer := x.producer[t := Some(s.made)]);
    MoveKeepsTables(s, s', x, x', t);
    MoveKeepsThreads(s, s', x, x', t);
    assert OrderOk(s', x') && LockOk(s') && ProducersOk(s', x');
    assert !Present(s.tables[s.threads[t].main], t);
    assert ThreadOk(s', x', t);
  }

  /* ---------- Steps that change the tables ---------- */

  lemma {:induction false} GrownEnough(capacity: nat, n: int)
    requires capacity > 0
    ensures Grown(capacity, n) >= capacity && n < Grown(capacity, n) / 2
    decreases 2 * n + 2 - capacity
  {
    if n >= capacity / 2 {
      GrownEnough(2 * capacity, n);
    }
  }

  lemma {:induction false} GrownRounded(capacity: nat, n: int)
    requires capacity > 0 && capacity % 4 == 0
    ensures Grown(capacity, n) % 4 == 0
    decreases 2 * n + 2 - capacity
  {
    if n >= capacity / 2 {
      GrownRounded(2 * capacity, n);
    }
  }

  lemma PublishMembers(s: State, s': State)
    requires |s'.tables| == |s.tables| + 1 && s'.tables[..|s.tables|] == s.tables
    requires forall slot :: 0 <= slot < |s'.tables[|s.tables|].keys| ==> s'.tables[|s.tables|].keys[slot] == None
    ensures forall u, i :: 0 <= i < |s'.tables| ==>
      (Present(s'.tables[i], u) <==> i < |s.tables| && Present(s.tables[i], u))
    ensures forall u :: Member(s', u) <==> Member(s, u)
  {
    forall i | 0 <= i < |s.tables| ensures s'.tables[i] == s.tables[i] {
      assert s'.tables[i] == s'.tables[..|s.tables|][i];
    }
    forall u ensures Member(s', u) <==> Member(s, u) {
      if Member(s, u) {
        var i :| 0 <= i < |s.tables| && Present(s.tables[i], u);
        assert Present(s'.tables[i], u);
      }
    }
  }

  /** Thread `t`, holding the lock, has published an empty table of capacity `size`. */
  ghost predicate Published(s: State, s': State, t: nat, size: nat) {
    && t < |s.threads| == |s'.threads| && s.threads[t].Allocating? && |s.tables| > 0
    && s' == s.(tables := s.tables + [EmptyTable(size, Some(|s.tables| - 1))], current := |s.tables|,
                threads := s.threads[t := s'.threads[t]])
    && s'.threads[t] == Unlocking(|s.tables|, s.threads[t].n)
  }

  lemma PublishedTables(s: State, s': State, x: Notes, t: nat, size: nat, i: nat)
    requires Good(s, x) && Published(s, s', t, size) && i < |s'.tables|
    requires size % 4 == 0 && size > Capacity(s.tables[|s.tables| - 1])
    ensures TableOk(s', x, i)
  {
    if i < |s.tables| {
      assert TableOk(s, x, i) && s'.tables[i] == s.tables[i];
      forall slot | 0 <= slot < |s.tables[i].keys| ensures SlotOk(s', x, i, slot) {
        assert SlotOk(s, x, i, slot);
      }
    }
  }

  lemma PublishedThread(s: State, s': State, x: Notes, t: nat, size: nat, u: nat)
    requires Good(s, x) && Published(s, s', t, size) && u < |s.threads| && size > 0
    ensures ThreadOk(s', x, u)
  {
    PublishMembers(s, s');
    assert ThreadOk(s, x, u);
    assert u != t ==> !s.threads[u].HoldsLock();
  }

  lemma PublishStep(s: State, t: nat, x: Notes)
    requires Good(s, x) && Enabled(s, Run(t, true)) && s.threads[t].Allocating?
    ensures Good(RunThread(s, t, true), x)
  {
    var s' := RunThread(s, t, true);
    var size := PublishSize(s, t, x);
    PublishMembers(s, s');
    forall i | 0 <= i < |s'.tables| ensures TableOk(s', x, i) {
      PublishedTables(s, s', x, t, size, i);
    }
    forall u | 0 <= u < |s'.threads| ensures ThreadOk(s', x, u) {
      PublishedThread(s, s', x, t, size, u);
    }
    assert OrderOk(s', x) && LockOk(s');
  }

  lemma PublishSize(s: State, t: nat, x: Notes) returns (size: nat)
    requires Good(s, x) && Enabled(s, Run(t, true)) && s.threads[t].Allocating?
    ensures Published(s, RunThread(s, t, true), t, size)
    ensures size % 4 == 0 && size > Capacity(s.tables[|s.tables| - 1])
  {
    var c := s.threads[t];
    assert ThreadOk(s, x, t) && TableOk(s, x, c.main);
    size := Grown(2 * Capacity(s.tables[c.main]), c.n);
    GrownEnough(2 * Capacity(s.tables[c.main]), c.n);
    GrownRounded(2 * Capacity(s.tables[c.main]), c.n);
  }

  /** Table `main` has gained thread `t`'s key at `slot`. */
  ghost predicate KeySet(s: State, s': State, main: nat, slot: nat, t: nat) {
    && main < |s.tables| && slot < |s.tables[main].keys| && s.tables[main].keys[slot] == None
    && t < |s.threads| == |s'.threads|
    && s' == s.(tables := SetKey(s, main, slot, t), threads := s.threads[t := s'.threads[t]])
  }

  lemma KeySetPresence(s: State, s': State, main: nat, slot: nat, t: nat)
    requires |s'.threads| == |s.threads| && KeySet(s, s', main, slot, t)
    ensures |s'.tables| == |s.tables|
    ensures forall u, i :: 0 <= i < |s.tables| ==>
      (Present(s'.tables[i], u) <==> Present(s.tables[i], u) || (u == t && i == main))
    ensures forall u :: Member(s', u) <==> Member(s, u) || u == t
  {
    forall u, i | 0 <= i < |s.tables|
      ensures Present(s'.tables[i], u) <==> Present(s.tables[i], u) || (u == t && i == main)
    {
      if i == main {
        assert s'.tables[main].keys[slot] == Some(t);
        if Present(s.tables[i], u) {
          var a :| 0 <= a < |s.tables[i].keys| && s.tables[i].keys[a] == Some(u);
          assert s'.tables[i].keys[a] == Some(u);
        }
      }
    }
    forall u ensures Member(s', u) <==> Member(s, u) || u == t {
      if Member(s, u) {
        var i :| 0 <= i < |s.tables| && Present(s.tables[i], u);
        assert Present(s'.tables[i], u);
      }
      assert Present(s'.tables[main], t);
    }
  }

  lemma KeySetPath(tb: Table, tb': Table, slot: nat, t: nat, hash: nat, k: nat, u: nat)
    requires Capacity(tb) > 0 && slot < |tb.keys| && tb.keys[slot] == None
    requires tb' == tb.(keys := tb.keys[slot := Some(t)])
    requires PathTaken(tb, hash, k, u)
    ensures PathTaken(tb', hash, k, u)
  {}

  lemma KeySetTable(s: State, s': State, x: Notes, main: nat, slot: nat, k: nat, t: nat, i: nat)
    requires Good(s, x) && |s'.threads| == |s.threads| && KeySet(s, s', main, slot, t) && i < |s.tables|
    requires PathOk(s, main, k, t) && slot == Slot(s.hashes[t], k, Capacity(s.tables[main]))
    requires x.number[t] < Limit(s.tables[main]) && x.producer[t].Some? && Unset(s', main, slot, t)
    requires !s.threads[t].CopyingValue? && !s.threads[t].PlacingValue?
    ensures TableOk(s', x, i)
  {
    assert TableOk(s, x, i);
    var tb, tb' := s.tables[i], s'.tables[i];
    forall a | 0 <= a < |tb'.keys| ensures SlotOk(s', x, i, a) {
      assert SlotOk(s, x, i, a);
      if tb.keys[a].Some? {
        var u := tb.keys[a].value;
        var k' :| 0 <= k' && Slot(s.hashes[u], k', Capacity(tb)) == a && PathTaken(tb, s.hashes[u], k', u);
        if i == main {
          KeySetPath(tb, tb', slot, t, s.hashes[u], k', u);
        }
      } else if i == main && a == slot {
        KeySetPath(tb, tb', slot, t, s.hashes[t], k, t);
        assert OnPath(tb', s.hashes[t], slot, t);
      }
    }
    forall a, b | 0 <= a < b < |tb'.keys| && tb'.keys[a].Some? ensures tb'.keys[a] != tb'.keys[b] {
      assert !Present(s.tables[main], t);
    }
  }

  lemma KeySetThread(s: State, s': State, x: Notes, main: nat, slot: nat, t: nat, u: nat)
    requires Good(s, x) && |s'.threads| == |s.threads| && KeySet(s, s', main, slot, t) && u < |s.threads| && u != t
    ensures ThreadOk(s', x, u)
  {
    assert ThreadOk(s, x, u);
    KeySetPresence(s, s', main, slot, t);
    var c := s.threads[u];
    if c.Searching? && c.at == main {
      KeySetPath(s.tables[main], s'.tables[main], slot, t, s.hashes[u], c.k, u);
    }
    if (c.Copying? || c.CopyingKey? || c.Placing? || c.PlacingKey?) && c.main == main {
      KeySetPath(s.tables[main], s'.tables[main], slot, t, s.hashes[u], c.k, u);
    }
  }

  lemma {:induction false} LimitsGrow(s: State, x: Notes, i: nat, j: nat)
    requires Good(s, x) && i <= j < |s.tables|
    ensures Limit(s.tables[i]) <= Limit(s.tables[j])
  {
    if i < j {
      assert TableOk(s, x, j);
      LimitsGrow(s, x, i, j - 1);
    }
  }

  /** A key already in a smaller table may be copied: its thread's number is below every later limit. */
  lemma CopyWithinLimit(s: State, x: Notes, main: nat, t: nat)
    requires Good(s, x) && t < |s.threads| && main < |s.tables| && PresentBelow(s, t, main)
    ensures x.number[t] < Limit(s.tables[main])
  {
    var i :| 0 <= i < main && i < |s.tables| && Present(s.tables[i], t);
    var slot :| 0 <= slot < |s.tables[i].keys| && s.tables[i].keys[slot] == Some(t);
    assert TableOk(s, x, i) && SlotOk(s, x, i, slot);
    LimitsGrow(s, x, i, main);
  }

  lemma InsertStep(s: State, t: nat, granted: bool, x: Notes)
    requires Good(s, x) && Enabled(s, Run(t, granted)) && (s.threads[t].CopyingKey? || s.threads[t].PlacingKey?)
    requires var c := s.threads[t]; s.tables[c.main].keys[Slot(s.hashes[t], c.k, Capacity(s.tables[c.main]))] == None
    ensures Good(RunThread(s, t, granted), x)
  {
    var s' := RunThread(s, t, granted);
    var c := s.threads[t];
    var slot := Slot(s.hashes[t], c.k, Capacity(s.tables[c.main]));
    assert ThreadOk(s, x, t);
    if c.CopyingKey? {
      CopyWithinLimit(s, x, c.main, t);
    }
    KeySetPresence(s, s', c.main, slot, t);
    forall i | 0 <= i < |s'.tables| ensures TableOk(s', x, i) {
      KeySetTable(s, s', x, c.main, slot, c.k, t, i);
    }
    forall u | 0 <= u < |s'.threads| ensures ThreadOk(s', x, u) {
      if u != t {
        KeySetThread(s, s', x, c.main, slot, t, u);
      }
    }
    assert OrderOk(s', x) && LockOk(s');
  }

  lemma StorePresence(s: State, s': State, i: nat, slot: nat, v: nat)
    requires i < |s.tables| && slot < |s.tables[i].values| && s'.tables == SetValue(s, i, slot, v)
    ensures forall j :: 0 <= j < |s.tables| ==>
      s'.tables[j].keys == s.tables[j].keys && s'.tables[j].prev == s.tables[j].prev
    ensures forall u, j :: 0 <= j < |s.tables| ==> (Present(s'.tables[j], u) <==> Present(s.tables[j], u))
    ensures forall u :: Member(s', u) <==> Member(s, u)
  {
    forall u, j | 0 <= j < |s.tables| ensures Present(s'.tables[j], u) <==> Present(s.tables[j], u) {
      assert s'.tables[j].keys == s.tables[j].keys;
    }
    forall u ensures Member(s', u) <==> Member(s, u) {
      assert forall j :: 0 <= j < |s.tables| ==> (Present(s'.tables[j], u) <==> Present(s.tables[j], u));
    }
  }

  lemma StoreTable(s: State, t: nat, granted: bool, x: Notes, i: nat)
    requires Good(s, x) && Enabled(s, Run(t, granted)) && (s.threads[t].CopyingValue? || s.threads[t].PlacingValue?)
    requires i < |s.tables|
    ensures TableOk(RunThread(s, t, granted), x, i)
  {
    var s' := RunThread(s, t, granted);
    assert ThreadOk(s, x, t) && TableOk(s, x, i);
    forall slot | 0 <= slot < |s.tables[i].keys| ensures SlotOk(s', x, i, slot) {
      assert SlotOk(s, x, i, slot);
    }
    assert i > 0 ==> TableOk(s, x, i - 1);
  }

  /** What is said of another thread depends on the keys alone. */
  lemma StoreOtherThread(s: State, s': State, x: Notes, t: nat, i: nat, slot: nat, v: nat, u: nat)
    requires Good(s, x) && i < |s.tables| && slot < |s.tables[i].values| && s'.tables == SetValue(s, i, slot, v)
    requires t < |s.threads| == |s'.threads| && s' == s.(tables := s'.tables, threads := s.threads[t := s'.threads[t]])
    requires u < |s.threads| && u != t
    ensures ThreadOk(s', x, u)
  {
    StorePresence(s, s', i, slot, v);
    var c := s.threads[u];
    assert ThreadOk(s, x, u);
    if c.Searching? {
      assert s'.tables[c.at].keys == s.tables[c.at].keys;
    } else if c.Copying? || c.CopyingKey? || c.CopyingValue? || c.Making? || c.Placing? || c.PlacingKey?
      || c.PlacingValue? {
      assert s'.tables[c.main].keys == s.tables[c.main].keys;
    }
  }

  lemma StoreThread(s: State, t: nat, granted: bool, x: Notes, u: nat)
    requires Good(s, x) && Enabled(s, Run(t, granted)) && (s.threads[t].CopyingValue? || s.threads[t].PlacingValue?)
    requires u < |s.threads|
    ensures ThreadOk(RunThread(s, t, granted), x, u)
    ensures Member(RunThread(s, t, granted), u) <==> Member(s, u)
  {
    var s' := RunThread(s, t, granted);
    var c := s.threads[t];
    assert ThreadOk(s, x, t);
    if u == t {
      StorePresence(s, s', c.main, c.slot, c.value);
    } else {
      StoreOtherThread(s, s', x, t, c.main, c.slot, c.value, u);
      StorePresence(s, s', c.main, c.slot, c.value);
    }
  }

  lemma StoreStep(s: State, t: nat, granted: bool, x: Notes)
    requires Good(s, x) && Enabled(s, Run(t, granted)) && (s.threads[t].CopyingValue? || s.threads[t].PlacingValue?)
    ensures Good(RunThread(s, t, granted), x)
  {
    var s' := RunThread(s, t, granted);
    forall i | 0 <= i < |s'.tables| ensures TableOk(s', x, i) {
      StoreTable(s, t, granted, x, i);
    }
    forall u | 0 <= u < |s'.threads| ensures ThreadOk(s', x, u) && (Member(s', u) <==> Member(s, u)) {
      StoreThread(s, t, granted, x, u);
    }
    assert OrderOk(s', x) && LockOk(s');
  }
}
