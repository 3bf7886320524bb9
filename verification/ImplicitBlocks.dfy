/** The producer's steps on blocks, its publishing and its undoing, and the steps of other producers
    keep the implicit queue's invariant. */
module ImplicitBlocks {
  import opened Basics
  import opened Words
  import opened ImplicitQueue
  import opened ImplicitFrames
  import opened ImplicitProducing

  /** A block that belongs to a block number. */
  predicate Numbered(s: State, o: Owner) {
    o.InUse? || o.Leaving? || (o == GivenUp && TakingBack(s))
  }

  /** A step on nothing but blocks that belong to no number. */
  lemma BlocksStep(s: State, s': State, f: Facts, f': Facts)
    requires Sound(s, f) && f' == f.(owners := f'.owners)
    requires s' == s.(blocks := s'.blocks, free := s'.free, others := s'.others, producer := s'.producer)
    requires |s.blocks| <= |s'.blocks| == |f'.owners|
    requires forall b :: 0 <= b < |s.blocks| && Numbered(s, f.owners[b]) ==>
      f'.owners[b] == f.owners[b] && s'.blocks[b] == s.blocks[b]
    requires forall b :: 0 <= b < |s'.blocks| ==> |s'.blocks[b].cells| == BLOCK_SIZE
    requires forall b :: b in s'.free || b in s'.others ==> b < |s'.blocks|
    requires forall b :: 0 <= b < |s'.blocks| ==> BlockOk(s', f', b)
    requires ProducerOk(s', f')
    ensures Sound(s', f')
  {
    forall b | 0 <= b < |f.infos| ensures InfoOk(s', f', b) {
      assert InfoOk(s, f, b);
      if !TakingBack(s) {
        NoneDropped(s, f, b);
      }
      KeepNumber(s.index, f.note, f.infos[b], b, f.owners, s.blocks, s.log, s.head, s.consumers,
                 s'.index, f'.note, f'.owners, s'.blocks, s'.head, s'.consumers);
    }
    KeepThreads(s, s', f, f');
  }

  /** The owners after block `b`, perhaps a new one, changes hands. */
  function Passed(owners: seq<Owner>, b: nat, o: Owner): seq<Owner>
    requires b <= |owners|
  {
    if b < |owners| then owners[b := o] else owners + [o]
  }

  lemma RequisitioningStep(s: State, f: Facts, choice: Choice)
    requires Good(s, f) && CanProduce(s, choice) && s.producer.Requisitioning?
    ensures exists f' :: Good(ApplyProduce(s, choice), f')
  {
    var s' := ApplyProduce(s, choice);
    match choice.block
    case None =>
      ControlStep(s, s', f);
      assert Good(s', f);
    case Some(b) =>
      AcquireStep(s, f, choice, b);
  }

  lemma AcquireStep(s: State, f: Facts, choice: Choice, b: nat)
    requires Good(s, f) && CanProduce(s, choice) && s.producer.Requisitioning? && choice.block == Some(b)
    ensures b <= |s.blocks| && Good(ApplyProduce(s, choice), f.(owners := Passed(f.owners, b, Acquired)))
  {
    assert b < |s.blocks| ==> BlockOk(s, f, b);
    AcquireBlocks(s, f, choice, b);
    BlocksStep(s, ApplyProduce(s, choice), f, f.(owners := Passed(f.owners, b, Acquired)));
  }

  lemma AcquireBlocks(s: State, f: Facts, choice: Choice, b: nat)
    requires Sound(s, f) && CanProduce(s, choice) && s.producer.Requisitioning? && choice.block == Some(b)
    ensures b <= |s.blocks|
    ensures var s', f' := ApplyProduce(s, choice), f.(owners := Passed(f.owners, b, Acquired));
      Shaped(s', f') && forall c :: 0 <= c < |s'.blocks| ==> BlockOk(s', f', c)
  {
    var s', f' := ApplyProduce(s, choice), f.(owners := Passed(f.owners, b, Acquired));
    assert b < |s.blocks| ==> BlockOk(s, f, b);
    forall c | 0 <= c < |s'.blocks| ensures BlockOk(s', f', c) {
      assert c < |s.blocks| ==> BlockOk(s, f, c);
    }
  }

  lemma ResettingStep(s: State, f: Facts, choice: Choice)
    requires Good(s, f) && CanProduce(s, choice) && s.producer.Resetting?
    ensures Good(ApplyProduce(s, choice), f)
  {
    var s' := ApplyProduce(s, choice);
    forall c | 0 <= c < |s'.blocks| ensures BlockOk(s', f, c) {
      assert BlockOk(s, f, c);
    }
    BlocksStep(s, s', f, f);
  }

  lemma ReturningStep(s: State, f: Facts, choice: Choice)
    requires Good(s, f) && CanProduce(s, choice) && s.producer.Returning?
    ensures exists f' :: Good(ApplyProduce(s, choice), f')
  {
    var s' := ApplyProduce(s, choice);
    var bs := s.producer.blocks;
    if |bs| == 0 {
      ControlStep(s, s', f);
      assert Good(s', f);
    } else {
      var f' := f.(owners := f.owners[bs[0] := Pooled]);
      forall c | 0 <= c < |s'.blocks| ensures BlockOk(s', f', c) {
        assert BlockOk(s, f, c);
      }
      BlocksStep(s, s', f, f');
      assert Good(s', f');
    }
  }

  /* ---------- Other producers ---------- */

  /** The owners after another producer takes, puts back or writes a block. */
  function ElsewhereFacts(s: State, f: Facts, step: Step): Facts
    requires Enabled(s, step) && (step.TakeElsewhere? || step.PutElsewhere? || step.WriteElsewhere?)
    requires step.b <= |f.owners|
  {
    f.(owners := Passed(f.owners, step.b, if step.PutElsewhere? then Pooled else Elsewhere))
  }

  lemma ElsewhereBlocks(s: State, f: Facts, step: Step)
    requires Sound(s, f) && Enabled(s, step) && (step.TakeElsewhere? || step.PutElsewhere? || step.WriteElsewhere?)
    ensures step.b <= |s.blocks| && Shaped(Apply(s, step), ElsewhereFacts(s, f, step))
    ensures forall c :: 0 <= c < |Apply(s, step).blocks| ==> BlockOk(Apply(s, step), ElsewhereFacts(s, f, step), c)
  {
    var s' := Apply(s, step);
    assert step.b < |s.blocks| ==> BlockOk(s, f, step.b);
    forall c | 0 <= c < |s'.blocks| ensures BlockOk(s', ElsewhereFacts(s, f, step), c) {
      assert c < |s.blocks| ==> BlockOk(s, f, c);
    }
  }

  lemma ElsewhereStep(s: State, f: Facts, step: Step)
    requires Good(s, f) && Enabled(s, step) && (step.TakeElsewhere? || step.PutElsewhere? || step.WriteElsewhere?)
    ensures exists f' :: Good(Apply(s, step), f')
  {
    ElsewhereBlocks(s, f, step);
    ElsewhereProducer(s, f, step);
    var s', f' := Apply(s, step), ElsewhereFacts(s, f, step);
    assert step.b < |s.blocks| ==> BlockOk(s, f, step.b);
    BlocksStep(s, s', f, f');
    assert Good(s', f');
  }

  lemma ElsewhereProducer(s: State, f: Facts, step: Step)
    requires Sound(s, f) && Enabled(s, step) && (step.TakeElsewhere? || step.PutElsewhere? || step.WriteElsewhere?)
    requires step.b <= |s.blocks| && Shaped(Apply(s, step), ElsewhereFacts(s, f, step))
    ensures ProducerOk(Apply(s, step), ElsewhereFacts(s, f, step))
  {
    assert step.b < |s.blocks| ==> BlockOk(s, f, step.b);
    KeepProducer(s, Apply(s, step), f, ElsewhereFacts(s, f, step));
  }
}
