/** A pair's vouch is never both spent and cast in one block: the cooldown stands between. */
module VouchOrder {
  import opened Wrappers
  import opened Sums
  import opened Ledger
  import opened Engine
  import opened Body
  import opened Coinbase
  import opened Decay
  import opened Blocks
  import opened Applying
  import opened Lawful
  import opened Invariant
  import opened BodyRun
  import opened BodyKeeps
  import opened BodyOutcome

  // ---------------------------------------------------------------------------
  // One transaction
  // ---------------------------------------------------------------------------

  /** No cast under an escrow, and an escrow for every vouch withdrawn. */
  ghost predicate CooldownLawful(boxes: Boxes, core: TxCore) {
    && (forall b | b in core.outputs && b.Vouch? ::
          !HoldsEscrow(boxes, b.voucherId) && !HoldsVouch(boxes, b.voucherId, b.targetId))
    && (forall id | id in core.inputs && id in boxes && boxes[id].Vouch? ::
          exists b :: b in core.outputs && b.VouchEscrow? && b.owner == boxes[id].voucherId)
  }

  lemma KarmaCoolsDown(ctx: Ctx, s: State, owed: Owed, core: TxCore, bs: seq<Box>, height: int)
    requires InputsLive(s.boxes, core.inputs) && bs == ValuesAt(s.boxes, core.inputs) && bs != []
    requires InputTypesOk(bs) && (CountOf(bs, IsUsername) > 0 || bs[0].Karma?)
    requires KarmaTransition(ctx, s, owed, core, bs, height).Valid?
    ensures CooldownLawful(s.boxes, core)
  {
    var owner, burns := OwnerOf(bs[0]), CountOf(bs, IsUsername) > 0;
    BranchKinds(ctx, s, owner, core, burns, height);
    CountedExists(core.outputs, IsVouch);
    CountedExists(core.outputs, IsPrice);
    if CountOf(core.outputs, IsVouch) > 0 {
      assert VouchShape(s, owner, core.outputs, height);
      CountedOnce(core.outputs, IsVouch);
    }
    KarmaArmInputs(bs);
    ValuesInRange(s.boxes, core.inputs, bs);
  }

  lemma OtherArmsCoolDown(ctx: Ctx, s: State, owed: Owed, tx: Tx, bs: seq<Box>, height: int)
    requires InputsLive(s.boxes, tx.core.inputs) && bs == ValuesAt(s.boxes, tx.core.inputs) && bs != []
    requires InputTypesOk(bs) && CountOf(bs, IsUsername) == 0 && !bs[0].Karma?
    requires Transition(ctx, s, owed, tx, bs, height).Valid?
    ensures CooldownLawful(s.boxes, tx.core)
  {
    NoUsernameOneType(bs);
    ValuesInRange(s.boxes, tx.core.inputs, bs);
    if bs[0].Vouch? {
      assert tx.core.outputs[0] in tx.core.outputs;
      assert forall b | b in bs :: b == bs[0];
    }
  }

  lemma ValidCoolsDown(ctx: Ctx, s: State, owed: Owed, tx: Tx, height: int)
    requires ValidateTx(ctx, s, owed, tx, height).Valid?
    ensures CooldownLawful(s.boxes, tx.core)
  {
    var bs := ValuesAt(s.boxes, tx.core.inputs);
    if CountOf(bs, IsUsername) > 0 || bs[0].Karma? {
      KarmaCoolsDown(ctx, s, owed, tx.core, bs, height);
    } else {
      OtherArmsCoolDown(ctx, s, owed, tx, bs, height);
    }
  }

  // ---------------------------------------------------------------------------
  // The body
  // ---------------------------------------------------------------------------

  ghost predicate SpentVouchEscrowed(before: Boxes, done: seq<TxCore>, now: Boxes, id: BoxId) {
    id in InputsOf(done) && Sourced(before, done, id) && Content(before, id).Vouch? ==>
      HoldsEscrow(now, Content(before, id).voucherId)
  }

  ghost predicate CastIsFirst(before: Boxes, done: seq<TxCore>, id: BoxId) {
    IsCreated(done, id) && id.creator.outputs[id.index].Vouch? ==>
      !HoldsVouch(before, id.creator.outputs[id.index].voucherId, id.creator.outputs[id.index].targetId)
  }

  /** Every vouch the body spent left an escrow; every vouch it cast is its pair's first since before it. */
  ghost predicate Cooling(before: Boxes, done: seq<TxCore>, now: Boxes) {
    && (forall id :: SpentVouchEscrowed(before, done, now, id))
    && (forall id :: CastIsFirst(before, done, id))
  }

  lemma NotAnOutput(boxes: Boxes, core: TxCore, id: BoxId)
    requires FreshFrom(core, 0, boxes.Keys) && id in boxes
    ensures id !in OutputsFrom(core, 0)
  {
    if id.Out? {
      assert id == Out(id.creator, id.index);
    }
  }

  lemma EscrowStays(boxes: Boxes, core: TxCore, voucher: Key)
    requires Spendable(boxes, core) && HoldsEscrow(boxes, voucher) && FreshFrom(core, 0, boxes.Keys)
    ensures HoldsEscrow(AfterTx(boxes, core), voucher)
  {
    var id :| id in boxes && boxes[id].VouchEscrow? && boxes[id].owner == voucher;
    assert id in core.inputs ==> UserSpendable(boxes[id]);
    NotAnOutput(boxes, core, id);
    assert id in AfterTx(boxes, core) && AfterTx(boxes, core)[id] == boxes[id];
  }

  lemma EscrowMade(boxes: Boxes, core: TxCore, voucher: Key)
    requires exists b :: b in core.outputs && b.VouchEscrow? && b.owner == voucher
    ensures HoldsEscrow(AfterTx(boxes, core), voucher)
  {
    var b :| b in core.outputs && b.VouchEscrow? && b.owner == voucher;
    var i :| 0 <= i < |core.outputs| && core.outputs[i] == b;
    assert Out(core, i) in OutputsFrom(core, 0) && Out(core, i) in AfterTx(boxes, core);
  }

  lemma StaysEscrowed(before: Boxes, applied: set<TxCore>, done: seq<TxCore>, now: Boxes, taken: set<BoxId>,
    core: TxCore, id: BoxId)
    requires AllNew(before, applied, done, now, taken) && BoxesTraced(before, done, now)
    requires Spendable(now, core) && CooldownLawful(now, core) && SpentVouchEscrowed(before, done, now, id)
    ensures SpentVouchEscrowed(before, done + [core], AfterTx(now, core), id)
  {
    InputsOfSnoc(done, core);
    NewCore(before, applied, done, now, taken, core);
    assert Traced(before, done, now, id);
    if id in InputsOf(done) && Sourced(before, done, id) && Content(before, id).Vouch? {
      EscrowStays(now, core, Content(before, id).voucherId);
    } else if id in core.inputs && now[id].Vouch? {
      EscrowMade(now, core, now[id].voucherId);
    }
    assert id in InputsOf(done) ==> SpentLawfully(before, done, id);
  }

  lemma StaysFirst(before: Boxes, done: seq<TxCore>, now: Boxes, core: TxCore, id: BoxId)
    requires BoxesTraced(before, done, now) && CooldownLawful(now, core)
    requires (forall j :: SpentVouchEscrowed(before, done, now, j)) && CastIsFirst(before, done, id)
    ensures CastIsFirst(before, done + [core], id)
  {
    CreatedSnoc(done, core, id);
    if id in OutputsFrom(core, 0) && core.outputs[id.index].Vouch? {
      var v, t := core.outputs[id.index].voucherId, core.outputs[id.index].targetId;
      assert core.outputs[id.index] in core.outputs;
      forall j | j in before ensures !(before[j].Vouch? && before[j].voucherId == v && before[j].targetId == t) {
        assert Traced(before, done, now, j) && SpentVouchEscrowed(before, done, now, j);
      }
    }
  }

  lemma StaysCooling(before: Boxes, applied: set<TxCore>, done: seq<TxCore>, now: Boxes, taken: set<BoxId>,
    core: TxCore)
    requires AllNew(before, applied, done, now, taken) && BoxesTraced(before, done, now)
    requires Spendable(now, core) && CooldownLawful(now, core) && Cooling(before, done, now)
    ensures Cooling(before, done + [core], AfterTx(now, core))
  {
    forall id ensures SpentVouchEscrowed(before, done + [core], AfterTx(now, core), id) {
      StaysEscrowed(before, applied, done, now, taken, core, id);
    }
    forall id ensures CastIsFirst(before, done + [core], id) {
      StaysFirst(before, done, now, core, id);
    }
  }

  lemma CoolingStep(
    ctx: Ctx, o: Origin, done: seq<TxCore>, s: State, acc: Acc, tx: Tx, owed: Owed, height: int, next: (State, Acc))
    requires Mid(o, done, s, acc) && Cooling(o.start.boxes, done, s.boxes)
    requires ApplyQueuedTx(ctx, s, owed, tx, height, acc) == Done(next)
    ensures Cooling(o.start.boxes, done + [tx.core], next.0.boxes)
  {
    QueuedDone(ctx, s, acc, tx, owed, height, next);
    ValidIsLawful(ctx, s, owed, tx, height);
    ValidCoolsDown(ctx, s, owed, tx, height);
    LawfulIsSpendable(s, tx.core);
    BoxesAfter(ctx, o, done, s, acc, tx, height, next);
    StaysCooling(o.start.boxes, o.applied, done, s.boxes, acc.taken, tx.core);
  }

  lemma BoxesAfter(ctx: Ctx, o: Origin, done: seq<TxCore>, s: State, acc: Acc, tx: Tx, height: int, next: (State, Acc))
    requires Mid(o, done, s, acc) && InputsLawful(s, tx.core) && OutputsLawful(s, tx.core)
    requires ApplyTx(s, acc.taken, tx.core).Some?
    requires tx.core.payload.Like? ==> tx.core.payload.target in ApplyTx(s, acc.taken, tx.core).value.posts
    requires var bs := ValuesAt(s.boxes, tx.core.inputs);
      next == Settle(ctx, ApplyTx(s, acc.taken, tx.core).value, AccBefore(acc, s, tx, bs), tx.core, bs, height)
    ensures next.0.boxes == AfterTx(s.boxes, tx.core)
  {
    var bs := ValuesAt(s.boxes, tx.core.inputs);
    RecordsStep(o, done, s, acc, tx.core, bs, height);
    SettleFrame(ctx, ApplyTx(s, acc.taken, tx.core).value, AccBefore(acc, s, tx, bs), tx.core, bs, height);
  }

  /** The middle of a body that has cooled down so far. */
  ghost predicate MidCooling(o: Origin, done: seq<TxCore>, s: State, acc: Acc) {
    Mid(o, done, s, acc) && Cooling(o.start.boxes, done, s.boxes)
  }

  lemma {:induction false} QueueCools(
    ctx: Ctx, o: Origin, done: seq<TxCore>, s: State, acc: Acc, owed: Owed, queue: seq<Tx>, height: int,
    all: seq<TxCore>)
    requires MidCooling(o, done, s, acc) && InputsOf(CoresOf(queue)) <= o.inputs && all == done + CoresOf(queue)
    requires TouchedOwners(o.start.boxes, o.inputs) <= owed.Keys
    ensures CooledOut(o, all, ApplyQueue(ctx, s, owed, queue, height, acc))
    decreases |queue|, 1
  {
    if queue == [] {
      assert all == done;
    } else {
      var first := CooledFirst(ctx, o, done, s, acc, owed, queue, height);
      TailCores(done, queue, all);
      CooledRest(ctx, o, done + [queue[0].core], first, owed, queue[1..], height, all);
    }
  }

  lemma TailCores(done: seq<TxCore>, queue: seq<Tx>, all: seq<TxCore>)
    requires queue != [] && all == done + CoresOf(queue)
    ensures all == done + [queue[0].core] + CoresOf(queue[1..])
  {
  }

  ghost predicate CooledOut(o: Origin, all: seq<TxCore>, out: Outcome<(State, Acc)>) {
    out.Done? ==> Cooling(o.start.boxes, all, out.value.0.boxes)
  }

  lemma CooledFirst(
    ctx: Ctx, o: Origin, done: seq<TxCore>, s: State, acc: Acc, owed: Owed, queue: seq<Tx>, height: int)
    returns (first: Outcome<(State, Acc)>)
    requires queue != [] && MidCooling(o, done, s, acc) && InputsOf(CoresOf(queue)) <= o.inputs
    requires TouchedOwners(o.start.boxes, o.inputs) <= owed.Keys
    ensures ApplyQueue(ctx, s, owed, queue, height, acc) == Continue(ctx, first, owed, queue[1..], height)
    ensures first.Done? ==> MidCooling(o, done + [queue[0].core], first.value.0, first.value.1)
    ensures InputsOf(CoresOf(queue[1..])) <= o.inputs
  {
    assert InputsOf(CoresOf(queue)) == Members(queue[0].core.inputs) + InputsOf(CoresOf(queue[1..]));
    first := QueueFirst(ctx, o, done, s, acc, queue[0], owed, height);
    if first.Done? {
      CoolingStep(ctx, o, done, s, acc, queue[0], owed, height, first.value);
    }
  }

  lemma {:induction false} CooledRest(
    ctx: Ctx, o: Origin, done: seq<TxCore>, first: Outcome<(State, Acc)>, owed: Owed, rest: seq<Tx>, height: int,
    all: seq<TxCore>)
    requires first.Done? ==> MidCooling(o, done, first.value.0, first.value.1)
    requires InputsOf(CoresOf(rest)) <= o.inputs && TouchedOwners(o.start.boxes, o.inputs) <= owed.Keys
    requires all == done + CoresOf(rest)
    ensures CooledOut(o, all, Continue(ctx, first, owed, rest, height))
    decreases |rest|, 2
  {
    if first.Done? {
      QueueCools(ctx, o, done, first.value.0, first.value.1, owed, rest, height, all);
    }
  }

  lemma CoolingOpens(boxes: Boxes)
    ensures Cooling(boxes, [], boxes)
  {
    forall id ensures SpentVouchEscrowed(boxes, [], boxes, id) && CastIsFirst(boxes, [], id) {
    }
  }
}
