/** The backer pool after the settlement: it counts every live stake and can pay what each accrued. */
module SettledBackers {
  import opened Wrappers
  import opened Sums
  import opened Orders
  import opened Ledger
  import opened Engine
  import opened Body
  import opened Coinbase
  import opened Queries
  import opened Decay
  import opened Settlement
  import opened Blocks
  import opened Applying
  import opened Lawful
  import opened Invariant
  import opened BodyRun
  import opened BodyKeeps
  import opened BodyOutcome
  import opened AfterBody
  import opened SettleInputs
  import opened SettleSums
  import opened SettleBalance
  import opened SettleShape
  import opened SettlePlaces
  import opened SettledBoxes
  import opened SettledState

  // ---------------------------------------------------------------------------
  // Totals
  // ---------------------------------------------------------------------------

  /** The settlement's effect on any total, from its inputs' and outputs' own. */
  lemma SettledTotal(boxes: Boxes, core: TxCore, d: Derived, tail: seq<Box>, w: Box -> int)
    requires core.inputs == Ids(d.inputs) && core.outputs == d.outputs + tail
    requires LiveList(boxes, d.inputs) && FreshFrom(core, 0, boxes.Keys)
    ensures MapSum(AfterTx(boxes, core), w) == MapSum(boxes, w) - LiveSum(d.inputs, w) + SeqSum(d.outputs, w)
      + SeqSum(tail, w)
  {
    LiveSumIs(boxes, d.inputs, w);
    AfterTxSum(boxes, core, w);
    SeqSumConcat(d.outputs, tail, w);
  }

  lemma TailTotals(d: Derived, height: nat, tail: seq<Box>)
    requires CoinbaseOk(d, height, tail)
    ensures SeqSum(tail, KarmaWeight()) == 0
    ensures SeqSum(tail, CreditWeight()) == d.minerSlice
    ensures SeqSum(tail, WeightOf()) == 0
  {
    if d.minerSlice > 0 {
      assert tail == [tail[0]];
      OneBox(tail[0], KarmaWeight());
      OneBox(tail[0], CreditWeight());
      OneBox(tail[0], WeightOf());
    }
  }

  /** Karma and credits each come out as they went in; the staked weight falls by what unstakes. */
  lemma SettlementConserves(
    ctx: Ctx, o: Origin, cores: seq<TxCore>, s: State, acc: Acc, height: nat, cap: Captured, body: SettlementBody,
    d: Derived, core: TxCore, tail: seq<Box>)
    requires Deriving(ctx, o, cores, s, acc, height, cap, body)
    requires Derive(ctx, s, cap, height, body) == Some(d) && CoinbaseOk(d, height, tail)
    requires core.inputs == Ids(d.inputs) && core.outputs == d.outputs + tail
    requires FreshFrom(core, 0, s.boxes.Keys)
    ensures KarmaTotal(AfterTx(s.boxes, core)) == KarmaTotal(s.boxes)
    ensures CreditTotal(AfterTx(s.boxes, core)) == CreditTotal(s.boxes)
    ensures WeightTotal(AfterTx(s.boxes, core)) == WeightTotal(s.boxes)
      + WeightDelta(SlicesOf(ctx, s.boxes, cap, height, body).value.backer, body.unstakes)
  {
    DerivedInputsAreLive(ctx, o, cores, s, acc, height, cap, body);
    DerivedBalances(ctx, o, cores, s, acc, height, cap, body, d);
    ConservedFrom(s.boxes, core, d, height, tail);
  }

  lemma ConservedFrom(boxes: Boxes, core: TxCore, d: Derived, height: nat, tail: seq<Box>)
    requires core.inputs == Ids(d.inputs) && core.outputs == d.outputs + tail
    requires LiveList(boxes, d.inputs) && FreshFrom(core, 0, boxes.Keys) && CoinbaseOk(d, height, tail)
    requires LiveSum(d.inputs, KarmaWeight()) == SeqSum(d.outputs, KarmaWeight())
    requires LiveSum(d.inputs, CreditWeight()) == SeqSum(d.outputs, CreditWeight()) + d.minerSlice
    ensures KarmaTotal(AfterTx(boxes, core)) == KarmaTotal(boxes)
    ensures CreditTotal(AfterTx(boxes, core)) == CreditTotal(boxes)
    ensures WeightTotal(AfterTx(boxes, core)) == WeightTotal(boxes) - LiveSum(d.inputs, WeightOf())
      + SeqSum(d.outputs, WeightOf())
  {
    TailTotals(d, height, tail);
    SettledTotals(boxes, core, d, tail);
  }

  lemma SettledTotals(boxes: Boxes, core: TxCore, d: Derived, tail: seq<Box>)
    requires core.inputs == Ids(d.inputs) && core.outputs == d.outputs + tail
    requires LiveList(boxes, d.inputs) && FreshFrom(core, 0, boxes.Keys)
    ensures KarmaTotal(AfterTx(boxes, core)) == KarmaTotal(boxes)
      - LiveSum(d.inputs, KarmaWeight()) + SeqSum(d.outputs, KarmaWeight()) + SeqSum(tail, KarmaWeight())
    ensures CreditTotal(AfterTx(boxes, core)) == CreditTotal(boxes)
      - LiveSum(d.inputs, CreditWeight()) + SeqSum(d.outputs, CreditWeight()) + SeqSum(tail, CreditWeight())
    ensures WeightTotal(AfterTx(boxes, core)) == WeightTotal(boxes)
      - LiveSum(d.inputs, WeightOf()) + SeqSum(d.outputs, WeightOf()) + SeqSum(tail, WeightOf())
  {
    SettledTotal(boxes, core, d, tail, KarmaWeight());
    SettledTotal(boxes, core, d, tail, CreditWeight());
    SettledTotal(boxes, core, d, tail, WeightOf());
  }

  // ---------------------------------------------------------------------------
  // The pool's successor
  // ---------------------------------------------------------------------------

  lemma EmittedIsLive(
    ctx: Ctx, s: State, cap: Captured, height: nat, body: SettlementBody,
    d: Derived, slices: Slices, treasury: Move, backer: Move, legs: Legs, pool: Move, tail: seq<Box>, core: TxCore,
    b: Box) returns (id: BoxId)
    requires ValidCtx(ctx) && Parts(ctx, s, cap, height, body, d, slices, treasury, backer, legs, pool)
    requires core.outputs == d.outputs + tail && b in backer.emitted
    ensures id in AfterTx(s.boxes, core) && AfterTx(s.boxes, core)[id] == b
  {
    assert b in d.outputs;
    var i :| 0 <= i < |d.outputs| && d.outputs[i] == b;
    id := Out(core, i);
    assert id in OutputsFrom(core, 0) && core.outputs[i] == b;
  }

  lemma ActivePoolSound(ctx: Ctx, before: Boxes, height: nat, cap: Captured, base: nat, unstakes: seq<Live>,
    backer: Backer)
    requires BackerSound(ctx, before) && cap.backerPool == FirstLive(ctx, before, IsBackerPool)
    requires BackerOf(ctx, cap, height, base, unstakes) == Some(backer) && backer.Active?
    ensures ctx.backerSupply > 0 && backer.value >= 0 && backer.leg.staked >= 0
    ensures backer.leg.staked == WeightTotal(before) - Unstaked(unstakes)
    ensures Solvent(backer.value, ctx.backerSupply, backer.leg.staked, backer.leg.accrual)
  {
    FirstLiveIs(ctx, before, IsBackerPool);
    var pool := backer.pool.box;
    assert before[backer.pool.id] == pool && PoolSolvent(ctx, pool);
    LegKeepsSolvency(pool.value, base, ctx.backerSupply, pool.staked, pool.accrual, unstakes,
        height <= ctx.creditFixedRateBlocks);
  }

  lemma SuccessorSound(
    ctx: Ctx, o: Origin, cores: seq<TxCore>, s: State, acc: Acc, height: nat, cap: Captured, body: SettlementBody,
    backer: Backer)
    requires Deriving(ctx, o, cores, s, acc, height, cap, body)
    requires SlicesOf(ctx, s.boxes, cap, height, body).Some? && SlicesOf(ctx, s.boxes, cap, height, body).value.backer
      == backer
    requires backer.Active?
    ensures ctx.backerSupply > 0 && backer.value >= 0 && backer.leg.staked >= 0
    ensures backer.leg.staked == WeightTotal(s.boxes) - Unstaked(body.unstakes)
    ensures Solvent(backer.value, ctx.backerSupply, backer.leg.staked, backer.leg.accrual)
  {
    var base := SlicesBacker(ctx, s.boxes, cap, height, body);
    ActivePoolSound(ctx, o.start.boxes, height, cap, base, body.unstakes, backer);
  }

  ghost predicate PoolsAre(boxes: Boxes, b: Box) {
    forall id | id in boxes && boxes[id].BackerPool? :: boxes[id] == b
  }

  /** The one successor is every pool there is. */
  lemma OnePool(boxes: Boxes, id: BoxId)
    requires NoRivals(boxes) && id in boxes && boxes[id].BackerPool?
    ensures PoolsAre(boxes, boxes[id])
  {
    forall j | j in boxes && boxes[j].BackerPool? ensures boxes[j] == boxes[id] {
      assert Rivals(boxes[j], boxes[id]);
    }
  }

  /** A settlement over an active pool: what its successor holds, against the weight that stays staked. */
  lemma ActiveFacts(
    ctx: Ctx, o: Origin, cores: seq<TxCore>, s: State, acc: Acc, height: nat, cap: Captured, body: SettlementBody,
    d: Derived, core: TxCore, tail: seq<Box>)
    requires Deriving(ctx, o, cores, s, acc, height, cap, body)
    requires Derive(ctx, s, cap, height, body) == Some(d) && CoinbaseOk(d, height, tail)
    requires core.inputs == Ids(d.inputs) && core.outputs == d.outputs + tail
    requires FreshFrom(core, 0, s.boxes.Keys)
    requires SlicesOf(ctx, s.boxes, cap, height, body).value.backer.Active?
    ensures var backer := SlicesOf(ctx, s.boxes, cap, height, body).value.backer;
      && ctx.backerSupply > 0 && backer.value >= 0
      && backer.leg.staked == WeightTotal(AfterTx(s.boxes, core))
      && Solvent(backer.value, ctx.backerSupply, backer.leg.staked, backer.leg.accrual)
  {
    SettlementConserves(ctx, o, cores, s, acc, height, cap, body, d, core, tail);
    SuccessorSound(ctx, o, cores, s, acc, height, cap, body, SlicesOf(ctx, s.boxes, cap, height, body).value.backer);
  }

  lemma SuccessorStands(ctx: Ctx, s: State, cap: Captured, height: nat, body: SettlementBody, d: Derived, core: TxCore,
    tail: seq<Box>)
    requires ValidCtx(ctx) && Derive(ctx, s, cap, height, body) == Some(d) && core.outputs == d.outputs + tail
    requires SlicesOf(ctx, s.boxes, cap, height, body).value.backer.Active?
    requires var backer := SlicesOf(ctx, s.boxes, cap, height, body).value.backer;
      && ctx.backerSupply > 0 && backer.value >= 0
      && backer.leg.staked == WeightTotal(AfterTx(s.boxes, core))
      && Solvent(backer.value, ctx.backerSupply, backer.leg.staked, backer.leg.accrual)
    requires NoRivals(AfterTx(s.boxes, core))
    ensures BackerSound(ctx, AfterTx(s.boxes, core))
  {
    var slices, treasury, backer, legs, pool := PartsOf(ctx, s, cap, height, body);
    var b := backer.emitted[0];
    var id := EmittedIsLive(ctx, s, cap, height, body, d, slices, treasury, backer, legs, pool, tail, core, b);
    OnePool(AfterTx(s.boxes, core), id);
    SoundWithPool(ctx, AfterTx(s.boxes, core), id, b);
  }

  lemma SoundWithPool(ctx: Ctx, boxes: Boxes, id: BoxId, b: Box)
    requires id in boxes && boxes[id] == b && b.BackerPool? && PoolsAre(boxes, b)
    requires ctx.backerSupply > 0 && b.staked == WeightTotal(boxes) && PoolSolvent(ctx, b)
    ensures BackerSound(ctx, boxes)
  {
  }

  // ---------------------------------------------------------------------------
  // An idle pool
  // ---------------------------------------------------------------------------

  ghost predicate SamePools(before: Boxes, after: Boxes) {
    && (forall id | id in before && before[id].BackerPool? :: id in after && after[id] == before[id])
    && (forall id | id in after && after[id].BackerPool? :: id in before && after[id] == before[id])
  }

  lemma SoundWhenSame(ctx: Ctx, before: Boxes, after: Boxes)
    requires BackerSound(ctx, before) && SamePools(before, after) && WeightTotal(after) == WeightTotal(before)
    ensures BackerSound(ctx, after)
  {
    forall id | id in after && after[id].BackerPool?
      ensures after[id].staked == WeightTotal(after) && PoolSolvent(ctx, after[id])
    {
      assert before[id] == after[id];
    }
  }

  lemma BodyKeepsPools(ctx: Ctx, o: Origin, cores: seq<TxCore>, s: State, acc: Acc)
    requires Ready(ctx, o, cores, s, acc)
    ensures SamePools(o.start.boxes, s.boxes)
  {
    forall id | id in o.start.boxes && o.start.boxes[id].BackerPool?
      ensures id in s.boxes && s.boxes[id] == o.start.boxes[id]
    {
      UnspendableStays(ctx, o, cores, s, acc, id);
    }
    forall id | id in s.boxes && s.boxes[id].BackerPool?
      ensures id in o.start.boxes && s.boxes[id] == o.start.boxes[id]
    {
      NewIsUserMade(ctx, o, cores, s, acc, id);
    }
  }

  lemma NoPoolInLeg(boxes: Boxes, before: set<BoxId>, charged: set<BoxId>, ls: seq<Live>, lo: nat, hi: nat)
    requires LegLive(boxes, before, charged, ls, lo, hi) && (hi <= 2 || lo >= 3)
    ensures forall l | l in ls :: !l.box.BackerPool?
  {
    forall l | l in ls ensures !l.box.BackerPool? {
      assert lo <= KindOf(before, charged, l) < hi;
    }
  }

  lemma IdleTakesNoPool(
    ctx: Ctx, o: Origin, cores: seq<TxCore>, s: State, acc: Acc, height: nat, cap: Captured, body: SettlementBody,
    d: Derived, slices: Slices, treasury: Move, backer: Move, legs: Legs, pool: Move)
    requires Deriving(ctx, o, cores, s, acc, height, cap, body)
    requires Parts(ctx, s, cap, height, body, d, slices, treasury, backer, legs, pool) && slices.backer.Idle?
    ensures forall l | l in d.inputs :: !l.box.BackerPool?
  {
    var before, charged := o.start.boxes.Keys, Charged(cap);
    SingleLegs(ctx, s.boxes, before, charged, height, cap, body);
    NoPoolInLeg(s.boxes, before, charged, [slices.emission], 0, 1);
    NoPoolInLeg(s.boxes, before, charged, treasury.consumed, 1, 2);
    IdleBodyLegs(ctx, o, cores, s, acc, charged);
    IdleDueLegs(ctx, o, cores, s, acc, height, charged);
    SettleInputs.KarmaLegs(ctx, o, cores, s, acc, height, cap, body);
    NoPoolInLeg(s.boxes, before, charged, Consumed(cap.plans), 10, 11);
    NoPoolInLeg(s.boxes, before, charged, BaseBoxes(legs.incomes), 11, 12);
    PoolLeg(ctx, before, charged, s.boxes, PoolDraw(body), PoolSink(s.records, cap, body, legs), height);
    NoPoolInLeg(s.boxes, before, charged, pool.consumed, 12, 13);
    forall l | l in d.inputs ensures !l.box.BackerPool? {
      OneOfThirteen([slices.emission], treasury.consumed, [], body.markers, body.prices, CarriedBoxes(legs.payouts),
        legs.bonds, cap.escrows, cap.lapsed, Consumed(cap.plans), BaseBoxes(legs.incomes), pool.consumed,
            body.feeBoxes, l);
    }
  }

  lemma IdleBodyLegs(ctx: Ctx, o: Origin, cores: seq<TxCore>, s: State, acc: Acc, charged: set<BoxId>)
    requires Ready(ctx, o, cores, s, acc)
    ensures forall l | l in BodyListed(cores, IsPrice) :: !l.box.BackerPool?
    ensures forall l | l in BodyListed(cores, IsFee) :: !l.box.BackerPool?
    ensures forall l | l in BodyListed(cores, IsAccrual) :: !l.box.BackerPool?
    ensures forall l | l in CarriedBoxes(LikePayouts(ctx, s.boxes, BodyListed(cores, IsAccrual))) :: !l.box.BackerPool?
  {
    var before := o.start.boxes.Keys;
    BodyLegs(ctx, o, cores, s, acc, charged);
    LikeLegs(ctx, o, cores, s, acc, charged);
    NoPoolInLeg(s.boxes, before, charged, BodyListed(cores, IsPrice), 5, 6);
    NoPoolInLeg(s.boxes, before, charged, BodyListed(cores, IsFee), 13, 14);
    NoPoolInLeg(s.boxes, before, charged, BodyListed(cores, IsAccrual), 4, 5);
    NoPoolInLeg(s.boxes, before, charged, CarriedBoxes(LikePayouts(ctx, s.boxes, BodyListed(cores, IsAccrual))), 6, 7);
  }

  lemma IdleDueLegs(ctx: Ctx, o: Origin, cores: seq<TxCore>, s: State, acc: Acc, height: nat, charged: set<BoxId>)
    requires Ready(ctx, o, cores, s, acc)
    ensures forall l | l in BondsSettlingAt(ctx, s, height) :: !l.box.BackerPool?
    ensures forall l | l in EscrowsReleasableAt(ctx, o.start.boxes, height) :: !l.box.BackerPool?
    ensures forall l | l in LessSpent(LapsedVouches(o.start), InputsOf(cores)) :: !l.box.BackerPool?
  {
    var before := o.start.boxes.Keys;
    BondLeg(ctx, s, before, charged, height);
    EscrowLeg(ctx, o, cores, s, acc, charged, height);
    LapseLeg(ctx, o, cores, s, acc, charged);
    NoPoolInLeg(s.boxes, before, charged, BondsSettlingAt(ctx, s, height), 7, 8);
    NoPoolInLeg(s.boxes, before, charged, EscrowsReleasableAt(ctx, o.start.boxes, height), 8, 9);
    NoPoolInLeg(s.boxes, before, charged, LessSpent(LapsedVouches(o.start), InputsOf(cores)), 9, 10);
  }

  lemma PoolsLeft(boxes: Boxes, core: TxCore, inputs: seq<Live>)
    requires core.inputs == Ids(inputs) && LiveList(boxes, inputs)
    requires forall l | l in inputs :: !l.box.BackerPool?
    requires forall b | b in core.outputs :: !b.BackerPool?
    requires FreshFrom(core, 0, boxes.Keys)
    ensures SamePools(boxes, AfterTx(boxes, core))
  {
    InputIds(inputs);
    FreshMeans(boxes, core);
    var after := AfterTx(boxes, core);
    forall id | id in boxes && boxes[id].BackerPool? ensures id in after && after[id] == boxes[id] {
      forall l | l in inputs ensures l.id != id {
        assert boxes[l.id] == l.box;
      }
    }
    forall id | id in OutputsFrom(core, 0) ensures after[id] in core.outputs {
      assert after[id] == core.outputs[id.index];
    }
  }

  lemma FreshMeans(boxes: Boxes, core: TxCore)
    requires FreshFrom(core, 0, boxes.Keys)
    ensures forall id | id in OutputsFrom(core, 0) :: id !in boxes
  {
    forall id | id in OutputsFrom(core, 0) ensures id !in boxes {
      assert id == Out(core, id.index);
    }
  }

  lemma IdleBackersSound(
    ctx: Ctx, o: Origin, cores: seq<TxCore>, s: State, acc: Acc, height: nat, cap: Captured, body: SettlementBody,
    d: Derived, core: TxCore, tail: seq<Box>)
    requires Deriving(ctx, o, cores, s, acc, height, cap, body)
    requires Derive(ctx, s, cap, height, body) == Some(d) && CoinbaseOk(d, height, tail)
    requires core.inputs == Ids(d.inputs) && core.outputs == d.outputs + tail
    requires FreshFrom(core, 0, s.boxes.Keys)
    requires SlicesOf(ctx, s.boxes, cap, height, body).value.backer.Idle?
    requires WeightTotal(AfterTx(s.boxes, core)) == WeightTotal(s.boxes)
    ensures BackerSound(ctx, AfterTx(s.boxes, core))
  {
    DerivedInputsAreLive(ctx, o, cores, s, acc, height, cap, body);
    IdleSamePools(ctx, o, cores, s, acc, height, cap, body, d, core, tail);
    BodyKeepsPools(ctx, o, cores, s, acc);
    SoundWhenSame(ctx, o.start.boxes, s.boxes);
    SoundWhenSame(ctx, s.boxes, AfterTx(s.boxes, core));
  }

  lemma IdleSamePools(
    ctx: Ctx, o: Origin, cores: seq<TxCore>, s: State, acc: Acc, height: nat, cap: Captured, body: SettlementBody,
    d: Derived, core: TxCore, tail: seq<Box>)
    requires Deriving(ctx, o, cores, s, acc, height, cap, body) && LiveList(s.boxes, d.inputs)
    requires Derive(ctx, s, cap, height, body) == Some(d) && CoinbaseOk(d, height, tail)
    requires core.inputs == Ids(d.inputs) && core.outputs == d.outputs + tail
    requires FreshFrom(core, 0, s.boxes.Keys)
    requires SlicesOf(ctx, s.boxes, cap, height, body).value.backer.Idle?
    ensures SamePools(s.boxes, AfterTx(s.boxes, core))
  {
    var slices, treasury, backer, legs, pool := PartsOf(ctx, s, cap, height, body);
    IdleTakesNoPool(ctx, o, cores, s, acc, height, cap, body, d, slices, treasury, backer, legs, pool);
    IdleMakesNoPool(ctx, s, cap, height, body, d, slices, treasury, backer, legs, pool, tail);
    PoolsLeft(s.boxes, core, d.inputs);
  }

  lemma IdleMakesNoPool(
    ctx: Ctx, s: State, cap: Captured, height: nat, body: SettlementBody,
    d: Derived, slices: Slices, treasury: Move, backer: Move, legs: Legs, pool: Move, tail: seq<Box>)
    requires ValidCtx(ctx) && Parts(ctx, s, cap, height, body, d, slices, treasury, backer, legs, pool)
    requires slices.backer.Idle? && CoinbaseOk(d, height, tail)
    ensures forall b | b in d.outputs + tail :: !b.BackerPool?
  {
    forall b | b in d.outputs + tail ensures !b.BackerPool? {
      OutputOrigin(ctx, s, cap, height, body, d, slices, treasury, backer, legs, pool, tail, b);
    }
  }

  /** The pool is solvent and exact after every settlement. */
  lemma BackersStaySound(
    ctx: Ctx, o: Origin, cores: seq<TxCore>, s: State, acc: Acc, height: nat, cap: Captured, body: SettlementBody,
    d: Derived, core: TxCore, tail: seq<Box>)
    requires Deriving(ctx, o, cores, s, acc, height, cap, body)
    requires Derive(ctx, s, cap, height, body) == Some(d) && CoinbaseOk(d, height, tail)
    requires core.inputs == Ids(d.inputs) && core.outputs == d.outputs + tail
    requires FreshFrom(core, 0, s.boxes.Keys)
    requires NoRivals(AfterTx(s.boxes, core))
    ensures BackerSound(ctx, AfterTx(s.boxes, core))
  {
    if SlicesOf(ctx, s.boxes, cap, height, body).value.backer.Idle? {
      SettlementConserves(ctx, o, cores, s, acc, height, cap, body, d, core, tail);
      IdleBackersSound(ctx, o, cores, s, acc, height, cap, body, d, core, tail);
    } else {
      ActiveFacts(ctx, o, cores, s, acc, height, cap, body, d, core, tail);
      SuccessorStands(ctx, s, cap, height, body, d, core, tail);
    }
  }
}
