/** What the settlement leaves standing: nothing transient, the backers paid, everyone known. */
module SettledState {
  import opened Wrappers
  import opened Sums
  import opened Orders
  import opened Ledger
  import opened Engine
  import opened Body
  import opened Coinbase
  import opened Queries
  import opened Decay
  import opened Settlement
  import opened Blocks
  import opened Applying
  import opened Lawful
  import opened Invariant
  import opened BodyRun
  import opened BodyKeeps
  import opened BodyOutcome
  import opened AfterBody
  import opened SettleInputs
  import opened SettleSums
  import opened SettleBalance
  import opened SettleShape
  import opened SettlePlaces
  import opened SettledBoxes

  // ---------------------------------------------------------------------------
  // Outputs by leg
  // ---------------------------------------------------------------------------

  lemma OneOfTen(
    b: Box, o0: seq<Box>, o1: seq<Box>, o2: seq<Box>, o3: seq<Box>, o4: seq<Box>, o5: seq<Box>, o6: seq<Box>,
    o7: seq<Box>, o8: seq<Box>, o9: seq<Box>, tail: seq<Box>)
    requires b in (o0 + o1 + o2 + o3 + o4 + o5 + o6 + o7 + o8 + o9) + tail
    ensures b in o0 || b in o1 || b in o2 || b in o3 || b in o4 || b in o5 || b in o6 || b in o7 || b in o8 || b in o9
      || b in tail
  {
  }

  /** Which leg an output of a given type can only have come from. */
  ghost predicate FromItsLeg(
    ctx: Ctx, height: nat, cap: Captured, body: SettlementBody, treasury: Move, backer: Move, legs: Legs, pool: Move,
    b: Box)
  {
    match b
    case Emission(_, _) => true
    case Treasury(_, _) => b in treasury.emitted
    case BackerPool(_, _, _, _) => b in backer.emitted
    case KarmaPool(_, _) => b in pool.emitted
    case Karma(_, _, _, income) =>
      if income then b in IncomeOutputs(height, legs.incomes)
      else b in Grants(height, body.bonds) || b in DecayOutputs(height, cap.plans)
    case LikeAccrual(_, _, _) => b in CarryOutputs(height, legs.payouts)
    case VouchEscrow(_, _, _, _) => b in LapseOutputs(ctx, height, cap.lapsed)
    case Credit(_, _, _, _) => true
    case _ => false
  }

  lemma OutputOrigin(
    ctx: Ctx, s: State, cap: Captured, height: nat, body: SettlementBody,
    d: Derived, slices: Slices, treasury: Move, backer: Move, legs: Legs, pool: Move, tail: seq<Box>, b: Box)
    requires ValidCtx(ctx) && Parts(ctx, s, cap, height, body, d, slices, treasury, backer, legs, pool)
    requires CoinbaseOk(d, height, tail) && b in d.outputs + tail
    ensures FromItsLeg(ctx, height, cap, body, treasury, backer, legs, pool, b)
  {
    GrantsAreKarma(height, body.bonds);
    CarriesAreAccruals(height, legs.payouts);
    LapsesAreEscrows(ctx, height, cap.lapsed);
    DecaysAreKarma(height, cap.plans);
    IncomesAreMarked(height, legs.incomes);
    ReleasesAreCredits(height, body.unstakes, ReleaseFor(slices.backer, body.unstakes));
    MinerPlaceless(d, height, tail);
    OneOfTen(b, [Emission(slices.remaining, height)], treasury.emitted, backer.emitted, pool.emitted,
      Grants(height, body.bonds), CarryOutputs(height, legs.payouts), LapseOutputs(ctx, height, cap.lapsed),
      DecayOutputs(height, cap.plans), IncomeOutputs(height, legs.incomes), ReleaseOutputs(height, body.unstakes,
      ReleaseFor(slices.backer, body.unstakes)), tail);
  }

  // ---------------------------------------------------------------------------
  // Unstakes
  // ---------------------------------------------------------------------------

  lemma {:induction false} WeightyUnstakes(unstakes: seq<Live>)
    requires forall l | l in unstakes :: l.box.BackerUnstake? && l.box.weight >= 1
    ensures Unstaked(unstakes) == 0 ==> unstakes == []
  {
    if unstakes != [] {
      assert unstakes[0] in unstakes;
    }
  }

  lemma NothingStakedNothingUnstaked(boxes: Boxes, unstakes: seq<Live>)
    requires WeightTotal(boxes) == 0
    requires forall l | l in unstakes ::
      l.box.BackerUnstake? && l.box.weight >= 1 && l.id in boxes && boxes[l.id] == l.box
    ensures unstakes == []
  {
    if unstakes != [] {
      var l := unstakes[0];
      MapSumBounds(boxes, WeightOf(), l.id);
    }
  }

  /** An idle pool leaves no unstake marker behind: the body made none. */
  lemma IdleMeansNoUnstakes(ctx: Ctx, o: Origin, cores: seq<TxCore>, s: State, acc: Acc, height: nat, base: nat,
    cap: Captured)
    requires Ready(ctx, o, cores, s, acc) && cap.backerPool == FirstLive(ctx, o.start.boxes, IsBackerPool)
    requires BackerOf(ctx, cap, height, base, BodyListed(cores, IsUnstake)) == Some(Idle)
    ensures BodyListed(cores, IsUnstake) == []
  {
    var unstakes := BodyListed(cores, IsUnstake);
    UnstakesWorthless(ctx, o, cores, s, acc);
    BodyListIsLive(ctx, o, cores, s, acc, IsUnstake);
    FirstLiveIs(ctx, o.start.boxes, IsBackerPool);
    if cap.backerPool.None? || ctx.backerSupply == 0 {
      assert WeightTotal(s.boxes) == 0;
      NothingStakedNothingUnstaked(s.boxes, unstakes);
    } else {
      WeightyUnstakes(unstakes);
    }
  }

  lemma SlicesBacker(ctx: Ctx, boxes: Boxes, cap: Captured, height: nat, body: SettlementBody) returns (base: nat)
    requires ValidCtx(ctx) && SlicesOf(ctx, boxes, cap, height, body).Some?
    ensures BackerOf(ctx, cap, height, base, body.unstakes)
      == Some(SlicesOf(ctx, boxes, cap, height, body).value.backer)
  {
    var box := FirstLive(ctx, boxes, IsEmission).value.box;
    var owed := BlockReward(ctx, height);
    base := (if owed < box.value then owed else box.value) + body.fees;
  }

  lemma IdleSlices(ctx: Ctx, o: Origin, cores: seq<TxCore>, s: State, acc: Acc, height: nat, cap: Captured,
    body: SettlementBody)
    requires Deriving(ctx, o, cores, s, acc, height, cap, body)
    requires SlicesOf(ctx, s.boxes, cap, height, body).Some?
      && SlicesOf(ctx, s.boxes, cap, height, body).value.backer.Idle?
    ensures body.unstakes == []
  {
    var base := SlicesBacker(ctx, s.boxes, cap, height, body);
    IdleMeansNoUnstakes(ctx, o, cores, s, acc, height, base, cap);
  }

  // ---------------------------------------------------------------------------
  // Nothing transient
  // ---------------------------------------------------------------------------

  lemma ListTaken(before: Boxes, boxes: Boxes, ls: seq<Live>, p: Box -> bool, taken: set<BoxId>)
    requires ListLeft(before, boxes, ls, p) && IdSet(ls) <= taken
    requires forall id | id in before && id in boxes :: !p(boxes[id])
    ensures forall id | id in boxes && p(boxes[id]) :: id in taken
  {
    forall id | id in boxes && p(boxes[id]) ensures id in taken {
      var l := Live(id, boxes[id]);
      assert l in ls && l.id in IdSet(ls);
    }
  }

  lemma OldIsLasting(ctx: Ctx, o: Origin, cores: seq<TxCore>, s: State, acc: Acc)
    requires Ready(ctx, o, cores, s, acc)
    ensures forall id | id in o.start.boxes && id in s.boxes :: !Transient(s.boxes[id])
  {
    forall id | id in o.start.boxes && id in s.boxes ensures !Transient(s.boxes[id]) {
      NewIsUserMade(ctx, o, cores, s, acc, id);
    }
  }

  lemma FeesAndPricesTaken(ctx: Ctx, o: Origin, cores: seq<TxCore>, s: State, acc: Acc, taken: set<BoxId>)
    requires Ready(ctx, o, cores, s, acc)
    requires IdSet(BodyListed(cores, IsFee)) <= taken && IdSet(BodyListed(cores, IsPrice)) <= taken
    requires IdSet(BodyListed(cores, IsUnstake)) <= taken
    ensures forall id | id in s.boxes && Transient(s.boxes[id]) :: id in taken
  {
    OldIsLasting(ctx, o, cores, s, acc);
    BodyListIsLive(ctx, o, cores, s, acc, IsFee);
    ListTaken(o.start.boxes, s.boxes, BodyListed(cores, IsFee), IsFee, taken);
    BodyListIsLive(ctx, o, cores, s, acc, IsPrice);
    ListTaken(o.start.boxes, s.boxes, BodyListed(cores, IsPrice), IsPrice, taken);
    BodyListIsLive(ctx, o, cores, s, acc, IsUnstake);
    ListTaken(o.start.boxes, s.boxes, BodyListed(cores, IsUnstake), IsUnstake, taken);
  }

  lemma ActiveTakesUnstakes(backer: Backer, unstakes: seq<Live>, height: nat)
    requires BackerMove(backer, unstakes, height).Some? && backer.Active?
    ensures IdSet(unstakes) <= IdSet(BackerMove(backer, unstakes, height).value.consumed)
  {
    IdSetConcat([backer.pool], unstakes);
  }

  lemma UnstakesTaken(ctx: Ctx, o: Origin, cores: seq<TxCore>, s: State, acc: Acc, height: nat, cap: Captured,
    body: SettlementBody, backer: Backer)
    requires Deriving(ctx, o, cores, s, acc, height, cap, body)
    requires SlicesOf(ctx, s.boxes, cap, height, body).Some? && SlicesOf(ctx, s.boxes, cap, height, body).value.backer
      == backer
    requires BackerMove(backer, body.unstakes, height).Some?
    ensures IdSet(body.unstakes) <= IdSet(BackerMove(backer, body.unstakes, height).value.consumed)
  {
    if backer.Idle? {
      IdleSlices(ctx, o, cores, s, acc, height, cap, body);
    } else {
      ActiveTakesUnstakes(backer, body.unstakes, height);
    }
  }

  lemma AfterTxAll(boxes: Boxes, core: TxCore, p: Box -> bool)
    requires forall b | b in core.outputs :: p(b)
    requires forall id | id in boxes && id !in Members(core.inputs) :: p(boxes[id])
    ensures forall id | id in AfterTx(boxes, core) :: p(AfterTx(boxes, core)[id])
  {
  }

  lemma OutputsPlain(ctx: Ctx, s: State, cap: Captured, height: nat, body: SettlementBody, d: Derived, tail: seq<Box>)
    requires ValidCtx(ctx) && Derive(ctx, s, cap, height, body) == Some(d) && CoinbaseOk(d, height, tail)
    ensures forall b | b in d.outputs + tail :: !Transient(b) && CarrySmall(b)
  {
    var slices, treasury, backer, legs, pool := PartsOf(ctx, s, cap, height, body);
    AscendingLists(Authors(body.markers));
    CarriesOut({}, ctx, s.boxes, body.markers, Ascending(Authors(body.markers)), height);
    forall b | b in d.outputs + tail ensures !Transient(b) && CarrySmall(b) {
      OutputOrigin(ctx, s, cap, height, body, d, slices, treasury, backer, legs, pool, tail, b);
    }
  }

  lemma SurvivorsPlain(ctx: Ctx, o: Origin, cores: seq<TxCore>, s: State, acc: Acc, height: nat, cap: Captured,
    body: SettlementBody, d: Derived)
    requires Deriving(ctx, o, cores, s, acc, height, cap, body)
    requires Derive(ctx, s, cap, height, body) == Some(d)
    ensures forall id | id in s.boxes && Transient(s.boxes[id]) :: id in IdSet(d.inputs)
    ensures IdSet(body.markers) <= IdSet(d.inputs)
  {
    var slices, treasury, backer, legs, pool := PartsOf(ctx, s, cap, height, body);
    PartsTaken(ctx, s, cap, height, body, d, slices, treasury, backer, legs, pool);
    UnstakesTaken(ctx, o, cores, s, acc, height, cap, body, slices.backer);
    FeesAndPricesTaken(ctx, o, cores, s, acc, IdSet(d.inputs));
  }

  /** No fee, price or unstake marker outlives its block. */
  lemma TransientsGone(
    ctx: Ctx, o: Origin, cores: seq<TxCore>, s: State, acc: Acc, height: nat, cap: Captured, body: SettlementBody,
    d: Derived, core: TxCore, tail: seq<Box>)
    requires Deriving(ctx, o, cores, s, acc, height, cap, body)
    requires Derive(ctx, s, cap, height, body) == Some(d) && CoinbaseOk(d, height, tail)
    requires core.inputs == Ids(d.inputs) && core.outputs == d.outputs + tail
    ensures NoTransients(AfterTx(s.boxes, core))
  {
    OutputsPlain(ctx, s, cap, height, body, d, tail);
    SurvivorsPlain(ctx, o, cores, s, acc, height, cap, body, d);
    InputIds(d.inputs);
    AfterTxAll(s.boxes, core, b => !Transient(b));
  }

  // ---------------------------------------------------------------------------
  // The carries
  // ---------------------------------------------------------------------------

  lemma CarriesSmall(
    ctx: Ctx, o: Origin, cores: seq<TxCore>, s: State, acc: Acc, height: nat, cap: Captured, body: SettlementBody,
    d: Derived, core: TxCore, tail: seq<Box>)
    requires Deriving(ctx, o, cores, s, acc, height, cap, body)
    requires Derive(ctx, s, cap, height, body) == Some(d) && CoinbaseOk(d, height, tail)
    requires core.inputs == Ids(d.inputs) && core.outputs == d.outputs + tail
    ensures forall id | id in AfterTx(s.boxes, core) :: CarrySmall(AfterTx(s.boxes, core)[id])
  {
    OutputsPlain(ctx, s, cap, height, body, d, tail);
    SurvivorsPlain(ctx, o, cores, s, acc, height, cap, body, d);
    SurvivorsSmall(ctx, o, cores, s, acc);
    InputIds(d.inputs);
    AfterTxAll(s.boxes, core, CarrySmall);
  }

  lemma SurvivorsSmall(ctx: Ctx, o: Origin, cores: seq<TxCore>, s: State, acc: Acc)
    requires Ready(ctx, o, cores, s, acc)
    ensures forall id | id in s.boxes && id !in IdSet(BodyListed(cores, IsAccrual)) :: CarrySmall(s.boxes[id])
  {
    BodyListIsLive(ctx, o, cores, s, acc, IsAccrual);
    forall id | id in s.boxes && id !in IdSet(BodyListed(cores, IsAccrual)) ensures CarrySmall(s.boxes[id]) {
      SurvivorIsSmall(ctx, o, cores, s, acc, id);
    }
  }

  lemma SurvivorIsSmall(ctx: Ctx, o: Origin, cores: seq<TxCore>, s: State, acc: Acc, id: BoxId)
    requires Ready(ctx, o, cores, s, acc) && id in s.boxes
    requires ListLeft(o.start.boxes, s.boxes, BodyListed(cores, IsAccrual), IsAccrual)
    requires id !in IdSet(BodyListed(cores, IsAccrual))
    ensures CarrySmall(s.boxes[id])
  {
    NotMarkerIsOld(ctx, o, cores, s, acc, id);
    assert id in o.start.boxes ==> CarrySmall(o.start.boxes[id]);
  }
}
