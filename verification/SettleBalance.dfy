/** The whole settlement conserves each ledger on its own. */
module SettleBalance {
  import opened Wrappers
  import opened Sums
  import opened Orders
  import opened Ledger
  import opened Engine
  import opened Body
  import opened Coinbase
  import opened Queries
  import opened Decay
  import opened Settlement
  import opened Blocks
  import opened Applying
  import opened Lawful
  import opened Invariant
  import opened BodyRun
  import opened BodyKeeps
  import opened BodyOutcome
  import opened AfterBody
  import opened SettleInputs
  import opened SettleSums

  lemma InputsSum(
    l0: seq<Live>, l1: seq<Live>, l2: seq<Live>, l4: seq<Live>, l5: seq<Live>, l6: seq<Live>, l7: seq<Live>,
    l8: seq<Live>, l9: seq<Live>, l10: seq<Live>, l11: seq<Live>, l12: seq<Live>, l13: seq<Live>, w: Box -> int)
    ensures LiveSum(l0 + l1 + l2 + l4 + l5 + l6 + l7 + l8 + l9 + l10 + l11 + l12 + l13, w)
      == LiveSum(l0, w) + LiveSum(l1, w) + LiveSum(l2, w) + LiveSum(l4, w) + LiveSum(l5, w) + LiveSum(l6, w)
      + LiveSum(l7, w) + LiveSum(l8, w) + LiveSum(l9, w) + LiveSum(l10, w) + LiveSum(l11, w) + LiveSum(l12, w)
      + LiveSum(l13, w)
  {
    LiveSumConcat(l0, l1, w);
    LiveSumConcat(l0 + l1, l2, w);
    LiveSumConcat(l0 + l1 + l2, l4, w);
    LiveSumConcat(l0 + l1 + l2 + l4, l5, w);
    LiveSumConcat(l0 + l1 + l2 + l4 + l5, l6, w);
    LiveSumConcat(l0 + l1 + l2 + l4 + l5 + l6, l7, w);
    LiveSumConcat(l0 + l1 + l2 + l4 + l5 + l6 + l7, l8, w);
    LiveSumConcat(l0 + l1 + l2 + l4 + l5 + l6 + l7 + l8, l9, w);
    LiveSumConcat(l0 + l1 + l2 + l4 + l5 + l6 + l7 + l8 + l9, l10, w);
    LiveSumConcat(l0 + l1 + l2 + l4 + l5 + l6 + l7 + l8 + l9 + l10, l11, w);
    LiveSumConcat(l0 + l1 + l2 + l4 + l5 + l6 + l7 + l8 + l9 + l10 + l11, l12, w);
    LiveSumConcat(l0 + l1 + l2 + l4 + l5 + l6 + l7 + l8 + l9 + l10 + l11 + l12, l13, w);
  }

  lemma OneOfThirteen(
    l0: seq<Live>, l1: seq<Live>, l2: seq<Live>, l4: seq<Live>, l5: seq<Live>, l6: seq<Live>, l7: seq<Live>,
    l8: seq<Live>, l9: seq<Live>, l10: seq<Live>, l11: seq<Live>, l12: seq<Live>, l13: seq<Live>, l: Live)
    requires l in l0 + l1 + l2 + l4 + l5 + l6 + l7 + l8 + l9 + l10 + l11 + l12 + l13
    ensures l in l0 || l in l1 || l in l2 || l in l4 || l in l5 || l in l6 || l in l7 || l in l8 || l in l9 || l in l10
      || l in l11 || l in l12 || l in l13
  {
  }

  lemma OutputsSum(
    o0: seq<Box>, o1: seq<Box>, o2: seq<Box>, o3: seq<Box>, o4: seq<Box>, o5: seq<Box>, o6: seq<Box>, o7: seq<Box>,
    o8: seq<Box>, o9: seq<Box>, w: Box -> int)
    ensures SeqSum(o0 + o1 + o2 + o3 + o4 + o5 + o6 + o7 + o8 + o9, w)
      == SeqSum(o0, w) + SeqSum(o1, w) + SeqSum(o2, w) + SeqSum(o3, w) + SeqSum(o4, w) + SeqSum(o5, w)
      + SeqSum(o6, w) + SeqSum(o7, w) + SeqSum(o8, w) + SeqSum(o9, w)
  {
    SeqSumConcat(o0, o1, w);
    SeqSumConcat(o0 + o1, o2, w);
    SeqSumConcat(o0 + o1 + o2, o3, w);
    SeqSumConcat(o0 + o1 + o2 + o3, o4, w);
    SeqSumConcat(o0 + o1 + o2 + o3 + o4, o5, w);
    SeqSumConcat(o0 + o1 + o2 + o3 + o4 + o5, o6, w);
    SeqSumConcat(o0 + o1 + o2 + o3 + o4 + o5 + o6, o7, w);
    SeqSumConcat(o0 + o1 + o2 + o3 + o4 + o5 + o6 + o7, o8, w);
    SeqSumConcat(o0 + o1 + o2 + o3 + o4 + o5 + o6 + o7 + o8, o9, w);
  }

  // ---------------------------------------------------------------------------
  // Families by leg
  // ---------------------------------------------------------------------------

  lemma KarmaKinds(boxes: Boxes, before: set<BoxId>, charged: set<BoxId>, ls: seq<Live>, lo: nat, hi: nat)
    requires LegLive(boxes, before, charged, ls, lo, hi) && 4 <= lo && hi <= 13
    ensures LiveSum(ls, KarmaWeight()) == FaceOf(ls) && LiveSum(ls, CreditWeight()) == 0 && LiveSum(ls, WeightOf()) == 0
  {
    forall l | l in ls ensures KarmaSide(l.box) {
      assert 4 <= KindOf(before, charged, l) < 13;
    }
    KarmaList(ls);
  }

  lemma CreditKinds(boxes: Boxes, before: set<BoxId>, charged: set<BoxId>, ls: seq<Live>, lo: nat, hi: nat)
    requires LegLive(boxes, before, charged, ls, lo, hi) && (hi <= 4 || (lo == 13 && hi == 14))
    ensures LiveSum(ls, KarmaWeight()) == 0 && LiveSum(ls, CreditWeight()) == FaceOf(ls)
    ensures hi <= 3 || lo == 13 ==> LiveSum(ls, WeightOf()) == 0
  {
    forall l | l in ls ensures CreditSide(l.box) {
      assert lo <= KindOf(before, charged, l) < hi;
    }
    CreditList(ls);
    if hi <= 3 || lo == 13 {
      forall l | l in ls ensures !l.box.BackerStake? && !l.box.BackerUnstake? {
        assert lo <= KindOf(before, charged, l) < hi;
      }
      WeightlessList(ls);
    }
  }

  // ---------------------------------------------------------------------------
  // Types of the outputs
  // ---------------------------------------------------------------------------

  lemma {:induction false} GrantsAreKarma(height: nat, bonds: seq<Live>)
    ensures forall b | b in Grants(height, bonds) :: b.Karma? && !b.income
  {
    if bonds != [] {
      GrantsAreKarma(height, bonds[1..]);
    }
  }

  lemma {:induction false} CarriesAreAccruals(height: nat, ps: seq<Payout>)
    ensures forall b | b in CarryOutputs(height, ps) :: b.LikeAccrual?
  {
    if ps != [] {
      CarriesAreAccruals(height, ps[1..]);
    }
  }

  lemma {:induction false} LapsesAreEscrows(ctx: Ctx, height: nat, lapsed: seq<Live>)
    ensures forall b | b in LapseOutputs(ctx, height, lapsed) :: b.VouchEscrow?
  {
    if lapsed != [] {
      LapsesAreEscrows(ctx, height, lapsed[1..]);
    }
  }

  lemma {:induction false} DecaysAreKarma(height: nat, plans: seq<Plan>)
    ensures forall b | b in DecayOutputs(height, plans) :: b.Karma? && !b.income
  {
    if plans != [] {
      DecaysAreKarma(height, plans[1..]);
    }
  }

  lemma {:induction false} IncomesAreMarked(height: nat, ins: seq<Income>)
    ensures forall b | b in IncomeOutputs(height, ins) :: b.Karma? && b.income
  {
    if ins != [] {
      IncomesAreMarked(height, ins[1..]);
    }
  }

  lemma {:induction false} ReleasesAreCredits(height: nat, unstakes: seq<Live>, releases: seq<nat>)
    requires |unstakes| == |releases|
    ensures forall b | b in ReleaseOutputs(height, unstakes, releases) :: b.Credit?
  {
    if unstakes != [] {
      ReleasesAreCredits(height, unstakes[1..], releases[1..]);
    }
  }

  // ---------------------------------------------------------------------------
  // Karma
  // ---------------------------------------------------------------------------

  lemma {:induction false} ZeroTotal(n: nat)
    ensures Total(seq(n, _ => 0)) == 0
  {
    if n > 0 {
      assert seq(n, _ => 0)[1..] == seq(n - 1, _ => 0);
      ZeroTotal(n - 1);
    }
  }

  /** A one-box family sum. */
  lemma OneBox(b: Box, w: Box -> int)
    ensures SeqSum([b], w) == w(b)
  {
    assert SeqSum([b][1..], w) == 0;
  }

  lemma OneLive(l: Live, w: Box -> int)
    ensures LiveSum([l], w) == w(l.box)
  {
    assert LiveSum([l][1..], w) == 0;
  }

  ghost predicate Balanced(m: Move, w: Box -> int, delta: int) {
    SeqSum(m.emitted, w) == LiveSum(m.consumed, w) + delta
  }

  lemma TreasuryBalance(ctx: Ctx, boxes: Boxes, slice: nat, height: nat)
    ensures Balanced(TreasuryMove(ctx, boxes, slice, height), CreditWeight(), slice)
    ensures Balanced(TreasuryMove(ctx, boxes, slice, height), KarmaWeight(), 0)
    ensures Balanced(TreasuryMove(ctx, boxes, slice, height), WeightOf(), 0)
  {
    FirstLiveIs(ctx, boxes, IsTreasury);
    var m := TreasuryMove(ctx, boxes, slice, height);
    if slice > 0 {
      OneBox(m.emitted[0], CreditWeight());
      OneBox(m.emitted[0], KarmaWeight());
      OneBox(m.emitted[0], WeightOf());
      if m.consumed != [] {
        OneLive(m.consumed[0], CreditWeight());
        OneLive(m.consumed[0], KarmaWeight());
        OneLive(m.consumed[0], WeightOf());
      }
    }
  }

  lemma PoolBalance(ctx: Ctx, boxes: Boxes, draw: nat, sink: nat, height: nat)
    requires PoolMove(ctx, boxes, draw, sink, height).Some?
    ensures Balanced(PoolMove(ctx, boxes, draw, sink, height).value, KarmaWeight(), sink - draw)
    ensures Balanced(PoolMove(ctx, boxes, draw, sink, height).value, CreditWeight(), 0)
    ensures Balanced(PoolMove(ctx, boxes, draw, sink, height).value, WeightOf(), 0)
  {
    FirstLiveIs(ctx, boxes, IsKarmaPool);
    var m := PoolMove(ctx, boxes, draw, sink, height).value;
    if draw != 0 || sink != 0 {
      OneBox(m.emitted[0], CreditWeight());
      OneBox(m.emitted[0], KarmaWeight());
      OneBox(m.emitted[0], WeightOf());
      OneLive(m.consumed[0], CreditWeight());
      OneLive(m.consumed[0], KarmaWeight());
      OneLive(m.consumed[0], WeightOf());
    }
  }

  /** What the pool pays out: its draw less the block's releases. */
  function BackerDelta(backer: Backer): int {
    if backer.Active? then backer.leg.draw - Total(backer.leg.releases) else 0
  }

  /** The weight the block takes out of the staked. */
  function WeightDelta(backer: Backer, unstakes: seq<Live>): int {
    if backer.Active? then 0 - Unstaked(unstakes) else 0
  }

  lemma BackerBalance(backer: Backer, unstakes: seq<Live>, height: nat)
    requires BackerMove(backer, unstakes, height).Some?
    requires backer.Active? ==>
      backer.pool.box.BackerPool? && backer.value == backer.pool.box.value + BackerDelta(backer)
    requires forall l | l in unstakes :: l.box.BackerUnstake? && l.box.value == 0
    ensures Balanced(BackerMove(backer, unstakes, height).value, CreditWeight(), BackerDelta(backer))
    ensures Balanced(BackerMove(backer, unstakes, height).value, KarmaWeight(), 0)
    ensures Balanced(BackerMove(backer, unstakes, height).value, WeightOf(), WeightDelta(backer, unstakes))
  {
    if backer.Active? {
      var b := BackerPool(backer.value, height, backer.leg.staked, backer.leg.accrual);
      OneBox(b, CreditWeight());
      OneBox(b, KarmaWeight());
      OneBox(b, WeightOf());
      LiveSumConcat([backer.pool], unstakes, CreditWeight());
      LiveSumConcat([backer.pool], unstakes, KarmaWeight());
      LiveSumConcat([backer.pool], unstakes, WeightOf());
      OneLive(backer.pool, CreditWeight());
      OneLive(backer.pool, KarmaWeight());
      OneLive(backer.pool, WeightOf());
      CreditList(unstakes);
      UnstakedIsWeight(unstakes);
    }
  }

  // ---------------------------------------------------------------------------
  // The karma ledger
  // ---------------------------------------------------------------------------

  /** The karma legs between the backer pool and the karma pool. */
  function KarmaLegs(cap: Captured, body: SettlementBody, legs: Legs): seq<seq<Live>> {
    [body.markers, body.prices, CarriedBoxes(legs.payouts), legs.bonds, cap.escrows, cap.lapsed, Consumed(cap.plans),
        BaseBoxes(legs.incomes)]
  }

  ghost predicate KarmaOnly(ls: seq<Live>) {
    LiveSum(ls, KarmaWeight()) == FaceOf(ls) && LiveSum(ls, CreditWeight()) == 0 && LiveSum(ls, WeightOf()) == 0
  }

  ghost predicate CreditOnly(ls: seq<Live>) {
    LiveSum(ls, KarmaWeight()) == 0 && LiveSum(ls, CreditWeight()) == FaceOf(ls) && LiveSum(ls, WeightOf()) == 0
  }

  /** The legs' own balances, family by family. */
  ghost predicate LegsBalanced(
    s: State, cap: Captured, body: SettlementBody, slices: Slices, treasury: Move, backer: Move, legs: Legs, pool: Move)
  {
    && (forall ls | ls in KarmaLegs(cap, body, legs) :: KarmaOnly(ls))
    && CreditOnly([slices.emission])
    && CreditOnly(body.feeBoxes)
    && Balanced(treasury, KarmaWeight(), 0)
    && Balanced(backer, KarmaWeight(), 0)
    && Balanced(pool, KarmaWeight(), PoolSink(s.records, cap, body, legs) - PoolDraw(body))
    && Balanced(treasury, CreditWeight(), slices.split.treasury)
    && Balanced(backer, CreditWeight(), BackerDelta(slices.backer))
    && Balanced(pool, CreditWeight(), 0)
    && Balanced(treasury, WeightOf(), 0)
    && Balanced(backer, WeightOf(), WeightDelta(slices.backer, body.unstakes))
    && Balanced(pool, WeightOf(), 0)
  }

  lemma KarmaOutputsSum(ctx: Ctx, height: nat, body: SettlementBody, cap: Captured, legs: Legs)
    ensures SeqSum(Grants(height, body.bonds), KarmaWeight()) == FaceOf(body.bonds)
    ensures SeqSum(CarryOutputs(height, legs.payouts), KarmaWeight()) == ValueOf(CarryOutputs(height, legs.payouts))
    ensures SeqSum(LapseOutputs(ctx, height, cap.lapsed), KarmaWeight()) == FaceOf(cap.lapsed)
    ensures SeqSum(DecayOutputs(height, cap.plans), KarmaWeight()) == ValueOf(DecayOutputs(height, cap.plans))
    ensures SeqSum(IncomeOutputs(height, legs.incomes), KarmaWeight()) == ValueOf(IncomeOutputs(height, legs.incomes))
  {
    GrantsAreKarma(height, body.bonds);
    GrantsBalance(height, body.bonds);
    KarmaBoxesOut(Grants(height, body.bonds));
    CarriesAreAccruals(height, legs.payouts);
    KarmaBoxesOut(CarryOutputs(height, legs.payouts));
    LapsesAreEscrows(ctx, height, cap.lapsed);
    LapsesBalance(ctx, height, cap.lapsed);
    KarmaBoxesOut(LapseOutputs(ctx, height, cap.lapsed));
    DecaysAreKarma(height, cap.plans);
    KarmaBoxesOut(DecayOutputs(height, cap.plans));
    IncomesAreMarked(height, legs.incomes);
    KarmaBoxesOut(IncomeOutputs(height, legs.incomes));
  }

  lemma KarmaOutputsNoCredit(ctx: Ctx, height: nat, body: SettlementBody, cap: Captured, legs: Legs, w: Box -> int)
    requires w == CreditWeight() || w == WeightOf()
    ensures SeqSum(Grants(height, body.bonds), w) == 0
    ensures SeqSum(CarryOutputs(height, legs.payouts), w) == 0
    ensures SeqSum(LapseOutputs(ctx, height, cap.lapsed), w) == 0
    ensures SeqSum(DecayOutputs(height, cap.plans), w) == 0
    ensures SeqSum(IncomeOutputs(height, legs.incomes), w) == 0
  {
    GrantsAreKarma(height, body.bonds);
    CarriesAreAccruals(height, legs.payouts);
    LapsesAreEscrows(ctx, height, cap.lapsed);
    DecaysAreKarma(height, cap.plans);
    IncomesAreMarked(height, legs.incomes);
    SeqSumZero(Grants(height, body.bonds), w);
    SeqSumZero(CarryOutputs(height, legs.payouts), w);
    SeqSumZero(LapseOutputs(ctx, height, cap.lapsed), w);
    SeqSumZero(DecayOutputs(height, cap.plans), w);
    SeqSumZero(IncomeOutputs(height, legs.incomes), w);
  }

  lemma ReleaseOutputsSum(height: nat, backer: Backer, unstakes: seq<Live>)
    requires backer.Active? ==> |backer.leg.releases| == |unstakes|
    ensures var outs := ReleaseOutputs(height, unstakes, ReleaseFor(backer, unstakes));
      && SeqSum(outs, KarmaWeight()) == 0
      && SeqSum(outs, CreditWeight()) == (if backer.Active? then Total(backer.leg.releases) else 0)
      && SeqSum(outs, WeightOf()) == 0
  {
    var rs := ReleaseFor(backer, unstakes);
    ReleasesAreCredits(height, unstakes, rs);
    ReleasesBalance(height, unstakes, rs);
    CreditBoxesOut(ReleaseOutputs(height, unstakes, rs));
    if backer.Idle? {
      ZeroTotal(|unstakes|);
    }
  }

  lemma LegSums(cap: Captured, body: SettlementBody, legs: Legs)
    requires forall ls | ls in KarmaLegs(cap, body, legs) :: KarmaOnly(ls)
    ensures KarmaOnly(body.markers) && KarmaOnly(body.prices) && KarmaOnly(CarriedBoxes(legs.payouts))
      && KarmaOnly(legs.bonds)
    ensures KarmaOnly(cap.escrows) && KarmaOnly(cap.lapsed) && KarmaOnly(Consumed(cap.plans))
      && KarmaOnly(BaseBoxes(legs.incomes))
  {
    var all := KarmaLegs(cap, body, legs);
    assert all[0] in all && all[1] in all && all[2] in all && all[3] in all;
    assert all[4] in all && all[5] in all && all[6] in all && all[7] in all;
  }

  lemma AssembledInputs(
    ctx: Ctx, s: State, cap: Captured, height: nat, body: SettlementBody,
    slices: Slices, treasury: Move, backer: Move, legs: Legs, pool: Move, w: Box -> int)
    requires slices.backer.Active? ==> |slices.backer.leg.releases| == |body.unstakes|
    ensures LiveSum(Assemble(ctx, cap, height, body, slices, treasury, backer, legs, pool).inputs, w)
      == LiveSum([slices.emission], w) + LiveSum(treasury.consumed, w) + LiveSum(backer.consumed, w)
      + LiveSum(body.markers, w) + LiveSum(body.prices, w) + LiveSum(CarriedBoxes(legs.payouts), w)
      + LiveSum(legs.bonds, w) + LiveSum(cap.escrows, w) + LiveSum(cap.lapsed, w) + LiveSum(Consumed(cap.plans), w)
      + LiveSum(BaseBoxes(legs.incomes), w) + LiveSum(pool.consumed, w) + LiveSum(body.feeBoxes, w)
  {
    InputsSum([slices.emission], treasury.consumed, backer.consumed, body.markers, body.prices,
      CarriedBoxes(legs.payouts), legs.bonds, cap.escrows, cap.lapsed, Consumed(cap.plans), BaseBoxes(legs.incomes),
      pool.consumed, body.feeBoxes, w);
  }

  lemma AssembledOutputs(
    ctx: Ctx, s: State, cap: Captured, height: nat, body: SettlementBody,
    slices: Slices, treasury: Move, backer: Move, legs: Legs, pool: Move, w: Box -> int)
    requires slices.backer.Active? ==> |slices.backer.leg.releases| == |body.unstakes|
    ensures SeqSum(Assemble(ctx, cap, height, body, slices, treasury, backer, legs, pool).outputs, w)
      == w(Emission(slices.remaining, height)) + SeqSum(treasury.emitted, w) + SeqSum(backer.emitted, w)
      + SeqSum(pool.emitted, w) + SeqSum(Grants(height, body.bonds), w)
      + SeqSum(CarryOutputs(height, legs.payouts), w) + SeqSum(LapseOutputs(ctx, height, cap.lapsed), w)
      + SeqSum(DecayOutputs(height, cap.plans), w) + SeqSum(IncomeOutputs(height, legs.incomes), w)
      + SeqSum(ReleaseOutputs(height, body.unstakes, ReleaseFor(slices.backer, body.unstakes)), w)
  {
    OneBox(Emission(slices.remaining, height), w);
    OutputsSum([Emission(slices.remaining, height)], treasury.emitted, backer.emitted, pool.emitted,
      Grants(height, body.bonds), CarryOutputs(height, legs.payouts), LapseOutputs(ctx, height, cap.lapsed),
      DecayOutputs(height, cap.plans), IncomeOutputs(height, legs.incomes), ReleaseOutputs(height, body.unstakes,
      ReleaseFor(slices.backer, body.unstakes)), w);
  }

  /** The face values the karma legs take in and pay out. */
  ghost predicate FacesBalanced(s: State, cap: Captured, height: nat, body: SettlementBody, legs: Legs) {
    && Amounts(FromLikes(legs.payouts)) + Pooled(legs.payouts) + ValueOf(CarryOutputs(height, legs.payouts))
         == FaceOf(body.markers) + FaceOf(CarriedBoxes(legs.payouts))
    && Amounts(FromBonds(s.records, legs.bonds)) + Forfeited(s.records, legs.bonds) == FaceOf(legs.bonds)
    && Amounts(FromEscrows(cap.escrows)) == FaceOf(cap.escrows)
    && FaceOf(Consumed(cap.plans)) == Burned(cap.plans) + ValueOf(DecayOutputs(height, cap.plans))
    && ValueOf(IncomeOutputs(height, legs.incomes)) == FaceOf(BaseBoxes(legs.incomes))
       + Amounts(FromLikes(legs.payouts))
         + Amounts(FromBonds(s.records, legs.bonds)) + Amounts(FromEscrows(cap.escrows))
  }

  lemma AssembledKarma(
    ctx: Ctx, s: State, cap: Captured, height: nat, body: SettlementBody,
    slices: Slices, treasury: Move, backer: Move, legs: Legs, pool: Move)
    requires slices.backer.Active? ==> |slices.backer.leg.releases| == |body.unstakes|
    requires LegsBalanced(s, cap, body, slices, treasury, backer, legs, pool)
    requires FacesBalanced(s, cap, height, body, legs)
    ensures var d := Assemble(ctx, cap, height, body, slices, treasury, backer, legs, pool);
      LiveSum(d.inputs, KarmaWeight()) == SeqSum(d.outputs, KarmaWeight())
  {
    KarmaTakenIn(ctx, s, cap, height, body, slices, treasury, backer, legs, pool);
    KarmaPaidOut(ctx, s, cap, height, body, slices, treasury, backer, legs, pool);
  }

  lemma KarmaTakenIn(
    ctx: Ctx, s: State, cap: Captured, height: nat, body: SettlementBody,
    slices: Slices, treasury: Move, backer: Move, legs: Legs, pool: Move)
    requires slices.backer.Active? ==> |slices.backer.leg.releases| == |body.unstakes|
    requires LegsBalanced(s, cap, body, slices, treasury, backer, legs, pool)
    ensures LiveSum(Assemble(ctx, cap, height, body, slices, treasury, backer, legs, pool).inputs, KarmaWeight())
      == LiveSum(treasury.consumed, KarmaWeight()) + LiveSum(backer.consumed, KarmaWeight())
      + LiveSum(pool.consumed, KarmaWeight()) + FaceOf(body.markers) + FaceOf(body.prices)
      + FaceOf(CarriedBoxes(legs.payouts)) + FaceOf(legs.bonds) + FaceOf(cap.escrows) + FaceOf(cap.lapsed)
      + FaceOf(Consumed(cap.plans)) + FaceOf(BaseBoxes(legs.incomes))
  {
    LegSums(cap, body, legs);
    AssembledInputs(ctx, s, cap, height, body, slices, treasury, backer, legs, pool, KarmaWeight());
  }

  lemma KarmaPaidOut(
    ctx: Ctx, s: State, cap: Captured, height: nat, body: SettlementBody,
    slices: Slices, treasury: Move, backer: Move, legs: Legs, pool: Move)
    requires slices.backer.Active? ==> |slices.backer.leg.releases| == |body.unstakes|
    ensures SeqSum(Assemble(ctx, cap, height, body, slices, treasury, backer, legs, pool).outputs, KarmaWeight())
      == SeqSum(treasury.emitted, KarmaWeight()) + SeqSum(backer.emitted, KarmaWeight())
      + SeqSum(pool.emitted, KarmaWeight()) + FaceOf(body.bonds) + ValueOf(CarryOutputs(height, legs.payouts))
      + FaceOf(cap.lapsed) + ValueOf(DecayOutputs(height, cap.plans)) + ValueOf(IncomeOutputs(height, legs.incomes))
  {
    var w := KarmaWeight();
    AssembledOutputs(ctx, s, cap, height, body, slices, treasury, backer, legs, pool, w);
    KarmaOutputsSum(ctx, height, body, cap, legs);
    var release := ReleaseOutputs(height, body.unstakes, ReleaseFor(slices.backer, body.unstakes));
    assert SeqSum(release, w) == 0 by {
      ReleaseOutputsSum(height, slices.backer, body.unstakes);
    }
    assert w(Emission(slices.remaining, height)) == 0;
  }

  lemma AssembledWeight(
    ctx: Ctx, s: State, cap: Captured, height: nat, body: SettlementBody,
    slices: Slices, treasury: Move, backer: Move, legs: Legs, pool: Move)
    requires slices.backer.Active? ==> |slices.backer.leg.releases| == |body.unstakes|
    requires LegsBalanced(s, cap, body, slices, treasury, backer, legs, pool)
    ensures var d := Assemble(ctx, cap, height, body, slices, treasury, backer, legs, pool);
      SeqSum(d.outputs, WeightOf()) == LiveSum(d.inputs, WeightOf()) + WeightDelta(slices.backer, body.unstakes)
  {
    LegSums(cap, body, legs);
    AssembledInputs(ctx, s, cap, height, body, slices, treasury, backer, legs, pool, WeightOf());
    AssembledOutputs(ctx, s, cap, height, body, slices, treasury, backer, legs, pool, WeightOf());
    KarmaOutputsNoCredit(ctx, height, body, cap, legs, WeightOf());
    ReleaseOutputsSum(height, slices.backer, body.unstakes);
  }

  lemma AssembledCredit(
    ctx: Ctx, s: State, cap: Captured, height: nat, body: SettlementBody,
    slices: Slices, treasury: Move, backer: Move, legs: Legs, pool: Move)
    requires slices.backer.Active? ==> |slices.backer.leg.releases| == |body.unstakes|
    requires LegsBalanced(s, cap, body, slices, treasury, backer, legs, pool)
    ensures var d := Assemble(ctx, cap, height, body, slices, treasury, backer, legs, pool);
      SeqSum(d.outputs, CreditWeight()) == LiveSum(d.inputs, CreditWeight()) - FaceOf(body.feeBoxes)
        + slices.remaining - slices.emission.box.value + slices.split.treasury + DrawOf(slices.backer)
  {
    LegSums(cap, body, legs);
    AssembledInputs(ctx, s, cap, height, body, slices, treasury, backer, legs, pool, CreditWeight());
    AssembledOutputs(ctx, s, cap, height, body, slices, treasury, backer, legs, pool, CreditWeight());
    KarmaOutputsNoCredit(ctx, height, body, cap, legs, CreditWeight());
    ReleaseOutputsSum(height, slices.backer, body.unstakes);
    assert FaceOf([slices.emission]) == slices.emission.box.value;
  }

  // ---------------------------------------------------------------------------
  // The derivation
  // ---------------------------------------------------------------------------

  lemma DerivedFaces(ctx: Ctx, before: State, cores: seq<TxCore>, payees: set<Key>, s: State, cap: Captured,
    height: nat, body: SettlementBody)
    requires ValidCtx(ctx) && cap.plans == DecayPlans(ctx, before, cores, payees, height)
    ensures FacesBalanced(s, cap, height, body, LegsOf(ctx, s, cap, height, body))
  {
    var legs := LegsOf(ctx, s, cap, height, body);
    LikesBalance(ctx, s.boxes, body.markers, height);
    BondsBalance(s.records, legs.bonds);
    EscrowsBalance(cap.escrows);
    PlansBalanced(ctx, before, cores, Ascending(SquaredSet(before.boxes, cores, payees)), height);
    DecayBalance(height, cap.plans);
    IncomeBalance(ctx, s.boxes, legs.earnings, cap.spent + IdSet(Consumed(cap.plans)), height);
    AmountsConcat(FromLikes(legs.payouts), FromBonds(s.records, legs.bonds));
    AmountsConcat(FromLikes(legs.payouts) + FromBonds(s.records, legs.bonds), FromEscrows(cap.escrows));
  }

  lemma BodyOnly(ctx: Ctx, o: Origin, cores: seq<TxCore>, s: State, acc: Acc)
    requires Ready(ctx, o, cores, s, acc)
    ensures KarmaOnly(BodyListed(cores, IsPrice)) && CreditOnly(BodyListed(cores, IsFee))
    ensures KarmaOnly(BodyListed(cores, IsAccrual))
    ensures KarmaOnly(CarriedBoxes(LikePayouts(ctx, s.boxes, BodyListed(cores, IsAccrual))))
  {
    var before := o.start.boxes.Keys;
    var markers := BodyListed(cores, IsAccrual);
    BodyLegs(ctx, o, cores, s, acc, {});
    LikeLegs(ctx, o, cores, s, acc, {});
    KarmaKinds(s.boxes, before, {}, markers, 4, 5);
    KarmaKinds(s.boxes, before, {}, BodyListed(cores, IsPrice), 5, 6);
    KarmaKinds(s.boxes, before, {}, CarriedBoxes(LikePayouts(ctx, s.boxes, markers)), 6, 7);
    CreditKinds(s.boxes, before, {}, BodyListed(cores, IsFee), 13, 14);
  }

  lemma DueOnly(ctx: Ctx, o: Origin, cores: seq<TxCore>, s: State, acc: Acc, height: nat)
    requires Ready(ctx, o, cores, s, acc)
    ensures KarmaOnly(BondsSettlingAt(ctx, s, height)) && KarmaOnly(EscrowsReleasableAt(ctx, o.start.boxes, height))
    ensures KarmaOnly(LessSpent(LapsedVouches(o.start), InputsOf(cores)))
  {
    var before := o.start.boxes.Keys;
    BondLeg(ctx, s, before, {}, height);
    EscrowLeg(ctx, o, cores, s, acc, {}, height);
    LapseLeg(ctx, o, cores, s, acc, {});
    KarmaKinds(s.boxes, before, {}, BondsSettlingAt(ctx, s, height), 7, 8);
    KarmaKinds(s.boxes, before, {}, EscrowsReleasableAt(ctx, o.start.boxes, height), 8, 9);
    KarmaKinds(s.boxes, before, {}, LessSpent(LapsedVouches(o.start), InputsOf(cores)), 9, 10);
  }

  lemma PaidOnly(ctx: Ctx, o: Origin, cores: seq<TxCore>, s: State, acc: Acc, height: nat, cap: Captured,
    body: SettlementBody)
    requires Deriving(ctx, o, cores, s, acc, height, cap, body)
    ensures KarmaOnly(Consumed(cap.plans)) && KarmaOnly(BaseBoxes(LegsOf(ctx, s, cap, height, body).incomes))
  {
    SettleInputs.KarmaLegs(ctx, o, cores, s, acc, height, cap, body);
    KarmaKinds(s.boxes, o.start.boxes.Keys, Charged(cap), Consumed(cap.plans), 10, 11);
    KarmaKinds(s.boxes, o.start.boxes.Keys, Charged(cap), BaseBoxes(LegsOf(ctx, s, cap, height, body).incomes), 11, 12);
  }

  lemma KarmaLegsOnly(ctx: Ctx, o: Origin, cores: seq<TxCore>, s: State, acc: Acc, height: nat, cap: Captured,
    body: SettlementBody)
    requires Deriving(ctx, o, cores, s, acc, height, cap, body)
    ensures forall ls | ls in KarmaLegs(cap, body, LegsOf(ctx, s, cap, height, body)) :: KarmaOnly(ls)
    ensures CreditOnly(body.feeBoxes)
  {
    BodyOnly(ctx, o, cores, s, acc);
    DueOnly(ctx, o, cores, s, acc, height);
    PaidOnly(ctx, o, cores, s, acc, height, cap, body);
    EachLegOnly(cap, body, LegsOf(ctx, s, cap, height, body));
  }

  lemma EachLegOnly(cap: Captured, body: SettlementBody, legs: Legs)
    requires KarmaOnly(body.markers) && KarmaOnly(body.prices) && KarmaOnly(CarriedBoxes(legs.payouts))
      && KarmaOnly(legs.bonds)
    requires KarmaOnly(cap.escrows) && KarmaOnly(cap.lapsed) && KarmaOnly(Consumed(cap.plans))
      && KarmaOnly(BaseBoxes(legs.incomes))
    ensures forall ls | ls in KarmaLegs(cap, body, legs) :: KarmaOnly(ls)
  {
  }

  lemma UnstakesWorthless(ctx: Ctx, o: Origin, cores: seq<TxCore>, s: State, acc: Acc)
    requires Ready(ctx, o, cores, s, acc)
    ensures forall l | l in BodyListed(cores, IsUnstake) ::
      l.box.BackerUnstake? && l.box.value == 0 && l.box.weight >= 1
  {
    BodyListedHolds(cores, IsUnstake);
    forall l | l in BodyListed(cores, IsUnstake) ensures l.box.BackerUnstake? && l.box.value == 0 && l.box.weight >= 1 {
      assert ListedIn(cores, IsUnstake, l);
      assert UnstakeLawful(l.id.creator) && l.box in l.id.creator.outputs;
    }
  }

  lemma MovesBalanced(ctx: Ctx, o: Origin, cores: seq<TxCore>, s: State, acc: Acc, height: nat, cap: Captured,
    body: SettlementBody)
    requires Deriving(ctx, o, cores, s, acc, height, cap, body)
    requires SlicesOf(ctx, s.boxes, cap, height, body).Some?
    requires BackerMove(SlicesOf(ctx, s.boxes, cap, height, body).value.backer, body.unstakes, height).Some?
    ensures var slices := SlicesOf(ctx, s.boxes, cap, height, body).value;
      var backer := BackerMove(slices.backer, body.unstakes, height).value;
      && CreditOnly([slices.emission])
      && Balanced(backer, KarmaWeight(), 0)
      && Balanced(backer, CreditWeight(), BackerDelta(slices.backer))
      && Balanced(backer, WeightOf(), WeightDelta(slices.backer, body.unstakes))
  {
    EmissionOnly(ctx, s.boxes, cap, height, body);
    UnstakesWorthless(ctx, o, cores, s, acc);
    BackerIs(ctx, s.boxes, cap, height, body);
    BackerBalance(SlicesOf(ctx, s.boxes, cap, height, body).value.backer, body.unstakes, height);
  }

  lemma BackerIs(ctx: Ctx, boxes: Boxes, cap: Captured, height: nat, body: SettlementBody)
    requires ValidCtx(ctx) && SlicesOf(ctx, boxes, cap, height, body).Some?
    ensures var backer := SlicesOf(ctx, boxes, cap, height, body).value.backer;
      backer.Active? ==> backer.pool.box.BackerPool? && backer.value == backer.pool.box.value + BackerDelta(backer)
  {
  }

  lemma EmissionOnly(ctx: Ctx, boxes: Boxes, cap: Captured, height: nat, body: SettlementBody)
    requires ValidCtx(ctx) && SlicesOf(ctx, boxes, cap, height, body).Some?
    ensures CreditOnly([SlicesOf(ctx, boxes, cap, height, body).value.emission])
  {
    SingleLegs(ctx, boxes, {}, {}, height, cap, body);
    CreditKinds(boxes, {}, {}, [SlicesOf(ctx, boxes, cap, height, body).value.emission], 0, 1);
  }

  /** The settlement's parts, where there is one. */
  ghost predicate Parts(
    ctx: Ctx, s: State, cap: Captured, height: nat, body: SettlementBody,
    d: Derived, slices: Slices, treasury: Move, backer: Move, legs: Legs, pool: Move)
    requires ValidCtx(ctx)
  {
    && SlicesOf(ctx, s.boxes, cap, height, body) == Some(slices)
    && treasury == TreasuryMove(ctx, s.boxes, slices.split.treasury, height)
    && BackerMove(slices.backer, body.unstakes, height) == Some(backer)
    && legs == LegsOf(ctx, s, cap, height, body)
    && PoolMove(ctx, s.boxes, PoolDraw(body), PoolSink(s.records, cap, body, legs), height) == Some(pool)
    && (slices.backer.Active? ==> |slices.backer.leg.releases| == |body.unstakes|)
    && d == Assemble(ctx, cap, height, body, slices, treasury, backer, legs, pool)
  }

  lemma PartsOf(ctx: Ctx, s: State, cap: Captured, height: nat, body: SettlementBody)
    returns (slices: Slices, treasury: Move, backer: Move, legs: Legs, pool: Move)
    requires ValidCtx(ctx) && Derive(ctx, s, cap, height, body).Some?
    ensures Parts(ctx, s, cap, height, body, Derive(ctx, s, cap, height, body).value, slices, treasury, backer, legs,
      pool)
  {
    slices := SlicesOf(ctx, s.boxes, cap, height, body).value;
    treasury := TreasuryMove(ctx, s.boxes, slices.split.treasury, height);
    backer := BackerMove(slices.backer, body.unstakes, height).value;
    legs := LegsOf(ctx, s, cap, height, body);
    pool := PoolMove(ctx, s.boxes, PoolDraw(body), PoolSink(s.records, cap, body, legs), height).value;
  }

  lemma PartsBalance(
    ctx: Ctx, o: Origin, cores: seq<TxCore>, s: State, acc: Acc, height: nat, cap: Captured, body: SettlementBody,
    d: Derived, slices: Slices, treasury: Move, backer: Move, legs: Legs, pool: Move)
    requires Deriving(ctx, o, cores, s, acc, height, cap, body)
    requires Parts(ctx, s, cap, height, body, d, slices, treasury, backer, legs, pool)
    ensures LegsBalanced(s, cap, body, slices, treasury, backer, legs, pool)
  {
    KarmaLegsOnly(ctx, o, cores, s, acc, height, cap, body);
    MovesBalanced(ctx, o, cores, s, acc, height, cap, body);
    TreasuryBalance(ctx, s.boxes, slices.split.treasury, height);
    PoolBalance(ctx, s.boxes, PoolDraw(body), PoolSink(s.records, cap, body, legs), height);
  }

  /** What the miner is left adds up with every other slice, and holds the block's rent whole. */
  lemma MinerSlice(ctx: Ctx, boxes: Boxes, cap: Captured, height: nat, body: SettlementBody)
    requires ValidCtx(ctx) && SlicesOf(ctx, boxes, cap, height, body).Some?
    ensures var slices := SlicesOf(ctx, boxes, cap, height, body).value;
      && slices.remaining - slices.emission.box.value + slices.split.treasury + DrawOf(slices.backer)
           == body.fees + body.rent - slices.split.miner
      && slices.split.miner >= body.rent
  {
    var box := FirstLive(ctx, boxes, IsEmission).value.box;
    var owed := BlockReward(ctx, height);
    var release := if owed < box.value then owed else box.value;
    var inWindow := height <= ctx.creditFixedRateBlocks;
    var backer := BackerOf(ctx, cap, height, release + body.fees, body.unstakes).value;
    var staked := if backer.Active? then backer.leg.staked else 0;
    SlicesAddUp(release, body.fees, body.rent, body.actors, ctx.backerSupply, staked, inWindow);
    assert DrawOf(backer) == Draw(ctx.backerSupply, staked,
        Increment(release + body.fees, ctx.backerSupply, staked, inWindow));
  }

  /** The derived settlement conserves karma and credits apart, and takes out of the staked exactly what unstakes. */
  lemma DerivedBalances(ctx: Ctx, o: Origin, cores: seq<TxCore>, s: State, acc: Acc, height: nat, cap: Captured,
    body: SettlementBody, d: Derived)
    requires Deriving(ctx, o, cores, s, acc, height, cap, body)
    requires Derive(ctx, s, cap, height, body) == Some(d)
    ensures LiveSum(d.inputs, KarmaWeight()) == SeqSum(d.outputs, KarmaWeight())
    ensures LiveSum(d.inputs, CreditWeight()) == SeqSum(d.outputs, CreditWeight()) + d.minerSlice
    ensures d.minerSlice >= body.rent
    ensures SeqSum(d.outputs, WeightOf()) == LiveSum(d.inputs, WeightOf())
      + WeightDelta(SlicesOf(ctx, s.boxes, cap, height, body).value.backer, body.unstakes)
  {
    var slices, treasury, backer, legs, pool := PartsOf(ctx, s, cap, height, body);
    PartsBalance(ctx, o, cores, s, acc, height, cap, body, d, slices, treasury, backer, legs, pool);
    DerivedFaces(ctx, o.start, cores, PayeesOf(ctx, o.start, cores, height), s, cap, height, body);
    AssembledKarma(ctx, s, cap, height, body, slices, treasury, backer, legs, pool);
    AssembledCredit(ctx, s, cap, height, body, slices, treasury, backer, legs, pool);
    AssembledWeight(ctx, s, cap, height, body, slices, treasury, backer, legs, pool);
    MinerSlice(ctx, s.boxes, cap, height, body);
    FeesBalance(cores, acc.rent);
  }
}
