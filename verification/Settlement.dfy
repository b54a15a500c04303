/** The block's one settlement transaction: what the body decides, and the check against it. */
module Settlement {
  import opened Wrappers
  import opened Sums
  import opened Orders
  import opened Ledger
  import opened Engine
  import opened Body
  import opened Coinbase
  import opened Queries
  import opened Decay

  // ---------------------------------------------------------------------------
  // The body
  // ---------------------------------------------------------------------------

  /** What the settlement reads of the block's other transactions, in committed order. */
  datatype SettlementBody = SettlementBody(
    fees: nat,
    rent: nat,
    actors: nat,
    feeBoxes: seq<Live>,
    bonds: seq<Live>,
    markers: seq<Live>,
    prices: seq<Live>,
    unstakes: seq<Live>)

  /** The fees of the transactions that `rent` holds, or of the others. */
  function FeesOf(cores: seq<TxCore>, rent: set<TxCore>, inRent: bool): nat {
    if cores == [] then 0
    else
      (if (cores[0] in rent) == inRent then FaceOf(Listed(cores[0], 0, IsFee)) else 0)
      + FeesOf(cores[1..], rent, inRent)
  }

  function BodyOf(cores: seq<TxCore>, rent: set<TxCore>, actors: nat): SettlementBody {
    SettlementBody(
      FeesOf(cores, rent, false),
      FeesOf(cores, rent, true),
      actors,
      BodyListed(cores, IsFee),
      BodyListed(cores, IsBond),
      BodyListed(cores, IsAccrual),
      BodyListed(cores, IsPrice),
      BodyListed(cores, IsUnstake))
  }

  // ---------------------------------------------------------------------------
  // The like leg
  // ---------------------------------------------------------------------------

  function AuthorOf(b: Box): Key {
    if b.LikeAccrual? then b.author else 0
  }

  function Authors(markers: seq<Live>): set<Key> {
    set m | m in markers :: AuthorOf(m.box)
  }

  function Credited(markers: seq<Live>, author: Key): nat {
    if markers == [] then 0
    else (if AuthorOf(markers[0].box) == author then markers[0].box.value else 0) + Credited(markers[1..], author)
  }

  datatype Payout = Payout(author: Key, paid: nat, pooled: nat, carry: nat, carried: Option<Live>)

  /** One author's: of each whole lot of likes all but one karma is paid and one returns to the pool. */
  function PayoutOf(author: Key, total: nat, carried: Option<Live>): Payout {
    var q := total / LIKES_PER_KARMA_PAYOUT;
    Payout(author, q * (LIKES_PER_KARMA_PAYOUT - 1), q, total % LIKES_PER_KARMA_PAYOUT, carried)
  }

  function CarriedValue(carried: Option<Live>): nat {
    if carried.Some? then carried.value.box.value else 0
  }

  ghost function CarryOf(ctx: Ctx, boxes: Boxes, markers: seq<Live>, author: Key): Option<Live> {
    FirstNotIn(AccrualBoxes(ctx, boxes, author), IdSet(markers))
  }

  ghost function PayoutsFor(ctx: Ctx, boxes: Boxes, markers: seq<Live>, authors: seq<Key>): (ps: seq<Payout>)
    ensures |ps| == |authors|
  {
    if authors == [] then []
    else
      var carried := CarryOf(ctx, boxes, markers, authors[0]);
      [PayoutOf(authors[0], Credited(markers, authors[0]) + CarriedValue(carried), carried)]
      + PayoutsFor(ctx, boxes, markers, authors[1..])
  }

  /** One payout for each credited author, ascending. */
  ghost function LikePayouts(ctx: Ctx, boxes: Boxes, markers: seq<Live>): seq<Payout> {
    PayoutsFor(ctx, boxes, markers, Ascending(Authors(markers)))
  }

  function CarriedBoxes(ps: seq<Payout>): seq<Live> {
    if ps == [] then []
    else (if ps[0].carried.Some? then [ps[0].carried.value] else []) + CarriedBoxes(ps[1..])
  }

  function Pooled(ps: seq<Payout>): nat {
    if ps == [] then 0 else ps[0].pooled + Pooled(ps[1..])
  }

  // ---------------------------------------------------------------------------
  // Bonds
  // ---------------------------------------------------------------------------

  function LifetimeLikes(records: Records, invitee: Key): nat {
    RecordOrEmpty(records, invitee).lifetimeLikesReceived
  }

  function InviteeOf(b: Box): Key {
    if b.Bond? then b.inviteePublicKey else 0
  }

  /** The lesser of the bond and what the invitee's likes have earned of it. */
  function VestedPart(bond: Box, lifetimeLikes: nat): (vested: nat)
    ensures vested <= bond.value
  {
    var earned := lifetimeLikes / INVITE_BOND_VEST_PER_LIKES;
    if earned < bond.value then earned else bond.value
  }

  function Vested(records: Records, bond: Live): (vested: nat)
    ensures vested <= bond.box.value
  {
    VestedPart(bond.box, LifetimeLikes(records, InviteeOf(bond.box)))
  }

  function Forfeited(records: Records, bonds: seq<Live>): nat {
    if bonds == [] then 0
    else bonds[0].box.value - Vested(records, bonds[0]) + Forfeited(records, bonds[1..])
  }

  // ---------------------------------------------------------------------------
  // Income
  // ---------------------------------------------------------------------------

  /** One amount settling to an owner. */
  datatype Earning = Earning(owner: Key, amount: nat)

  function FromLikes(ps: seq<Payout>): seq<Earning> {
    if ps == [] then [] else [Earning(ps[0].author, ps[0].paid)] + FromLikes(ps[1..])
  }

  function InviterOf(b: Box): Key {
    if b.Bond? then b.inviterId else 0
  }

  function FromBonds(records: Records, bonds: seq<Live>): seq<Earning> {
    if bonds == [] then []
    else [Earning(InviterOf(bonds[0].box), Vested(records, bonds[0]))] + FromBonds(records, bonds[1..])
  }

  function EscrowOwner(b: Box): Key {
    if b.VouchEscrow? then b.owner else 0
  }

  function FromEscrows(escrows: seq<Live>): seq<Earning> {
    if escrows == [] then []
    else [Earning(EscrowOwner(escrows[0].box), escrows[0].box.value)] + FromEscrows(escrows[1..])
  }

  function Earnings(records: Records, ps: seq<Payout>, bonds: seq<Live>, escrows: seq<Live>): seq<Earning> {
    FromLikes(ps) + FromBonds(records, bonds) + FromEscrows(escrows)
  }

  function Earned(es: seq<Earning>, owner: Key): nat {
    if es == [] then 0 else (if es[0].owner == owner then es[0].amount else 0) + Earned(es[1..], owner)
  }

  function Earners(es: seq<Earning>): set<Key> {
    set e | e in es && e.amount > 0 :: e.owner
  }

  function EarnersOf(records: Records, ps: seq<Payout>, bonds: seq<Live>, escrows: seq<Live>): set<Key> {
    Earners(Earnings(records, ps, bonds, escrows))
  }

  /** The owners the income leg pays, from the body's markers and the pre-body state. */
  ghost function Payees(ctx: Ctx, s: State, markers: seq<Live>, escrows: seq<Live>, height: int): set<Key> {
    EarnersOf(s.records, LikePayouts(ctx, s.boxes, markers), BondsSettlingAt(ctx, s, height), escrows)
  }

  /** The owner's marked karma box, unless the body spent it or decay charges it. */
  ghost function IncomeBox(ctx: Ctx, boxes: Boxes, owner: Key, spent: set<BoxId>): Option<Live> {
    FirstNotIn(Marked(KarmaBoxes(ctx, boxes, owner)), spent)
  }

  function Marked(ls: seq<Live>): (ms: seq<Live>)
    ensures forall l :: l in ms <==> l in ls && l.box.Karma? && l.box.income
  {
    if ls == [] then []
    else (if ls[0].box.Karma? && ls[0].box.income then [ls[0]] else []) + Marked(ls[1..])
  }

  datatype Income = Income(owner: Key, amount: nat, base: Option<Live>)

  ghost function IncomesFor(ctx: Ctx, boxes: Boxes, es: seq<Earning>, spent: set<BoxId>,
    owners: seq<Key>): seq<Income> {
    if owners == [] then []
    else
      [Income(owners[0], Earned(es, owners[0]), IncomeBox(ctx, boxes, owners[0], spent))]
      + IncomesFor(ctx, boxes, es, spent, owners[1..])
  }

  function BaseBoxes(ins: seq<Income>): seq<Live> {
    if ins == [] then [] else (if ins[0].base.Some? then [ins[0].base.value] else []) + BaseBoxes(ins[1..])
  }

  // ---------------------------------------------------------------------------
  // Outputs by leg
  // ---------------------------------------------------------------------------

  function GrantOf(height: nat, bond: Box): Box { Karma(bond.value, height, InviteeOf(bond), false) }

  function Grants(height: nat, bonds: seq<Live>): seq<Box> {
    if bonds == [] then [] else [GrantOf(height, bonds[0].box)] + Grants(height, bonds[1..])
  }

  function CarryOutputs(height: nat, ps: seq<Payout>): seq<Box> {
    if ps == [] then []
    else
      (if ps[0].carry > 0 then [LikeAccrual(ps[0].carry, height, ps[0].author)] else [])
      + CarryOutputs(height, ps[1..])
  }

  function VoucherOf(b: Box): Key {
    if b.Vouch? then b.voucherId else 0
  }

  function LapseOutputs(ctx: Ctx, height: nat, lapsed: seq<Live>): seq<Box> {
    if lapsed == [] then []
    else
      [VouchEscrow(lapsed[0].box.value, height, VoucherOf(lapsed[0].box), lapsed[0].box.createdAtBlock
          + ctx.vouchCooldownBlocks)]
      + LapseOutputs(ctx, height, lapsed[1..])
  }

  function DecayOutputs(height: nat, plans: seq<Plan>): seq<Box> {
    if plans == [] then []
    else
      (if plans[0].burn > 0 then [Karma(plans[0].newValue, height, plans[0].owner, false)] else [])
      + DecayOutputs(height, plans[1..])
  }

  function IncomeOutputs(height: nat, ins: seq<Income>): seq<Box> {
    if ins == [] then []
    else
      var value := CarriedValue(ins[0].base) + ins[0].amount;
      (if value > 0 then [Karma(value, height, ins[0].owner, true)] else []) + IncomeOutputs(height, ins[1..])
  }

  function UnstakeOwner(b: Box): Key {
    if b.BackerUnstake? then b.owner else 0
  }

  function ReleaseOutputs(height: nat, unstakes: seq<Live>, releases: seq<nat>): seq<Box>
    requires |unstakes| == |releases|
  {
    if unstakes == [] then []
    else
      (if releases[0] > 0 then [Credit(releases[0], height, UnstakeOwner(unstakes[0].box), None)] else [])
      + ReleaseOutputs(height, unstakes[1..], releases[1..])
  }

  function Consumed(plans: seq<Plan>): seq<Live> {
    if plans == [] then [] else plans[0].consumed + Consumed(plans[1..])
  }

  function Burned(plans: seq<Plan>): nat {
    if plans == [] then 0 else plans[0].burn + Burned(plans[1..])
  }

  // ---------------------------------------------------------------------------
  // Derivation
  // ---------------------------------------------------------------------------

  /** What both sides take before the body applies. */
  datatype Captured = Captured(
    escrows: seq<Live>,
    lapsed: seq<Live>,
    backerPool: Option<Live>,
    plans: seq<Plan>,
    spent: set<BoxId>)

  /** The backer leg: idle, or the pool's box and what the block moves through it. */
  datatype Backer = Idle | Active(pool: Live, leg: Leg, value: int)

  /** None where more weight is unstaked than is staked. */
  function BackerOf(ctx: Ctx, cap: Captured, height: int, base: nat, unstakes: seq<Live>): Option<Backer> {
    var inWindow := height <= ctx.creditFixedRateBlocks;
    if cap.backerPool.None? || !cap.backerPool.value.box.BackerPool? || ctx.backerSupply == 0
        || (!inWindow && Unstaked(unstakes) == 0)
    then Some(Idle)
    else
      var pool := cap.backerPool.value;
      if Unstaked(unstakes) > pool.box.staked then None
      else
        var leg := BackerLeg(base, ctx.backerSupply, pool.box.staked, pool.box.accrual, unstakes, inWindow);
        Some(Active(pool, leg, pool.box.value + leg.draw - Total(leg.releases)))
  }

  function DrawOf(backer: Backer): nat {
    if backer.Active? then backer.leg.draw else 0
  }

  function ReleaseFor(backer: Backer, unstakes: seq<Live>): (rs: seq<nat>)
    requires backer.Active? ==> |backer.leg.releases| == |unstakes|
    ensures |rs| == |unstakes|
  {
    if backer.Active? then backer.leg.releases else seq(|unstakes|, _ => 0)
  }

  /** Every karma leg, derived before the pool is touched. */
  datatype Legs = Legs(
    payouts: seq<Payout>,
    bonds: seq<Live>,
    earnings: seq<Earning>,
    incomes: seq<Income>)

  ghost function LegsOf(ctx: Ctx, s: State, cap: Captured, height: int, body: SettlementBody): Legs {
    var payouts := LikePayouts(ctx, s.boxes, body.markers);
    var bonds := BondsSettlingAt(ctx, s, height);
    var earnings := Earnings(s.records, payouts, bonds, cap.escrows);
    Legs(payouts, bonds, earnings,
      IncomesFor(ctx, s.boxes, earnings, cap.spent + IdSet(Consumed(cap.plans)), Ascending(Earners(earnings))))
  }

  function PoolDraw(body: SettlementBody): nat { FaceOf(body.bonds) }

  ghost function PoolSink(records: Records, cap: Captured, body: SettlementBody, legs: Legs): nat {
    FaceOf(body.prices) + Pooled(legs.payouts) + Forfeited(records, legs.bonds) + Burned(cap.plans)
  }

  /** A protocol box the block may or may not spend, and its successor. */
  datatype Move = Move(consumed: seq<Live>, emitted: seq<Box>)

  ghost function TreasuryMove(ctx: Ctx, boxes: Boxes, slice: nat, height: nat): Move {
    MoveTreasury(FirstLive(ctx, boxes, IsTreasury), slice, height)
  }

  function MoveTreasury(box: Option<Live>, slice: nat, height: nat): Move {
    if slice == 0 then Move([], [])
    else if box.None? then Move([], [Treasury(slice, height)])
    else Move([box.value], [Treasury(box.value.box.value + slice, height)])
  }

  function BackerMove(backer: Backer, unstakes: seq<Live>, height: nat): Option<Move> {
    if backer.Idle? then Some(Move([], []))
    else if backer.value < 0 || backer.leg.staked < 0 then None
    else Some(Move([backer.pool] + unstakes, [BackerPool(backer.value, height, backer.leg.staked, backer.leg.accrual)]))
  }

  /** None where the pool is missing or falls short. */
  ghost function PoolMove(ctx: Ctx, boxes: Boxes, draw: nat, sink: nat, height: nat): Option<Move> {
    MovePool(FirstLive(ctx, boxes, IsKarmaPool), draw, sink, height)
  }

  function MovePool(box: Option<Live>, draw: nat, sink: nat, height: nat): Option<Move> {
    if draw == 0 && sink == 0 then Some(Move([], []))
    else if box.None? || box.value.box.value - draw + sink < 0 then None
    else Some(Move([box.value], [KarmaPool(box.value.box.value - draw + sink, height)]))
  }

  datatype Derived = Derived(inputs: seq<Live>, outputs: seq<Box>, minerSlice: int, lockedUntil: nat)

  /** The credit side's figures. */
  datatype Slices = Slices(emission: Live, remaining: nat, split: Split, backer: Backer)

  ghost function SlicesOf(ctx: Ctx, boxes: Boxes, cap: Captured, height: int, body: SettlementBody): Option<Slices>
    requires ValidCtx(ctx)
  {
    Slice(ctx, FirstLive(ctx, boxes, IsEmission), cap, height, body)
  }

  function Slice(ctx: Ctx, emission: Option<Live>, cap: Captured, height: int, body: SettlementBody): Option<Slices>
    requires ValidCtx(ctx)
  {
    if emission.None? then None
    else
      var box := emission.value.box;
      var owed := BlockReward(ctx, height);
      var release := if owed < box.value then owed else box.value;
      var backer := BackerOf(ctx, cap, height, release + body.fees, body.unstakes);
      if backer.None? then None
      else
        var split := SplitCoinbase(release, body.fees, body.rent, body.actors, DrawOf(backer.value));
        Some(Slices(emission.value, box.value - release + split.unearned, split, backer.value))
  }

  function Assemble(
    ctx: Ctx, cap: Captured, height: nat, body: SettlementBody,
    slices: Slices, treasury: Move, backer: Move, legs: Legs, pool: Move): Derived
    requires slices.backer.Active? ==> |slices.backer.leg.releases| == |body.unstakes|
  {
    Derived(
      [slices.emission] + treasury.consumed + backer.consumed
        + body.markers + body.prices + CarriedBoxes(legs.payouts)
        + legs.bonds + cap.escrows + cap.lapsed
        + Consumed(cap.plans) + BaseBoxes(legs.incomes)
        + pool.consumed + body.feeBoxes,
      [Emission(slices.remaining, height)] + treasury.emitted + backer.emitted + pool.emitted
        + Grants(height, body.bonds) + CarryOutputs(height, legs.payouts)
        + LapseOutputs(ctx, height, cap.lapsed) + DecayOutputs(height, cap.plans)
        + IncomeOutputs(height, legs.incomes)
        + ReleaseOutputs(height, body.unstakes, ReleaseFor(slices.backer, body.unstakes)),
      slices.split.miner,
      height + ctx.creditMinerRewardDelay)
  }

  /** Everything the body decides, or None where the chain cannot back the block. */
  ghost function Derive(ctx: Ctx, s: State, cap: Captured, height: nat, body: SettlementBody): Option<Derived>
    requires ValidCtx(ctx)
  {
    var slices := SlicesOf(ctx, s.boxes, cap, height, body);
    if slices.None? then None
    else
      var backer := BackerMove(slices.value.backer, body.unstakes, height);
      var legs := LegsOf(ctx, s, cap, height, body);
      var pool := PoolMove(ctx, s.boxes, PoolDraw(body), PoolSink(s.records, cap, body, legs), height);
      if backer.None? || pool.None? then None
      else
        Some(Assemble(ctx, cap, height, body, slices.value,
          TreasuryMove(ctx, s.boxes, slices.value.split.treasury, height), backer.value, legs, pool.value))
  }

  /** The coinbase the miner's slice leaves to `owner`. */
  function CoinbaseTail(d: Derived, height: nat, owner: Key): seq<Box> {
    if d.minerSlice > 0 then [Credit(d.minerSlice, height, owner, Some(d.lockedUntil))] else []
  }

  function BuildSettlement(d: Derived, height: nat, minerOwner: Key): Tx {
    Tx(TxCore(Ids(d.inputs), d.outputs + CoinbaseTail(d, height, minerOwner), NoPayload), map[])
  }

  // ---------------------------------------------------------------------------
  // The check
  // ---------------------------------------------------------------------------

  /** The coinbase tail: one locked credit of the whole slice, or none of nothing. */
  predicate CoinbaseOk(d: Derived, height: nat, tail: seq<Box>) {
    if d.minerSlice > 0 then
      && |tail| == 1
      && tail[0].Credit?
      && tail[0].value == d.minerSlice
      && tail[0].lockedUntilBlock == Some(d.lockedUntil)
      && tail[0].createdAtBlock == height
    else d.minerSlice == 0 && tail == []
  }

  /** The axiom's own check, over the whole transaction. */
  ghost predicate Conserves(boxes: Boxes, core: TxCore) {
    && InputsLive(boxes, core.inputs)
    && SeqSum(ValuesAt(boxes, core.inputs), ValueWeight()) == SeqSum(core.outputs, ValueWeight())
  }

  /** The clauses but conservation. */
  predicate MatchesDerived(d: Derived, height: nat, settlement: Tx) {
    && settlement.core.inputs == Ids(d.inputs)
    && settlement.signatures == map[]
    && settlement.core.payload.NoPayload?
    && |settlement.core.outputs| >= |d.outputs|
    && settlement.core.outputs[..|d.outputs|] == d.outputs
    && CoinbaseOk(d, height, settlement.core.outputs[|d.outputs|..])
  }

  ghost predicate CheckSettlement(ctx: Ctx, s: State, cap: Captured, height: nat, body: SettlementBody, settlement: Tx)
    requires ValidCtx(ctx)
  {
    var d := Derive(ctx, s, cap, height, body);
    d.Some? && MatchesDerived(d.value, height, settlement) && Conserves(s.boxes, settlement.core)
  }
}
