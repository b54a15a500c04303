/** When the chain cannot back a block: no emission box, or a karma pool that is missing or falls short. */
module Backable {
  import opened Wrappers
  import opened Sums
  import opened Ledger
  import opened Engine
  import opened Coinbase
  import opened Queries
  import opened Decay
  import opened Settlement
  import opened Blocks
  import opened Applying
  import opened Invariant
  import opened BodyKeeps
  import opened BodyOutcome
  import opened Body
  import opened AfterBody
  import opened SettleInputs
  import opened SettleSums
  import opened SettledBackers
  import Producer
  import opened BodyRun

  /** What listed live boxes weigh is at most what all of them do. */
  lemma ListedWeight(boxes: Boxes, ls: seq<Live>)
    requires LiveList(boxes, ls)
    ensures LiveSum(ls, WeightOf()) <= WeightTotal(boxes)
  {
    forall id | id in Ids(ls) ensures id in boxes {
      var i :| 0 <= i < |ls| && Ids(ls)[i] == id;
      assert ls[i] in ls;
    }
    LiveSumIs(boxes, ls, WeightOf());
    MapSumRemoveAll(boxes, WeightOf(), Ids(ls));
    WeightNotNegative(boxes - Members(Ids(ls)));
  }

  lemma WeightNotNegative(boxes: Boxes)
    ensures WeightTotal(boxes) >= 0
  {
    if boxes != map[] {
      var id :| id in boxes;
      MapSumBounds(boxes, WeightOf(), id);
    }
  }

  /** The body's markers weigh at most what was staked before it. */
  lemma UnstakedWithinStaked(ctx: Ctx, o: Origin, cores: seq<TxCore>, s: State, acc: Acc)
    requires Ready(ctx, o, cores, s, acc)
    ensures Unstaked(BodyListed(cores, IsUnstake)) <= WeightTotal(o.start.boxes)
  {
    var unstakes := BodyListed(cores, IsUnstake);
    BodyListIsLive(ctx, o, cores, s, acc, IsUnstake);
    ListedWeight(s.boxes, unstakes);
    UnstakedIsSum(unstakes);
    ReadyWeight(ctx, o, cores, s, acc);
  }

  lemma ReadyWeight(ctx: Ctx, o: Origin, cores: seq<TxCore>, s: State, acc: Acc)
    requires Ready(ctx, o, cores, s, acc)
    ensures WeightTotal(s.boxes) == WeightTotal(o.start.boxes)
  {
  }

  lemma {:induction false} UnstakedIsSum(ls: seq<Live>)
    ensures Unstaked(ls) == LiveSum(ls, WeightOf())
  {
    if ls != [] {
      UnstakedIsSum(ls[1..]);
    }
  }

  lemma ActiveIsBacked(ctx: Ctx, before: Boxes, height: nat, cap: Captured, base: nat, unstakes: seq<Live>)
    requires BackerSound(ctx, before) && cap.backerPool == FirstLive(ctx, before, IsBackerPool)
    requires Unstaked(unstakes) <= WeightTotal(before)
    ensures var backer := BackerOf(ctx, cap, height, base, unstakes);
      backer.Some? && BackerMove(backer.value, unstakes, height).Some?
  {
    FirstLiveIs(ctx, before, IsBackerPool);
    if cap.backerPool.Some? {
      var pool := cap.backerPool.value;
      assert before[pool.id] == pool.box;
      var backer := BackerOf(ctx, cap, height, base, unstakes);
      assert backer.Some?;
      if backer.value.Active? {
        ActivePoolSound(ctx, before, height, cap, base, unstakes, backer.value);
      }
    }
  }

  /** The backer leg derives: no more weight unstakes than is staked, and the pool covers what it releases. */
  ghost predicate Backed(ctx: Ctx, cap: Captured, height: nat, unstakes: seq<Live>, base: nat) {
    var backer := BackerOf(ctx, cap, height, base, unstakes);
    backer.Some? && BackerMove(backer.value, unstakes, height).Some?
  }

  /** More weight is never unstaked than is staked, and the pool never falls below what it releases. */
  lemma BackersAlwaysBacked(
    ctx: Ctx, o: Origin, cores: seq<TxCore>, s: State, acc: Acc, height: nat, cap: Captured, body: SettlementBody)
    requires Deriving(ctx, o, cores, s, acc, height, cap, body)
    ensures forall base :: Backed(ctx, cap, height, body.unstakes, base)
  {
    UnstakedWithinStaked(ctx, o, cores, s, acc);
    forall base ensures Backed(ctx, cap, height, body.unstakes, base) {
      ActiveIsBacked(ctx, o.start.boxes, height, cap, base, body.unstakes);
    }
  }

  /** The pool can take part: nothing moves through it, or it is there and covers the grants. */
  ghost predicate PoolCovers(pool: Option<Live>, draw: nat, sink: nat) {
    (draw == 0 && sink == 0) || (pool.Some? && pool.value.box.value + sink >= draw)
  }

  /** What goes into the pool, read ahead of the body. */
  lemma SinkSame(
    ctx: Ctx, o: Origin, cores: seq<TxCore>, s: State, acc: Acc, height: nat, cap: Captured, body: SettlementBody)
    requires Deriving(ctx, o, cores, s, acc, height, cap, body)
    ensures PoolSink(s.records, cap, body, LegsOf(ctx, s, cap, height, body))
      == PoolSink(o.start.records, cap, body, LegsOf(ctx, o.start, cap, height, body))
  {
    Producer.LegsSame(ctx, o, cores, s, acc, height, cap, body);
    BondsOfLegs(ctx, s, cap, height, body);
    BondsOfLegs(ctx, o.start, cap, height, body);
  }

  lemma BondsOfLegs(ctx: Ctx, s: State, cap: Captured, height: nat, body: SettlementBody)
    ensures LegsOf(ctx, s, cap, height, body).bonds == BondsSettlingAt(ctx, s, height)
  {
  }

  /**
   * A block's settlement derives exactly where the chain holds an emission box and its karma pool covers the
   * grants, both as they stand before the body.
   */
  lemma DerivesExactlyWhere(
    ctx: Ctx, o: Origin, cores: seq<TxCore>, s: State, acc: Acc, height: nat, cap: Captured, body: SettlementBody)
    requires Deriving(ctx, o, cores, s, acc, height, cap, body)
    ensures Derive(ctx, s, cap, height, body).Some? <==>
      && FirstLive(ctx, o.start.boxes, IsEmission).Some?
      && PoolCovers(FirstLive(ctx, o.start.boxes, IsKarmaPool), FaceOf(body.bonds),
           PoolSink(o.start.records, cap, body, LegsOf(ctx, o.start, cap, height, body)))
  {
    SinkSame(ctx, o, cores, s, acc, height, cap, body);
    Producer.ProtocolReadsSame(ctx, o, cores, s, acc, IsEmission);
    Producer.ProtocolReadsSame(ctx, o, cores, s, acc, IsKarmaPool);
    SlicesBacked(ctx, o, cores, s, acc, height, cap, body);
    DerivesWhere(ctx, s, cap, height, body);
  }

  lemma DerivesWhere(ctx: Ctx, s: State, cap: Captured, height: nat, body: SettlementBody)
    requires ValidCtx(ctx)
    requires FirstLive(ctx, s.boxes, IsEmission).Some? ==>
      && SlicesOf(ctx, s.boxes, cap, height, body).Some?
      && BackerMove(SlicesOf(ctx, s.boxes, cap, height, body).value.backer, body.unstakes, height).Some?
    ensures Derive(ctx, s, cap, height, body).Some? <==>
      && FirstLive(ctx, s.boxes, IsEmission).Some?
      && PoolCovers(FirstLive(ctx, s.boxes, IsKarmaPool), FaceOf(body.bonds),
           PoolSink(s.records, cap, body, LegsOf(ctx, s, cap, height, body)))
  {
  }

  lemma SlicesBacked(
    ctx: Ctx, o: Origin, cores: seq<TxCore>, s: State, acc: Acc, height: nat, cap: Captured, body: SettlementBody)
    requires Deriving(ctx, o, cores, s, acc, height, cap, body)
    ensures FirstLive(ctx, s.boxes, IsEmission).Some? ==>
      && SlicesOf(ctx, s.boxes, cap, height, body).Some?
      && BackerMove(SlicesOf(ctx, s.boxes, cap, height, body).value.backer, body.unstakes, height).Some?
  {
    BackersAlwaysBacked(ctx, o, cores, s, acc, height, cap, body);
    SlicesThere(ctx, s.boxes, cap, height, body);
  }

  lemma SlicesThere(ctx: Ctx, boxes: Boxes, cap: Captured, height: nat, body: SettlementBody)
    requires ValidCtx(ctx) && forall base :: Backed(ctx, cap, height, body.unstakes, base)
    ensures var slices := SlicesOf(ctx, boxes, cap, height, body);
      FirstLive(ctx, boxes, IsEmission).Some? ==>
        slices.Some? && BackerMove(slices.value.backer, body.unstakes, height).Some?
  {
    var emission := FirstLive(ctx, boxes, IsEmission);
    if emission.Some? {
      var box := emission.value.box;
      var owed := BlockReward(ctx, height);
      var release := if owed < box.value then owed else box.value;
      assert Backed(ctx, cap, height, body.unstakes, release + body.fees);
    }
  }
}
