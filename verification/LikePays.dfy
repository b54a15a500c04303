/** What a block's like payouts become: the author's marked karma box, and the karma pool's successor. */
module LikePays {
  import opened Wrappers
  import opened Sums
  import opened Orders
  import opened Ledger
  import opened Engine
  import opened Body
  import opened Coinbase
  import opened Queries
  import opened Decay
  import opened Settlement
  import opened Blocks
  import opened Applying
  import opened Invariant
  import opened BodyKeeps
  import opened BodyOutcome
  import opened AfterBody
  import opened SettleInputs
  import opened SettleBalance
  import opened BlockStep
  import opened Runs
  import opened LikeRuns
  import Producer
  import Backable

  // ---------------------------------------------------------------------------
  // The income leg
  // ---------------------------------------------------------------------------

  lemma {:induction false} EarnedJoin(a: seq<Earning>, b: seq<Earning>, owner: Key)
    ensures Earned(a + b, owner) == Earned(a, owner) + Earned(b, owner)
  {
    if a == [] {
      assert a + b == b;
    } else {
      assert (a + b)[1..] == a[1..] + b;
      EarnedJoin(a[1..], b, owner);
    }
  }

  lemma {:induction false} WhoEarns(es: seq<Earning>, owner: Key)
    requires Earned(es, owner) > 0
    ensures owner in Earners(es)
  {
    if !(es[0].owner == owner && es[0].amount > 0) {
      WhoEarns(es[1..], owner);
      var e :| e in es[1..] && e.amount > 0 && e.owner == owner;
      assert e in es;
    } else {
      assert es[0] in es;
    }
  }

  /** What an earner's marked box is worth: what it held, and what the owner earned. */
  ghost function MarkedValue(ctx: Ctx, boxes: Boxes, es: seq<Earning>, spent: set<BoxId>, owner: Key): nat {
    CarriedValue(IncomeBox(ctx, boxes, owner, spent)) + Earned(es, owner)
  }

  /** An earner's one marked box is put out. */
  lemma {:induction false} IncomeIsOut(
    ctx: Ctx, boxes: Boxes, es: seq<Earning>, spent: set<BoxId>, owners: seq<Key>, height: nat, owner: Key)
    requires owner in owners && Earned(es, owner) > 0
    ensures Karma(MarkedValue(ctx, boxes, es, spent, owner), height, owner, true)
      in IncomeOutputs(height, IncomesFor(ctx, boxes, es, spent, owners))
  {
    var ins := IncomesFor(ctx, boxes, es, spent, owners);
    assert ins[1..] == IncomesFor(ctx, boxes, es, spent, owners[1..]);
    if owners[0] != owner {
      IncomeIsOut(ctx, boxes, es, spent, owners[1..], height, owner);
    }
  }

  // ---------------------------------------------------------------------------
  // The author's box
  // ---------------------------------------------------------------------------

  ghost function CapturedBy(ctx: Ctx, s: State, block: Block): Captured
    requires ValidCtx(ctx)
  {
    CapturedOf(ctx, Confirmed(s, block), CoresOf(block.queue), block.height)
  }

  /** What the block settles to the author beside likes: bonds vested and escrows returned. */
  ghost function SettledBeside(ctx: Ctx, s: State, block: Block, author: Key): nat {
    Earned(FromBonds(s.records, BondsSettlingAt(ctx, s, block.height)), author)
    + Earned(FromEscrows(EscrowsReleasableAt(ctx, s.boxes, block.height)), author)
  }

  /** What the author's marked box held, unless the body spends it or decay charges it. */
  ghost function IncomeBefore(ctx: Ctx, s: State, block: Block, author: Key): nat
    requires ValidCtx(ctx)
  {
    var cap := CapturedBy(ctx, s, block);
    CarriedValue(IncomeBox(ctx, s.boxes, author, ChargedOrSpent(cap)))
  }

  ghost predicate HoldsMarked(boxes: Boxes, author: Key, value: nat, height: nat) {
    exists id :: id in boxes && boxes[id] == Karma(value, height, author, true)
  }

  /** All that the block settles to the author. */
  ghost function Gained(ctx: Ctx, s: State, block: Block, author: Key): nat {
    BlockTally(ctx, s, block, author).paid + SettledBeside(ctx, s, block, author)
  }

  ghost function MarkedAfter(ctx: Ctx, s: State, block: Block, author: Key): nat
    requires ValidCtx(ctx)
  {
    IncomeBefore(ctx, s, block, author) + Gained(ctx, s, block, author)
  }

  /** What the author gained stands on the author's marked box, over what that box held. */
  ghost predicate AuthorHas(ctx: Ctx, s: State, block: Block, author: Key, after: Boxes)
    requires ValidCtx(ctx)
  {
    Gained(ctx, s, block, author) > 0 ==>
      HoldsMarked(after, author, MarkedAfter(ctx, s, block, author), block.height)
  }

  /** An output stands under its own id. */
  lemma OutputStands(boxes: Boxes, core: TxCore, b: Box) returns (id: BoxId)
    requires b in core.outputs
    ensures id in AfterTx(boxes, core) && AfterTx(boxes, core)[id] == b
  {
    var i :| 0 <= i < |core.outputs| && core.outputs[i] == b;
    assert Out(core, i) in OutputsFrom(core, 0);
    id := Out(core, i);
  }

  lemma LegOutputs(ctx: Ctx, s: State, cap: Captured, height: nat, body: SettlementBody, d: Derived)
    requires ValidCtx(ctx) && Derive(ctx, s, cap, height, body) == Some(d)
    ensures forall b | b in IncomeOutputs(height, LegsOf(ctx, s, cap, height, body).incomes) :: b in d.outputs
    ensures var pool := PoolMove(ctx, s.boxes, PoolDraw(body),
      PoolSink(s.records, cap, body, LegsOf(ctx, s, cap, height, body)), height);
      pool.Some? && forall b | b in pool.value.emitted :: b in d.outputs
  {
  }

  /** The legs are read alike before the body and after it. */
  lemma LegsBefore(
    ctx: Ctx, o: Origin, cores: seq<TxCore>, now: State, acc: Acc, height: nat, cap: Captured, body: SettlementBody)
    requires Deriving(ctx, o, cores, now, acc, height, cap, body)
    ensures LegsOf(ctx, now, cap, height, body) == LegsOf(ctx, o.start, cap, height, body)
  {
    Producer.LegsSame(ctx, o, cores, now, acc, height, cap, body);
  }

  lemma IncomesAreOut(
    ctx: Ctx, o: Origin, cores: seq<TxCore>, now: State, acc: Acc, height: nat, cap: Captured, body: SettlementBody,
    d: Derived, core: TxCore, tail: seq<Box>)
    requires Settling(ctx, o, cores, now, acc, height, cap, body, d, core, tail)
    ensures forall b | b in IncomeOutputs(height, LegsOf(ctx, o.start, cap, height, body).incomes) :: b in core.outputs
  {
    LegsBefore(ctx, o, cores, now, acc, height, cap, body);
    LegOutputs(ctx, now, cap, height, body, d);
    Prefixed(d.outputs, tail);
  }

  lemma Prefixed(a: seq<Box>, b: seq<Box>)
    ensures forall x | x in a :: x in a + b
  {
  }

  ghost function ChargedOrSpent(cap: Captured): set<BoxId> { cap.spent + IdSet(Consumed(cap.plans)) }

  /** The income leg's boxes are all put out. */
  ghost predicate IncomesOut(
    ctx: Ctx, boxes: Boxes, es: seq<Earning>, spent: set<BoxId>, height: nat, outputs: seq<Box>)
  {
    forall b | b in IncomeOutputs(height, IncomesFor(ctx, boxes, es, spent, Ascending(Earners(es)))) :: b in outputs
  }

  lemma IncomesOfLegs(ctx: Ctx, s: State, cap: Captured, height: nat, body: SettlementBody, outputs: seq<Box>)
    requires forall b | b in IncomeOutputs(height, LegsOf(ctx, s, cap, height, body).incomes) :: b in outputs
    ensures IncomesOut(ctx, s.boxes, LegsOf(ctx, s, cap, height, body).earnings, ChargedOrSpent(cap), height, outputs)
  {
  }

  /** An earner's box stands after the settlement. */
  lemma EarnerStands(
    ctx: Ctx, before: Boxes, es: seq<Earning>, spent: set<BoxId>, height: nat, boxes: Boxes, core: TxCore, author: Key,
    value: nat)
    requires IncomesOut(ctx, before, es, spent, height, core.outputs)
    requires value == MarkedValue(ctx, before, es, spent, author) && Earned(es, author) > 0
    ensures HoldsMarked(AfterTx(boxes, core), author, value, height)
  {
    WhoEarns(es, author);
    AscendingLists(Earners(es));
    assert author in Members(Ascending(Earners(es)));
    IncomeIsOut(ctx, before, es, spent, Ascending(Earners(es)), height, author);
    var id := OutputStands(boxes, core, Karma(value, height, author, true));
  }

  /** The legs' earnings, kind by kind. */
  lemma EarnedByKind(ctx: Ctx, s: State, cap: Captured, height: nat, body: SettlementBody, author: Key)
    ensures Earned(LegsOf(ctx, s, cap, height, body).earnings, author)
      == PaidTo(LikePayouts(ctx, s.boxes, body.markers), author)
        + Earned(FromBonds(s.records, BondsSettlingAt(ctx, s, height)), author)
        + Earned(FromEscrows(cap.escrows), author)
  {
    var paid := FromLikes(LikePayouts(ctx, s.boxes, body.markers));
    var vested := FromBonds(s.records, BondsSettlingAt(ctx, s, height));
    EarnedJoin(paid + vested, FromEscrows(cap.escrows), author);
    EarnedJoin(paid, vested, author);
  }

  /**
   * After an accepted block what it paid the author, with the bonds vested and escrows returned to the author, stands
   * on the author's marked karma box over what that box held.
   */
  lemma BlockPaysAuthor(ctx: Ctx, s: State, height: int, applied: set<TxCore>, block: Block, author: Key)
    requires ValidCtx(ctx) && Inv(ctx, s, height, applied) && 0 <= height < block.height
    requires ApplyBlock(ctx, s, block).Done?
    ensures AuthorHas(ctx, s, block, author, ApplyBlock(ctx, s, block).value.boxes)
  {
    var now, acc, cap, body, d, tail := AcceptedSettles(ctx, s, height, applied, block);
    var es := SettledGain(ctx, s, applied, block, now, acc, cap, body, d, tail, author);
    MarkedIs(ctx, s, block, author, es);
    if Gained(ctx, s, block, author) > 0 {
      EarnerStands(ctx, s.boxes, es, ChargedOrSpent(CapturedBy(ctx, s, block)), block.height, now.boxes,
        block.settlement.value.core, author, MarkedAfter(ctx, s, block, author));
    }
  }

  lemma MarkedIs(ctx: Ctx, s: State, block: Block, author: Key, es: seq<Earning>)
    requires ValidCtx(ctx) && Earned(es, author) == Gained(ctx, s, block, author)
    ensures MarkedAfter(ctx, s, block, author)
      == MarkedValue(ctx, s.boxes, es, ChargedOrSpent(CapturedBy(ctx, s, block)), author)
  {
  }

  /** What an accepted block's settlement puts out for the author, over the state before its body. */
  lemma SettledGain(
    ctx: Ctx, s: State, applied: set<TxCore>, block: Block, now: State, acc: Acc, cap: Captured, body: SettlementBody,
    d: Derived, tail: seq<Box>, author: Key)
    returns (es: seq<Earning>)
    requires block.settlement.Some?
    requires Settling(ctx, OriginOf(s, block, applied), CoresOf(block.queue), now, acc, block.height, cap, body, d,
      block.settlement.value.core, tail)
    ensures ValidCtx(ctx) && IncomesOut(ctx, s.boxes, es, ChargedOrSpent(CapturedBy(ctx, s, block)), block.height,
      block.settlement.value.core.outputs)
    ensures Earned(es, author) == Gained(ctx, s, block, author)
  {
    IncomesAreOut(ctx, OriginOf(s, block, applied), CoresOf(block.queue), now, acc, block.height, cap, body, d,
      block.settlement.value.core, tail);
    IncomesOfLegs(ctx, Confirmed(s, block), cap, block.height, body, block.settlement.value.core.outputs);
    es := LegsOf(ctx, Confirmed(s, block), cap, block.height, body).earnings;
    GainedBy(ctx, s, block, cap, body, author);
  }

  lemma GainedBy(ctx: Ctx, s: State, block: Block, cap: Captured, body: SettlementBody, author: Key)
    requires ValidCtx(ctx) && cap == CapturedBy(ctx, s, block) && body.markers == MarkersOf(block)
    ensures Earned(LegsOf(ctx, Confirmed(s, block), cap, block.height, body).earnings, author)
      == Gained(ctx, s, block, author)
  {
    EarnedByKind(ctx, Confirmed(s, block), cap, block.height, body, author);
  }

  // ---------------------------------------------------------------------------
  // The pool's successor
  // ---------------------------------------------------------------------------

  function PooledElse(ps: seq<Payout>, author: Key): nat {
    if ps == [] then 0 else (if ps[0].author == author then 0 else ps[0].pooled) + PooledElse(ps[1..], author)
  }

  lemma {:induction false} PooledParts(ps: seq<Payout>, author: Key)
    ensures Pooled(ps) == PooledFrom(ps, author) + PooledElse(ps, author)
  {
    if ps != [] {
      PooledParts(ps[1..], author);
    }
  }

  /** What goes into the pool beside the author's lots: prices, the other authors' lots, forfeits and decay. */
  ghost function SunkBeside(ctx: Ctx, s: State, block: Block, author: Key): nat
    requires ValidCtx(ctx)
  {
    FaceOf(BodyListed(CoresOf(block.queue), IsPrice)) + PooledElse(LikePayouts(ctx, s.boxes, MarkersOf(block)), author)
    + Forfeited(s.records, BondsSettlingAt(ctx, s, block.height)) + Burned(CapturedBy(ctx, s, block).plans)
  }

  /** All that the block puts into the pool. */
  ghost function Sunk(ctx: Ctx, s: State, block: Block, author: Key): nat
    requires ValidCtx(ctx)
  {
    BlockTally(ctx, s, block, author).pooled + SunkBeside(ctx, s, block, author)
  }

  ghost predicate HoldsPool(boxes: Boxes, value: int, height: nat) {
    exists id :: id in boxes && boxes[id].KarmaPool? && boxes[id].value == value && boxes[id].createdAtBlock == height
  }

  ghost predicate PoolOut(ctx: Ctx, boxes: Boxes, draw: nat, sink: nat, height: nat, outputs: seq<Box>) {
    var move := PoolMove(ctx, boxes, draw, sink, height);
    move.Some? && forall b | b in move.value.emitted :: b in outputs
  }

  lemma PoolIsOut(
    ctx: Ctx, o: Origin, cores: seq<TxCore>, now: State, acc: Acc, height: nat, cap: Captured, body: SettlementBody,
    d: Derived, core: TxCore, tail: seq<Box>)
    requires Settling(ctx, o, cores, now, acc, height, cap, body, d, core, tail)
    ensures PoolOut(ctx, o.start.boxes, PoolDraw(body),
      PoolSink(o.start.records, cap, body, LegsOf(ctx, o.start, cap, height, body)), height, core.outputs)
  {
    PoolReadSame(ctx, o, cores, now, acc);
    Backable.SinkSame(ctx, o, cores, now, acc, height, cap, body);
    LegOutputs(ctx, now, cap, height, body, d);
    Prefixed(d.outputs, tail);
  }

  lemma PoolReadSame(ctx: Ctx, o: Origin, cores: seq<TxCore>, now: State, acc: Acc)
    requires Ready(ctx, o, cores, now, acc)
    ensures forall draw: nat, sink: nat, height: nat ::
      PoolMove(ctx, now.boxes, draw, sink, height) == PoolMove(ctx, o.start.boxes, draw, sink, height)
  {
    Producer.ProtocolReadsSame(ctx, o, cores, now, acc, IsKarmaPool);
  }

  /** A pool that receives has a successor, worth what it held less the grants and more what it received. */
  ghost predicate PoolHas(ctx: Ctx, before: Boxes, draw: nat, sink: nat, height: nat, after: Boxes) {
    var pool := FirstLive(ctx, before, IsKarmaPool);
    sink > 0 ==> pool.Some? && HoldsPool(after, pool.value.box.value - draw + sink, height)
  }

  lemma PoolStands(ctx: Ctx, before: Boxes, draw: nat, sink: nat, height: nat, boxes: Boxes, core: TxCore)
    requires PoolOut(ctx, before, draw, sink, height, core.outputs)
    ensures PoolHas(ctx, before, draw, sink, height, AfterTx(boxes, core))
  {
    if sink > 0 {
      var b := PoolMove(ctx, before, draw, sink, height).value.emitted[0];
      assert b in PoolMove(ctx, before, draw, sink, height).value.emitted;
      var id := OutputStands(boxes, core, b);
    }
  }

  /** After an accepted block what it pooled of the author's likes stands on the pool's successor. */
  lemma BlockPoolsLots(ctx: Ctx, s: State, height: int, applied: set<TxCore>, block: Block, author: Key)
    requires ValidCtx(ctx) && Inv(ctx, s, height, applied) && 0 <= height < block.height
    requires ApplyBlock(ctx, s, block).Done?
    ensures PoolHas(ctx, s.boxes, FaceOf(BodyListed(CoresOf(block.queue), IsBond)), Sunk(ctx, s, block, author),
      block.height, ApplyBlock(ctx, s, block).value.boxes)
  {
    var now, acc, cap, body, d, tail := AcceptedSettles(ctx, s, height, applied, block);
    var draw := FaceOf(BodyListed(CoresOf(block.queue), IsBond));
    var sunk := Sunk(ctx, s, block, author);
    SettledSink(ctx, s, applied, block, now, acc, cap, body, d, tail, author, draw, sunk);
    PoolStands(ctx, s.boxes, draw, sunk, block.height, now.boxes, block.settlement.value.core);
  }

  lemma SettledSink(
    ctx: Ctx, s: State, applied: set<TxCore>, block: Block, now: State, acc: Acc, cap: Captured, body: SettlementBody,
    d: Derived, tail: seq<Box>, author: Key, draw: nat, sunk: nat)
    requires block.settlement.Some? && ValidCtx(ctx)
    requires Settling(ctx, OriginOf(s, block, applied), CoresOf(block.queue), now, acc, block.height, cap, body, d,
      block.settlement.value.core, tail)
    requires draw == FaceOf(BodyListed(CoresOf(block.queue), IsBond))
    requires sunk == Sunk(ctx, s, block, author)
    ensures PoolOut(ctx, s.boxes, draw, sunk, block.height, block.settlement.value.core.outputs)
  {
    var o := OriginOf(s, block, applied);
    PoolIsOut(ctx, o, CoresOf(block.queue), now, acc, block.height, cap, body, d, block.settlement.value.core, tail);
    SunkInFull(ctx, s, block, cap, body, author);
    SameSink(ctx, o.start, s, cap, block.height, body, draw, sunk, block.settlement.value.core.outputs);
  }

  lemma SameSink(
    ctx: Ctx, start: State, s: State, cap: Captured, height: nat, body: SettlementBody, draw: nat, sunk: nat,
    outputs: seq<Box>)
    requires PoolOut(ctx, start.boxes, PoolDraw(body),
      PoolSink(start.records, cap, body, LegsOf(ctx, start, cap, height, body)), height, outputs)
    requires start.boxes == s.boxes && draw == PoolDraw(body)
    requires sunk == PoolSink(start.records, cap, body, LegsOf(ctx, start, cap, height, body))
    ensures PoolOut(ctx, s.boxes, draw, sunk, height, outputs)
  {
  }

  lemma SunkInFull(ctx: Ctx, s: State, block: Block, cap: Captured, body: SettlementBody, author: Key)
    requires ValidCtx(ctx) && cap == CapturedBy(ctx, s, block)
    requires body.markers == MarkersOf(block) && body.prices == BodyListed(CoresOf(block.queue), IsPrice)
    ensures var start := Confirmed(s, block);
      PoolSink(start.records, cap, body, LegsOf(ctx, start, cap, block.height, body))
        == Sunk(ctx, s, block, author)
  {
    PooledParts(LikePayouts(ctx, s.boxes, MarkersOf(block)), author);
  }

  // ---------------------------------------------------------------------------
  // Over a run
  // ---------------------------------------------------------------------------

  /** A block's tally stands on its boxes: what it paid on the author's marked one, what it pooled on the pool's. */
  ghost predicate TallyStands(ctx: Ctx, s: State, block: Block, author: Key, after: Boxes)
    requires ValidCtx(ctx)
  {
    && AuthorHas(ctx, s, block, author, after)
    && PoolHas(ctx, s.boxes, FaceOf(BodyListed(CoresOf(block.queue), IsBond)), Sunk(ctx, s, block, author),
         block.height, after)
  }

  /** So it is at each block of a run. */
  ghost predicate TalliesStand(ctx: Ctx, s: State, blocks: seq<Block>, author: Key)
    requires ValidCtx(ctx)
    decreases |blocks|
  {
    blocks != [] ==>
      var first := ApplyBlock(ctx, s, blocks[0]);
      first.Done? ==>
        TallyStands(ctx, s, blocks[0], author, first.value.boxes)
        && TalliesStand(ctx, first.value, blocks[1..], author)
  }

  /** Of any run, what each block's tally says it paid and pooled stands on the boxes the block leaves. */
  lemma {:induction false} LotsReachTheirBoxes(
    ctx: Ctx, s: State, height: int, applied: set<TxCore>, blocks: seq<Block>, author: Key)
    requires ValidCtx(ctx) && Inv(ctx, s, height, applied) && height >= 0
    requires Run(ctx, s, height, blocks).Done?
    ensures TalliesStand(ctx, s, blocks, author)
    decreases |blocks|, 1
  {
    if blocks != [] {
      BlockKeeps(ctx, s, height, applied, blocks[0]);
      BlockPaysAuthor(ctx, s, height, applied, blocks[0], author);
      BlockPoolsLots(ctx, s, height, applied, blocks[0], author);
      LotsReachOn(ctx, ApplyBlock(ctx, s, blocks[0]), blocks[0].height, applied + BlockCores(blocks[0]), blocks[1..],
        author);
    }
  }

  lemma {:induction false} LotsReachOn(
    ctx: Ctx, first: Outcome<State>, height: int, applied: set<TxCore>, rest: seq<Block>, author: Key)
    requires ValidCtx(ctx) && height >= 0 && first.Done? && Inv(ctx, first.value, height, applied)
    requires RunOn(ctx, first, height, rest).Done?
    ensures TalliesStand(ctx, first.value, rest, author)
    decreases |rest|, 2
  {
    LotsReachTheirBoxes(ctx, first.value, height, applied, rest, author);
  }
}
