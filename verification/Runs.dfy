/** Whole runs of blocks: nothing throws, every count stays exact, both ledgers are conserved. */
module Runs {
  import opened Wrappers
  import opened Sums
  import opened Orders
  import opened Ledger
  import opened Engine
  import opened Body
  import opened Coinbase
  import opened Queries
  import opened Decay
  import opened Settlement
  import opened Blocks
  import opened Applying
  import opened Lawful
  import opened Invariant
  import opened BodyRun
  import opened BodyKeeps
  import opened BodyOutcome
  import opened AfterBody
  import opened SettleInputs
  import opened SettledBoxes
  import opened SettledState
  import opened SettledBackers
  import opened SettledPeople
  import opened SettleBalance
  import opened Closing
  import opened Closed
  import opened BlockStep

  // ---------------------------------------------------------------------------
  // The settled state closes
  // ---------------------------------------------------------------------------

  lemma VouchersStillSettled(
    ctx: Ctx, o: Origin, s: State, acc: Acc, core: TxCore, records: Records, height: nat)
    requires Aged(o.start.records, records) && RecordsOk(o.start.records, height - 1)
    requires forall id | id in AfterTx(s.boxes, core) ::
      SettledRegistered(AfterTx(s.boxes, core)[id], o.start.records, acc.invited.Keys)
    ensures VouchersSettled(AfterTx(s.boxes, core), records, height)
  {
    var after := AfterTx(s.boxes, core);
    forall id | id in after && after[id].Vouch?
      ensures after[id].voucherId in records && 0 < records[after[id].voucherId].memberSinceBlock < height
    {
      var voucher := after[id].voucherId;
      assert SettledRegistered(after[id], o.start.records, acc.invited.Keys);
      assert SameStanding(o.start.records[voucher], records[voucher]) && RecordOk(o.start.records[voucher], height - 1);
    }
  }

  /** The settlement's own effect on the counts: the vouches it lapses, and no others. */
  lemma SettlementCounts(
    ctx: Ctx, o: Origin, cores: seq<TxCore>, s: State, acc: Acc, height: nat, cap: Captured, body: SettlementBody,
    d: Derived, core: TxCore, tail: seq<Box>)
    requires Settling(ctx, o, cores, s, acc, height, cap, body, d, core, tail)
    ensures ApplyTx(s, acc.taken, core).Some?
    ensures var t := ApplyTx(s, acc.taken, core).value;
      && t.boxes == AfterTx(s.boxes, core) && SameBeside(s, t)
      && Aged(s.records, t.records)
      && VouchParties(t.boxes, t.records) && VouchesCounted(t.boxes, t.records)
      && forall k | k !in LapseTargets(cap.lapsed) :: Unmoved(s.records, t.records, k)
  {
    SettlementAppliable(ctx, o, cores, s, acc, height, cap, body, d, core, tail);
    ReadyCounted(ctx, o, cores, s, acc);
    ApplyTxEffect(s, acc.taken, core);
    DerivedInputsAreLive(ctx, o, cores, s, acc, height, cap, body);
    VouchesOnlyLapse(ctx, o, cores, s, acc, height, cap, body, d);
    NoVouchOut(ctx, s, cap, height, body, d, core, tail);
    var t := ApplyTx(s, acc.taken, core).value;
    forall k | k !in LapseTargets(cap.lapsed) ensures Unmoved(s.records, t.records, k) {
      LapsesSpareOthers(s.boxes, core, d.inputs, cap.lapsed, k);
    }
  }

  lemma ReadyInvited(ctx: Ctx, o: Origin, cores: seq<TxCore>, s: State, acc: Acc)
    requires Ready(ctx, o, cores, s, acc)
    ensures forall k | k in acc.invited :: k !in o.start.records && acc.invited[k] in o.start.records
  {
  }

  lemma LapsedAreLive(ctx: Ctx, o: Origin, cores: seq<TxCore>, s: State, acc: Acc)
    requires Ready(ctx, o, cores, s, acc)
    ensures forall l | l in LessSpent(LapsedVouches(o.start), InputsOf(cores)) ::
      l.box.Vouch? && l.id in s.boxes && s.boxes[l.id] == l.box
  {
    LapsesLeft(o.start, o.inputs);
    LapsesStay(ctx, o, cores, s, acc);
  }

  /** What stands once the settlement's boxes are in is ready to close. */
  lemma SettledCloses(
    ctx: Ctx, o: Origin, cores: seq<TxCore>, s: State, acc: Acc, height: nat, cap: Captured, body: SettlementBody,
    d: Derived, core: TxCore, tail: seq<Box>)
    requires Settling(ctx, o, cores, s, acc, height, cap, body, d, core, tail)
    requires AuthorsKnown(o.start.posts, o.start.records)
    requires height >= 1 && RecordsOk(o.start.records, height - 1) && o.start.memberCount == MembersOf(o.start.records)
    ensures ApplyTx(s, acc.taken, core).Some?
    ensures Closable(o, ApplyTx(s, acc.taken, core).value, CaptureLapses(acc, s.records, cap.lapsed), height)
  {
    SettlementCounts(ctx, o, cores, s, acc, height, cap, body, d, core, tail);
    var t := ApplyTx(s, acc.taken, core).value;
    ReadyCounted(ctx, o, cores, s, acc);
    ReadyInvited(ctx, o, cores, s, acc);
    LapsedAreLive(ctx, o, cores, s, acc);
    LapsesCaptured(o, s, acc, cap.lapsed, t.records);
    AgedTransitive(o.start.records, s.records, t.records);
    AllSettledRegistered(ctx, o, cores, s, acc, height, cap, body, d, core, tail);
    VouchersStillSettled(ctx, o, s, acc, core, t.records, height);
    var captured := CaptureLapses(acc, s.records, cap.lapsed);
    SameTouched(o, s.(records := t.records), captured, t, captured);
  }

  // ---------------------------------------------------------------------------
  // The closed state
  // ---------------------------------------------------------------------------

  lemma ClosedRegistered(o: Origin, invited: set<Key>, b: Box, records: Records, height: nat)
    requires SettledRegistered(b, o.start.records, invited) && height >= 1
    requires forall k | k in o.start.records :: k in records && StillKnown(o.start.records[k], records[k])
    requires forall k | k in invited :: k in records && records[k].invitedAtBlock == height
    ensures Registered(b, records)
  {
  }

  lemma ClosedBoxesOk(
    ctx: Ctx, o: Origin, cores: seq<TxCore>, s: State, acc: Acc, height: nat, cap: Captured, body: SettlementBody,
    d: Derived, core: TxCore, tail: seq<Box>, u: State)
    requires Settling(ctx, o, cores, s, acc, height, cap, body, d, core, tail)
    requires AuthorsKnown(o.start.posts, o.start.records) && height >= 1
    requires u.boxes == AfterTx(s.boxes, core)
    requires forall k | k in o.start.records :: k in u.records && StillKnown(o.start.records[k], u.records[k])
    requires forall k | k in acc.invited :: k in u.records && u.records[k].invitedAtBlock == height
    ensures BoxesOk(ctx, u)
  {
    SettlementIsNew(ctx, o, cores, s, acc, height, cap, body, d, core, tail);
    TransientsGone(ctx, o, cores, s, acc, height, cap, body, d, core, tail);
    SettledApart(ctx, o, cores, s, acc, height, cap, body, d, core, tail);
    CarriesSmall(ctx, o, cores, s, acc, height, cap, body, d, core, tail);
    BackersStaySound(ctx, o, cores, s, acc, height, cap, body, d, core, tail);
    AllSettledRegistered(ctx, o, cores, s, acc, height, cap, body, d, core, tail);
    ClosedAllRegistered(o, acc.invited.Keys, u, height);
  }

  lemma ClosedAllRegistered(o: Origin, invited: set<Key>, u: State, height: nat)
    requires height >= 1
    requires forall id | id in u.boxes :: SettledRegistered(u.boxes[id], o.start.records, invited)
    requires forall k | k in o.start.records :: k in u.records && StillKnown(o.start.records[k], u.records[k])
    requires forall k | k in invited :: k in u.records && u.records[k].invitedAtBlock == height
    ensures AllRegistered(u.boxes, u.records)
  {
    forall id | id in u.boxes ensures Registered(u.boxes[id], u.records) {
      ClosedRegistered(o, invited, u.boxes[id], u.records, height);
    }
  }

  lemma SettledHistory(
    ctx: Ctx, o: Origin, cores: seq<TxCore>, s: State, acc: Acc, height: nat, cap: Captured, body: SettlementBody,
    d: Derived, core: TxCore, tail: seq<Box>)
    requires Settling(ctx, o, cores, s, acc, height, cap, body, d, core, tail)
    ensures Historied(AfterTx(s.boxes, core), o.applied + Members(cores) + {core})
  {
    SettlementIsNew(ctx, o, cores, s, acc, height, cap, body, d, core, tail);
    DerivedInputsAreLive(ctx, o, cores, s, acc, height, cap, body);
    InputsDistinctAndLive(s.boxes, d.inputs);
    AppliedStaysHistoried(s.boxes, o.applied + Members(cores), core);
  }

  // ---------------------------------------------------------------------------
  // One block
  // ---------------------------------------------------------------------------

  /** Every transaction a block carries. */
  ghost function BlockCores(block: Block): set<TxCore>
    requires block.settlement.Some?
  {
    Members(CoresOf(block.queue)) + {block.settlement.value.core}
  }

  /** Nothing the block carries was ever applied, and it carries nothing twice. */
  ghost predicate AllFirst(block: Block, applied: set<TxCore>)
    requires block.settlement.Some?
  {
    && Distinct(CoresOf(block.queue))
    && block.settlement.value.core !in CoresOf(block.queue)
    && BlockCores(block) !! applied
  }

  /** A settlement block leaves what every reachable state keeps, or is refused: it never throws. */
  lemma SettledStep(
    ctx: Ctx, o: Origin, cores: seq<TxCore>, s: State, acc: Acc, height: nat, cap: Captured, body: SettlementBody,
    d: Derived, core: TxCore, tail: seq<Box>)
    requires Settling(ctx, o, cores, s, acc, height, cap, body, d, core, tail)
    requires AuthorsKnown(o.start.posts, o.start.records) && AuthorsKnown(s.posts, o.start.records)
    requires height >= 1 && RecordsOk(o.start.records, height - 1) && o.start.memberCount == MembersOf(o.start.records)
    ensures ApplyTx(s, acc.taken, core).Some?
    ensures var out := CloseBlock(ctx, ApplyTx(s, acc.taken, core).value, CaptureLapses(acc, s.records, cap.lapsed),
      cap.plans, height);
      && out.Done?
      && Inv(ctx, out.value, height, o.applied + Members(cores) + {core})
      && out.value.boxes == AfterTx(s.boxes, core)
  {
    SettlementCounts(ctx, o, cores, s, acc, height, cap, body, d, core, tail);
    SettledCloses(ctx, o, cores, s, acc, height, cap, body, d, core, tail);
    var t := ApplyTx(s, acc.taken, core).value;
    var captured := CaptureLapses(acc, s.records, cap.lapsed);
    BlockCloses(ctx, o, t, captured, cap.plans, height);
    var u := CloseBlock(ctx, t, captured, cap.plans, height).value;
    ClosedBoxesOk(ctx, o, cores, s, acc, height, cap, body, d, core, tail, u);
    SettledHistory(ctx, o, cores, s, acc, height, cap, body, d, core, tail);
    StandsClosed(o, t, captured, u, height);
  }

  lemma StandsClosed(o: Origin, t: State, acc: Acc, u: State, height: nat)
    requires ClosedRight(o, t, acc, u, height) && AuthorsKnown(t.posts, o.start.records)
    ensures StandingOk(u, height)
  {
  }

  lemma CheckMeans(ctx: Ctx, s: State, cap: Captured, height: nat, body: SettlementBody, settlement: Tx)
    returns (d: Derived, tail: seq<Box>)
    requires ValidCtx(ctx) && CheckSettlement(ctx, s, cap, height, body, settlement)
    ensures Derive(ctx, s, cap, height, body) == Some(d) && CoinbaseOk(d, height, tail)
    ensures settlement.core.inputs == Ids(d.inputs) && settlement.core.outputs == d.outputs + tail
    ensures settlement.core.payload.NoPayload?
  {
    d := Derive(ctx, s, cap, height, body).value;
    tail := settlement.core.outputs[|d.outputs|..];
    assert settlement.core.outputs == d.outputs + tail;
  }

  lemma CheckedSettles(
    ctx: Ctx, o: Origin, cores: seq<TxCore>, s: State, acc: Acc, height: nat, cap: Captured, body: SettlementBody,
    settlement: Tx)
    returns (d: Derived, tail: seq<Box>)
    requires Deriving(ctx, o, cores, s, acc, height, cap, body)
    requires CheckSettlement(ctx, s, cap, height, body, settlement)
    ensures Settling(ctx, o, cores, s, acc, height, cap, body, d, settlement.core, tail)
    ensures settlement.core.payload.NoPayload?
  {
    d, tail := CheckMeans(ctx, s, cap, height, body, settlement);
  }

  /** The state its body leaves, its withdrawals made. */
  ghost predicate Bodied(ctx: Ctx, s: State, applied: set<TxCore>, block: Block, now: State, acc: Acc)
    requires ValidCtx(ctx)
  {
    var body := BodyOutcomeOf(ctx, s, block);
    && body.Done? && acc == body.value.1
    && ApplyWithdrawals(body.value.0.posts, EntriesOf(block), block.height).Some?
    && now == body.value.0.(posts := ApplyWithdrawals(body.value.0.posts, EntriesOf(block), block.height).value)
  }

  lemma BodiedIsReady(ctx: Ctx, s: State, height: int, applied: set<TxCore>, block: Block, now: State, acc: Acc)
    requires ValidCtx(ctx) && Inv(ctx, s, height, applied) && Bodied(ctx, s, applied, block, now, acc)
    ensures Ready(ctx, OriginOf(s, block, applied), CoresOf(block.queue), now, acc)
  {
    BodyRuns(ctx, s, height, applied, block);
    var o := OriginOf(s, block, applied);
    var mid := BodyOutcomeOf(ctx, s, block).value.0;
    assert now.(posts := o.start.posts) == mid;
  }

  lemma PostsStayKnown(ctx: Ctx, s: State, height: int, applied: set<TxCore>, block: Block, now: State, acc: Acc)
    requires ValidCtx(ctx) && Inv(ctx, s, height, applied) && Bodied(ctx, s, applied, block, now, acc)
    requires block.settlement.Some? && block.settlement.value.core.payload.NoPayload?
    ensures var o := OriginOf(s, block, applied);
      AuthorsKnown(o.start.posts, o.start.records) && AuthorsKnown(now.posts, o.start.records)
  {
    var o := OriginOf(s, block, applied);
    BodyRuns(ctx, s, height, applied, block);
    PostersKnown(o, s.posts, block, CoresOf(block.queue));
    var mid := BodyOutcomeOf(ctx, s, block).value.0;
    WithdrawnAuthors(mid.posts, EntriesOf(block), block.height);
  }

  ghost predicate SameLedgers(before: Boxes, after: Boxes) {
    KarmaTotal(after) == KarmaTotal(before) && CreditTotal(after) == CreditTotal(before)
  }

  lemma SettledLedgers(
    ctx: Ctx, o: Origin, cores: seq<TxCore>, s: State, acc: Acc, height: nat, cap: Captured, body: SettlementBody,
    d: Derived, core: TxCore, tail: seq<Box>)
    requires Settling(ctx, o, cores, s, acc, height, cap, body, d, core, tail)
    ensures SameLedgers(o.start.boxes, AfterTx(s.boxes, core))
    ensures core !in o.applied && core !in cores && Distinct(cores) && (forall c | c in cores :: c !in o.applied)
  {
    SettlementIsNew(ctx, o, cores, s, acc, height, cap, body, d, core, tail);
    SettlementConserves(ctx, o, cores, s, acc, height, cap, body, d, core, tail);
    ReadyTotals(ctx, o, cores, s, acc);
  }

  lemma ReadyTotals(ctx: Ctx, o: Origin, cores: seq<TxCore>, s: State, acc: Acc)
    requires Ready(ctx, o, cores, s, acc)
    ensures SameLedgers(o.start.boxes, s.boxes) && Distinct(cores) && forall c | c in cores :: c !in o.applied
  {
  }

  /** What a block does to a reachable state: refused, or applied with everything kept and nothing made or lost. */
  ghost predicate KeepsAll(ctx: Ctx, s: State, applied: set<TxCore>, block: Block, out: Outcome<State>) {
    && !out.Thrown?
    && (out.Done? ==>
      && block.settlement.Some?
      && Inv(ctx, out.value, block.height, applied + BlockCores(block))
      && SameLedgers(s.boxes, out.value.boxes)
      && AllFirst(block, applied))
  }

  /** The settlement block's outcome, once its settlement checks. */
  lemma CheckedStep(
    ctx: Ctx, o: Origin, cores: seq<TxCore>, s: State, acc: Acc, height: nat, cap: Captured, body: SettlementBody,
    settlement: Tx) returns (u: State)
    requires Deriving(ctx, o, cores, s, acc, height, cap, body)
    requires CheckSettlement(ctx, s, cap, height, body, settlement)
    requires AuthorsKnown(o.start.posts, o.start.records) && AuthorsKnown(s.posts, o.start.records)
    requires height >= 1 && RecordsOk(o.start.records, height - 1) && o.start.memberCount == MembersOf(o.start.records)
    ensures ApplyTx(s, acc.taken, settlement.core).Some?
    ensures CloseBlock(ctx, ApplyTx(s, acc.taken, settlement.core).value, CaptureLapses(acc, s.records, cap.lapsed),
      cap.plans, height)
      == Done(u)
    ensures Inv(ctx, u, height, o.applied + Members(cores) + {settlement.core})
    ensures SameLedgers(o.start.boxes, u.boxes)
    ensures settlement.core !in o.applied && settlement.core !in cores && Distinct(cores)
    ensures forall c | c in cores :: c !in o.applied
  {
    var d, tail := CheckedSettles(ctx, o, cores, s, acc, height, cap, body, settlement);
    SettledStep(ctx, o, cores, s, acc, height, cap, body, d, settlement.core, tail);
    SettledLedgers(ctx, o, cores, s, acc, height, cap, body, d, settlement.core, tail);
    u := CloseBlock(ctx, ApplyTx(s, acc.taken, settlement.core).value, CaptureLapses(acc, s.records, cap.lapsed),
        cap.plans, height).value;
  }

  lemma SettleBlockIs(ctx: Ctx, s: State, acc: Acc, cap: Captured, block: Block, cores: seq<TxCore>,
    body: SettlementBody)
    requires ValidCtx(ctx) && block.settlement.Some? && cores == CoresOf(block.queue)
    requires body == BodyOf(cores, acc.rent, ActorCount(acc, block.validator))
    ensures !CheckSettlement(ctx, s, cap, block.height, body, block.settlement.value) ==>
      SettleBlock(ctx, s, acc, cap, block) == Rejected
    ensures var core := block.settlement.value.core;
      CheckSettlement(ctx, s, cap, block.height, body, block.settlement.value) && ApplyTx(s, acc.taken, core).Some? ==>
      SettleBlock(ctx, s, acc, cap, block)
        == CloseBlock(ctx, ApplyTx(s, acc.taken, block.settlement.value.core).value,
            CaptureLapses(acc, s.records, cap.lapsed), cap.plans, block.height)
  {
  }

  lemma KeepsAllFrom(ctx: Ctx, s: State, applied: set<TxCore>, block: Block, u: State, cores: seq<TxCore>)
    requires block.settlement.Some? && cores == CoresOf(block.queue)
    requires Inv(ctx, u, block.height, applied + Members(cores) + {block.settlement.value.core})
    requires SameLedgers(s.boxes, u.boxes)
    requires block.settlement.value.core !in applied && block.settlement.value.core !in cores && Distinct(cores)
    requires forall c | c in cores :: c !in applied
    ensures KeepsAll(ctx, s, applied, block, Done(u))
  {
    assert applied + Members(cores) + {block.settlement.value.core} == applied + BlockCores(block);
  }

  lemma SettleBlockStep(ctx: Ctx, s: State, height: int, applied: set<TxCore>, block: Block, now: State, acc: Acc)
    requires ValidCtx(ctx) && Inv(ctx, s, height, applied) && 0 <= height < block.height
    requires Bodied(ctx, s, applied, block, now, acc) && block.settlement.Some?
    ensures var cap := CapturedOf(ctx, Confirmed(s, block), CoresOf(block.queue), block.height);
      KeepsAll(ctx, s, applied, block, SettleBlock(ctx, now, acc, cap, block))
  {
    var o, cores := OriginOf(s, block, applied), CoresOf(block.queue);
    var cap := CapturedOf(ctx, o.start, cores, block.height);
    var body := BodyOf(cores, acc.rent, ActorCount(acc, block.validator));
    SettleBlockIs(ctx, now, acc, cap, block, cores, body);
    if CheckSettlement(ctx, now, cap, block.height, body, block.settlement.value) {
      BodiedIsReady(ctx, s, height, applied, block, now, acc);
      var d, tail := CheckMeans(ctx, now, cap, block.height, body, block.settlement.value);
      PostsStayKnown(ctx, s, height, applied, block, now, acc);
      RecordsStayOk(s.records, height, block.height - 1);
      var u := CheckedStep(ctx, o, cores, now, acc, block.height, cap, body, block.settlement.value);
      KeepsAllFrom(ctx, s, applied, block, u, cores);
    }
  }

  lemma RecordsStayOk(records: Records, height: int, later: int)
    requires RecordsOk(records, height) && height <= later
    ensures RecordsOk(records, later)
  {
    forall k | k in records ensures RecordOk(records[k], later) {
      assert RecordOk(records[k], height);
    }
  }

  /**
   * The block theorem. From any reachable state, any block at a later height is refused or applied: no
   * defect can be reached. Applied, it leaves every invariant standing, neither karma nor credits made
   * or lost, and none of its transactions applied before or twice.
   */
  lemma BlockKeeps(ctx: Ctx, s: State, height: int, applied: set<TxCore>, block: Block)
    requires ValidCtx(ctx) && Inv(ctx, s, height, applied) && 0 <= height < block.height
    ensures KeepsAll(ctx, s, applied, block, ApplyBlock(ctx, s, block))
  {
    if BodyAdmitted(ctx, block) {
      BodyRuns(ctx, s, height, applied, block);
      var body := BodyOutcomeOf(ctx, s, block);
      if body.Done? && ApplyWithdrawals(body.value.0.posts, EntriesOf(block), block.height).Some? {
        var now := body.value.0.(posts := ApplyWithdrawals(body.value.0.posts, EntriesOf(block), block.height).value);
        SettleBlockStep(ctx, s, height, applied, block, now, body.value.1);
      }
    }
  }

  // ---------------------------------------------------------------------------
  // Runs
  // ---------------------------------------------------------------------------

  /** Blocks at rising heights, each applied over the state the one before left. */
  ghost function Run(ctx: Ctx, s: State, height: int, blocks: seq<Block>): Outcome<State>
    requires ValidCtx(ctx)
    decreases |blocks|, 1
  {
    if blocks == [] then Done(s)
    else if blocks[0].height <= height then Rejected
    else RunOn(ctx, ApplyBlock(ctx, s, blocks[0]), blocks[0].height, blocks[1..])
  }

  /** The rest of a run, after a block's own outcome. */
  ghost function RunOn(ctx: Ctx, first: Outcome<State>, height: int, rest: seq<Block>): Outcome<State>
    requires ValidCtx(ctx)
    decreases |rest|, 2
  {
    if first.Done? then Run(ctx, first.value, height, rest) else first
  }

  function LastHeight(height: int, blocks: seq<Block>): int
    decreases |blocks|
  {
    if blocks == [] then height else LastHeight(blocks[0].height, blocks[1..])
  }

  ghost function RunCores(blocks: seq<Block>): set<TxCore> {
    if blocks == [] then {}
    else (if blocks[0].settlement.Some? then BlockCores(blocks[0]) else {}) + RunCores(blocks[1..])
  }

  /** Each transaction of the run is carried once. */
  ghost predicate CarriedOnce(applied: set<TxCore>, blocks: seq<Block>)
    decreases |blocks|
  {
    blocks != [] ==>
      && blocks[0].settlement.Some?
      && AllFirst(blocks[0], applied)
      && CarriedOnce(applied + BlockCores(blocks[0]), blocks[1..])
  }

  /** What a run does to a state that meets the invariants. */
  ghost predicate RunKept(ctx: Ctx, before: Boxes, height: int, applied: set<TxCore>, blocks: seq<Block>,
    out: Outcome<State>) {
    && !out.Thrown?
    && (out.Done? ==>
      && Inv(ctx, out.value, LastHeight(height, blocks), applied + RunCores(blocks))
      && SameLedgers(before, out.value.boxes)
      && CarriedOnce(applied, blocks))
  }

  /**
   * The run theorem. Over every run of blocks from a state that meets the invariants, nothing throws;
   * and where every block is accepted the invariants hold at the end, the karma ledger and the credit
   * ledger each hold what they held, and no transaction was applied twice.
   */
  lemma {:induction false} RunKeeps(ctx: Ctx, s: State, height: int, applied: set<TxCore>, blocks: seq<Block>)
    requires ValidCtx(ctx) && Inv(ctx, s, height, applied) && height >= 0
    ensures RunKept(ctx, s.boxes, height, applied, blocks, Run(ctx, s, height, blocks))
    decreases |blocks|, 1
  {
    if blocks == [] {
      assert applied + RunCores(blocks) == applied;
    } else if blocks[0].height > height {
      BlockKeeps(ctx, s, height, applied, blocks[0]);
      RunOnKeeps(ctx, s, ApplyBlock(ctx, s, blocks[0]), applied, blocks);
      assert LastHeight(height, blocks) == LastHeight(blocks[0].height, blocks[1..]);
    }
  }

  lemma {:induction false} RunOnKeeps(ctx: Ctx, s: State, first: Outcome<State>, applied: set<TxCore>,
    blocks: seq<Block>)
    requires ValidCtx(ctx) && blocks != []
    requires KeepsAll(ctx, s, applied, blocks[0], first)
    ensures RunKept(ctx, s.boxes, blocks[0].height, applied, blocks, RunOn(ctx, first, blocks[0].height, blocks[1..]))
    decreases |blocks|, 0
  {
    if first.Done? {
      RunKeeps(ctx, first.value, blocks[0].height, applied + BlockCores(blocks[0]), blocks[1..]);
      assert applied + BlockCores(blocks[0]) + RunCores(blocks[1..]) == applied + RunCores(blocks);
    }
  }

  // ---------------------------------------------------------------------------
  // An accepted block, taken apart
  // ---------------------------------------------------------------------------

  /** The settlement applied over what the body left, and the records closed over it. */
  ghost predicate ClosesTo(ctx: Ctx, now: State, acc: Acc, cap: Captured, block: Block, u: State) {
    && block.settlement.Some?
    && ApplyTx(now, acc.taken, block.settlement.value.core).Some?
    && CloseBlock(ctx, ApplyTx(now, acc.taken, block.settlement.value.core).value,
       CaptureLapses(acc, now.records, cap.lapsed),
         cap.plans, block.height) == Done(u)
  }

  /** An accepted block's parts: the state its body left, and the settlement that checked over it. */
  lemma AcceptedSettles(ctx: Ctx, s: State, height: int, applied: set<TxCore>, block: Block)
    returns (now: State, acc: Acc, cap: Captured, body: SettlementBody, d: Derived, tail: seq<Box>)
    requires ValidCtx(ctx) && Inv(ctx, s, height, applied) && 0 <= height < block.height
    requires ApplyBlock(ctx, s, block).Done?
    ensures block.settlement.Some? && Bodied(ctx, s, applied, block, now, acc)
    ensures Settling(ctx, OriginOf(s, block, applied), CoresOf(block.queue), now, acc, block.height, cap, body, d,
      block.settlement.value.core, tail)
    ensures ApplyBlock(ctx, s, block).value.boxes == AfterTx(now.boxes, block.settlement.value.core)
    ensures ClosesTo(ctx, now, acc, cap, block, ApplyBlock(ctx, s, block).value)
    ensures block.settlement.value.core.payload.NoPayload?
  {
    var ran := BodyOutcomeOf(ctx, s, block);
    acc := ran.value.1;
    now := ran.value.0.(posts := ApplyWithdrawals(ran.value.0.posts, EntriesOf(block), block.height).value);
    cap := CapturedOf(ctx, Confirmed(s, block), CoresOf(block.queue), block.height);
    body := BodyOf(CoresOf(block.queue), acc.rent, ActorCount(acc, block.validator));
    assert ApplyBlock(ctx, s, block) == SettleBlock(ctx, now, acc, cap, block);
    d, tail := SettledParts(ctx, s, height, applied, block, now, acc, cap, body);
  }

  lemma SettledParts(
    ctx: Ctx, s: State, height: int, applied: set<TxCore>, block: Block, now: State, acc: Acc, cap: Captured,
    body: SettlementBody)
    returns (d: Derived, tail: seq<Box>)
    requires ValidCtx(ctx) && Inv(ctx, s, height, applied) && 0 <= height < block.height
    requires block.settlement.Some? && Bodied(ctx, s, applied, block, now, acc)
    requires cap == CapturedOf(ctx, Confirmed(s, block), CoresOf(block.queue), block.height)
    requires body == BodyOf(CoresOf(block.queue), acc.rent, ActorCount(acc, block.validator))
    requires SettleBlock(ctx, now, acc, cap, block).Done?
    ensures Settling(ctx, OriginOf(s, block, applied), CoresOf(block.queue), now, acc, block.height, cap, body, d,
      block.settlement.value.core, tail)
    ensures SettleBlock(ctx, now, acc, cap, block).value.boxes == AfterTx(now.boxes, block.settlement.value.core)
    ensures ClosesTo(ctx, now, acc, cap, block, SettleBlock(ctx, now, acc, cap, block).value)
    ensures block.settlement.value.core.payload.NoPayload?
  {
    var o, cores := OriginOf(s, block, applied), CoresOf(block.queue);
    SettleBlockIs(ctx, now, acc, cap, block, cores, body);
    BodiedIsReady(ctx, s, height, applied, block, now, acc);
    d, tail := CheckMeans(ctx, now, cap, block.height, body, block.settlement.value);
    SettledBoxesAre(ctx, o, cores, now, acc, block.height, cap, body, d, block.settlement.value.core, tail);
  }

  lemma SettledBoxesAre(
    ctx: Ctx, o: Origin, cores: seq<TxCore>, s: State, acc: Acc, height: nat, cap: Captured, body: SettlementBody,
    d: Derived, core: TxCore, tail: seq<Box>)
    requires Settling(ctx, o, cores, s, acc, height, cap, body, d, core, tail)
    ensures ApplyTx(s, acc.taken, core).Some?
    ensures var out := CloseBlock(ctx, ApplyTx(s, acc.taken, core).value, CaptureLapses(acc, s.records, cap.lapsed),
      cap.plans, height);
      out.Done? ==> out.value.boxes == AfterTx(s.boxes, core)
  {
    SettlementCounts(ctx, o, cores, s, acc, height, cap, body, d, core, tail);
  }
}
