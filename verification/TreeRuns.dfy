/** Every accepted block leaves the indexes rebuildable from its netted writes. */
module TreeRuns {
  import opened Wrappers
  import opened Sums
  import opened Orders
  import opened Ledger
  import opened Engine
  import opened Body
  import opened Coinbase
  import opened Queries
  import opened Decay
  import opened Settlement
  import opened Blocks
  import opened Applying
  import opened Lawful
  import opened Invariant
  import opened BodyRun
  import opened BodyKeeps
  import opened BodyOutcome
  import opened AfterBody
  import opened SettledState
  import opened SettledBackers
  import opened Closing
  import opened Closed
  import opened BlockStep
  import opened Runs
  import opened VouchOrder
  import opened Effects
  import opened Tree
  import opened TreeWrites
  import opened TreeUpdate

  // ---------------------------------------------------------------------------
  // What a block leaves, index by index
  // ---------------------------------------------------------------------------

  lemma PairsAreOnce(boxes: Boxes)
    requires NoRivals(boxes)
    ensures PairsOnce(boxes)
  {
    forall i, j, v, t | PairBox(boxes, v, t, i) && PairBox(boxes, v, t, j) ensures i == j {
      assert Rivals(boxes[i], boxes[j]);
    }
  }

  lemma BodyCools(ctx: Ctx, s: State, height: int, applied: set<TxCore>, block: Block)
    requires ValidCtx(ctx) && Inv(ctx, s, height, applied)
    requires BodyOutcomeOf(ctx, s, block).Done?
    ensures Cooling(s.boxes, CoresOf(block.queue), BodyOutcomeOf(ctx, s, block).value.0.boxes)
  {
    var o := OriginOf(s, block, applied);
    var cores := CoresOf(block.queue);
    var owed := OwedBefore(ctx, o.start, cores, PayeesOf(ctx, o.start, cores, block.height), block.height);
    BodyOpens(ctx, o.start, applied, o.inputs);
    CoolingOpens(o.start.boxes);
    QueueCools(ctx, o, [], o.start, EmptyAcc(o.start), owed, block.queue, block.height, cores);
  }

  /** Where a box standing after a block came from. */
  lemma StandingBox(ctx: Ctx, o: Origin, cores: seq<TxCore>, s: State, acc: Acc, core: TxCore, id: BoxId)
    requires Ready(ctx, o, cores, s, acc) && id in AfterTx(s.boxes, core) && id !in OutputsFrom(core, 0)
    ensures id in s.boxes && AfterTx(s.boxes, core)[id] == s.boxes[id]
    ensures id in o.start.boxes ==> s.boxes[id] == o.start.boxes[id]
    ensures id !in o.start.boxes ==> IsCreated(cores, id) && s.boxes[id] == id.creator.outputs[id.index]
  {
    NewIsUserMade(ctx, o, cores, s, acc, id);
  }

  /** A settlement's outputs are new ids, and none is a vouch or a bond. */
  lemma SettlementOutput(
    ctx: Ctx, o: Origin, cores: seq<TxCore>, s: State, acc: Acc, height: nat, cap: Captured, body: SettlementBody,
    d: Derived, core: TxCore, tail: seq<Box>, id: BoxId)
    requires Settling(ctx, o, cores, s, acc, height, cap, body, d, core, tail) && id in OutputsFrom(core, 0)
    ensures id !in o.start.boxes
    ensures !core.outputs[id.index].Vouch? && !core.outputs[id.index].Bond?
  {
    SettlementIsNew(ctx, o, cores, s, acc, height, cap, body, d, core, tail);
    assert id in o.start.boxes ==> Created(o.start.boxes, o.applied, id);
    assert core.outputs[id.index] in core.outputs;
    NoVouchOrBond(ctx, s, cap, height, body, d, tail, core.outputs[id.index]);
  }

  lemma NoVouchOrBond(ctx: Ctx, s: State, cap: Captured, height: nat, body: SettlementBody, d: Derived, tail: seq<Box>,
    b: Box)
    requires ValidCtx(ctx) && Derive(ctx, s, cap, height, body) == Some(d) && CoinbaseOk(d, height, tail)
    requires b in d.outputs + tail
    ensures !b.Vouch? && !b.Bond?
  {
    var slices, treasury, backer, legs, pool := SettleBalance.PartsOf(ctx, s, cap, height, body);
    OutputOrigin(ctx, s, cap, height, body, d, slices, treasury, backer, legs, pool, tail, b);
  }

  lemma SameContent(
    ctx: Ctx, o: Origin, cores: seq<TxCore>, s: State, acc: Acc, height: nat, cap: Captured, body: SettlementBody,
    d: Derived, core: TxCore, tail: seq<Box>, id: BoxId)
    requires Settling(ctx, o, cores, s, acc, height, cap, body, d, core, tail)
    requires id in o.start.boxes && id in AfterTx(s.boxes, core)
    ensures AfterTx(s.boxes, core)[id] == o.start.boxes[id]
  {
    if id in OutputsFrom(core, 0) {
      SettlementOutput(ctx, o, cores, s, acc, height, cap, body, d, core, tail, id);
    } else {
      StandingBox(ctx, o, cores, s, acc, core, id);
    }
  }

  /** A new vouch's pair had none before the block. */
  lemma NewPairIsFirst(
    ctx: Ctx, o: Origin, cores: seq<TxCore>, s: State, acc: Acc, height: nat, cap: Captured, body: SettlementBody,
    d: Derived, core: TxCore, tail: seq<Box>, v: Key, t: Key, i: BoxId, j: BoxId)
    requires Settling(ctx, o, cores, s, acc, height, cap, body, d, core, tail)
    requires Cooling(o.start.boxes, cores, s.boxes)
    requires PairBox(o.start.boxes, v, t, i) && PairBox(AfterTx(s.boxes, core), v, t, j)
    ensures j in o.start.boxes
  {
    if j in OutputsFrom(core, 0) {
      SettlementOutput(ctx, o, cores, s, acc, height, cap, body, d, core, tail, j);
    } else {
      StandingBox(ctx, o, cores, s, acc, core, j);
      assert CastIsFirst(o.start.boxes, cores, j);
    }
  }

  lemma NewBondInvited(
    ctx: Ctx, o: Origin, cores: seq<TxCore>, s: State, acc: Acc, height: nat, cap: Captured, body: SettlementBody,
    d: Derived, core: TxCore, tail: seq<Box>, id: BoxId)
    requires Settling(ctx, o, cores, s, acc, height, cap, body, d, core, tail)
    requires id in AfterTx(s.boxes, core) && id !in o.start.boxes && AfterTx(s.boxes, core)[id].Bond?
    ensures AfterTx(s.boxes, core)[id].inviteePublicKey in acc.invited
  {
    if id in OutputsFrom(core, 0) {
      SettlementOutput(ctx, o, cores, s, acc, height, cap, body, d, core, tail, id);
    } else {
      StandingBox(ctx, o, cores, s, acc, core, id);
      assert CreatesBond(cores, id, s.boxes[id].inviteePublicKey);
    }
  }

  // ---------------------------------------------------------------------------
  // The records
  // ---------------------------------------------------------------------------

  /** What the closing does to grant heights: kept for the known, this block's for the invited. */
  ghost predicate GrantsDated(before: Records, acc: Acc, after: Records, height: int) {
    && (forall k | k in before :: k in after && after[k].invitedAtBlock == before[k].invitedAtBlock)
    && (forall k | k in acc.invited :: k in after && after[k].invitedAtBlock == height)
  }

  lemma ClosingDatesGrants(
    ctx: Ctx, o: Origin, cores: seq<TxCore>, s: State, acc: Acc, height: nat, cap: Captured, body: SettlementBody,
    d: Derived, core: TxCore, tail: seq<Box>)
    requires Settling(ctx, o, cores, s, acc, height, cap, body, d, core, tail)
    requires AuthorsKnown(o.start.posts, o.start.records)
    requires height >= 1 && RecordsOk(o.start.records, height - 1) && o.start.memberCount == MembersOf(o.start.records)
    ensures ApplyTx(s, acc.taken, core).Some?
    ensures var out := CloseBlock(ctx, ApplyTx(s, acc.taken, core).value, CaptureLapses(acc, s.records, cap.lapsed),
      cap.plans, height);
      out.Done? && GrantsDated(o.start.records, acc, out.value.records, height)
  {
    SettledCloses(ctx, o, cores, s, acc, height, cap, body, d, core, tail);
    var t := ApplyTx(s, acc.taken, core).value;
    var captured := CaptureLapses(acc, s.records, cap.lapsed);
    BlockCloses(ctx, o, t, captured, cap.plans, height);
    ClosedIsDated(o, t, captured, acc, CloseBlock(ctx, t, captured, cap.plans, height).value, height);
  }

  lemma ClosedIsDated(o: Origin, t: State, captured: Acc, acc: Acc, u: State, height: nat)
    requires ClosedRight(o, t, captured, u, height) && captured.invited == acc.invited
    ensures GrantsDated(o.start.records, acc, u.records, height)
  {
    forall k | k in o.start.records
      ensures k in u.records && u.records[k].invitedAtBlock == o.start.records[k].invitedAtBlock
    {
      assert StillKnown(o.start.records[k], u.records[k]);
    }
  }

  lemma AcceptedDatesGrants(
    ctx: Ctx, s: State, height: int, applied: set<TxCore>, block: Block, now: State, acc: Acc, cap: Captured,
    body: SettlementBody,
    d: Derived, tail: seq<Box>)
    requires ValidCtx(ctx) && Inv(ctx, s, height, applied) && 0 <= height < block.height
    requires ApplyBlock(ctx, s, block).Done? && block.settlement.Some? && Bodied(ctx, s, applied, block, now, acc)
    requires Settling(ctx, OriginOf(s, block, applied), CoresOf(block.queue), now, acc, block.height, cap, body, d,
      block.settlement.value.core, tail)
    requires ClosesTo(ctx, now, acc, cap, block, ApplyBlock(ctx, s, block).value)
    requires block.settlement.value.core.payload.NoPayload?
    ensures GrantsDated(s.records, acc, ApplyBlock(ctx, s, block).value.records, block.height)
  {
    PostsStayKnown(ctx, s, height, applied, block, now, acc);
    RecordsStayOk(s.records, height, block.height - 1);
    ClosingDatesGrants(ctx, OriginOf(s, block, applied), CoresOf(block.queue), now, acc, block.height, cap, body, d,
        block.settlement.value.core, tail);
  }

  // ---------------------------------------------------------------------------
  // Every index
  // ---------------------------------------------------------------------------

  lemma PairsKeepOrder(
    ctx: Ctx, o: Origin, cores: seq<TxCore>, s: State, acc: Acc, height: nat, cap: Captured, body: SettlementBody,
    d: Derived, core: TxCore, tail: seq<Box>)
    requires Settling(ctx, o, cores, s, acc, height, cap, body, d, core, tail)
    requires Cooling(o.start.boxes, cores, s.boxes)
    ensures forall i, j, v, t | PairBox(o.start.boxes, v, t, i) && PairBox(AfterTx(s.boxes, core), v, t, j) ::
      j in o.start.boxes
    ensures forall id | id in o.start.boxes && id in AfterTx(s.boxes, core) ::
      AfterTx(s.boxes, core)[id] == o.start.boxes[id]
  {
    forall i, j, v, t | PairBox(o.start.boxes, v, t, i) && PairBox(AfterTx(s.boxes, core), v, t, j)
        ensures j in o.start.boxes {
      NewPairIsFirst(ctx, o, cores, s, acc, height, cap, body, d, core, tail, v, t, i, j);
    }
    forall id | id in o.start.boxes && id in AfterTx(s.boxes, core)
      ensures AfterTx(s.boxes, core)[id] == o.start.boxes[id]
    {
      SameContent(ctx, o, cores, s, acc, height, cap, body, d, core, tail, id);
    }
  }

  lemma NewBondsInvited(
    ctx: Ctx, o: Origin, cores: seq<TxCore>, s: State, acc: Acc, height: nat, cap: Captured, body: SettlementBody,
    d: Derived, core: TxCore, tail: seq<Box>)
    requires Settling(ctx, o, cores, s, acc, height, cap, body, d, core, tail)
    ensures forall id | id in AfterTx(s.boxes, core) && id !in o.start.boxes && AfterTx(s.boxes, core)[id].Bond? ::
      AfterTx(s.boxes, core)[id].inviteePublicKey in acc.invited
  {
    forall id | id in AfterTx(s.boxes, core) && id !in o.start.boxes && AfterTx(s.boxes, core)[id].Bond?
      ensures AfterTx(s.boxes, core)[id].inviteePublicKey in acc.invited
    {
      NewBondInvited(ctx, o, cores, s, acc, height, cap, body, d, core, tail, id);
    }
  }

  lemma IndexableFrom(s: State, u: State, acc: Acc, height: int)
    requires NoRivals(s.boxes) && NoRivals(u.boxes) && AllRegistered(s.boxes, s.records)
      && AllRegistered(u.boxes, u.records)
    requires forall i, j, v, t | PairBox(s.boxes, v, t, i) && PairBox(u.boxes, v, t, j) :: j in s.boxes
    requires forall id | id in s.boxes && id in u.boxes :: u.boxes[id] == s.boxes[id]
    requires forall id | id in u.boxes && id !in s.boxes && u.boxes[id].Bond? ::
      u.boxes[id].inviteePublicKey in acc.invited
    requires GrantsDated(s.records, acc, u.records, height)
    ensures Indexable(s, u, height)
  {
    PairsAreOnce(s.boxes);
    PairsAreOnce(u.boxes);
    forall id | id in s.boxes && s.boxes[id].Bond? ensures s.boxes[id].inviteePublicKey in s.records {
      assert Registered(s.boxes[id], s.records);
    }
    forall id | id in u.boxes && u.boxes[id].Bond? ensures u.boxes[id].inviteePublicKey in u.records {
      assert Registered(u.boxes[id], u.records);
    }
  }

  /** Every accepted block meets what the tree writes rest on. */
  lemma BlockIndexable(ctx: Ctx, s: State, height: int, applied: set<TxCore>, block: Block)
    requires ValidCtx(ctx) && Inv(ctx, s, height, applied) && 0 <= height < block.height
    requires ApplyBlock(ctx, s, block).Done?
    ensures Indexable(s, ApplyBlock(ctx, s, block).value, block.height)
  {
    var u := ApplyBlock(ctx, s, block).value;
    var acc := BlockIndexFacts(ctx, s, height, applied, block);
    BlockKeeps(ctx, s, height, applied, block);
    IndexableFrom(s, u, acc, block.height);
  }

  lemma BlockIndexFacts(ctx: Ctx, s: State, height: int, applied: set<TxCore>, block: Block) returns (acc: Acc)
    requires ValidCtx(ctx) && Inv(ctx, s, height, applied) && 0 <= height < block.height
    requires ApplyBlock(ctx, s, block).Done?
    ensures var u := ApplyBlock(ctx, s, block).value;
      && (forall i, j, v, t | PairBox(s.boxes, v, t, i) && PairBox(u.boxes, v, t, j) :: j in s.boxes)
      && (forall id | id in s.boxes && id in u.boxes :: u.boxes[id] == s.boxes[id])
      && (forall id | id in u.boxes && id !in s.boxes && u.boxes[id].Bond? ::
         u.boxes[id].inviteePublicKey in acc.invited)
      && GrantsDated(s.records, acc, u.records, block.height)
  {
    var now, a, cap, body, d, tail := AcceptedSettles(ctx, s, height, applied, block);
    acc := a;
    var o, cores := OriginOf(s, block, applied), CoresOf(block.queue);
    BodyCools(ctx, s, height, applied, block);
    AcceptedDatesGrants(ctx, s, height, applied, block, now, acc, cap, body, d, tail);
    PairsKeepOrder(ctx, o, cores, now, acc, block.height, cap, body, d, block.settlement.value.core, tail);
    NewBondsInvited(ctx, o, cores, now, acc, block.height, cap, body, d, block.settlement.value.core, tail);
  }
}
