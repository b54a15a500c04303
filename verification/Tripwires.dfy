/** The reads that throw after a write of the block into their set, and why none does. */
module Tripwires {
  import opened Wrappers
  import opened Sums
  import opened Ledger
  import opened Engine
  import opened Body
  import opened Coinbase
  import opened Queries
  import opened Decay
  import opened Settlement
  import opened Blocks
  import opened Applying
  import opened Lawful
  import opened Invariant
  import opened BodyRun
  import opened BodyKeeps
  import opened BodyOutcome
  import opened AfterBody
  import opened Overlays
  import opened ApplyOver
  import Producer

  /** An overlay that holds what a body left over a reachable state. */
  ghost predicate HoldsBody(state: BlockOverlay, ctx: Ctx, o: Origin, cores: seq<TxCore>, s: State, acc: Acc)
    reads state
  {
    && state.Valid() && OwnOutputs(state)
    && state.ctx == ctx
    && state.view.boxes == o.start.boxes && state.view.records == o.start.records
    && state.Now().boxes == s.boxes && state.Now().records == s.records
    && state.Taken() == acc.taken
    && Ready(ctx, o, cores, s, acc)
  }

  /** What the overlay inserted, the body's transactions created. */
  lemma InsertedIsCreated(state: BlockOverlay, ctx: Ctx, o: Origin, cores: seq<TxCore>, s: State, acc: Acc, id: BoxId)
    requires HoldsBody(state, ctx, o, cores, s, acc) && id in state.inserted
    ensures IsCreated(cores, id) && state.inserted[id] == id.creator.outputs[id.index]
    ensures id !in o.start.boxes && UserOutputShape(state.inserted[id])
  {
    assert id in acc.taken;
    assert Sourced(o.start.boxes, cores, id);
    LiveMeans(ctx, o, cores, s, acc, id);
  }

  /** What it spent, a user transaction may spend. */
  lemma SpentIsSpendable(state: BlockOverlay, ctx: Ctx, o: Origin, cores: seq<TxCore>, s: State, acc: Acc, id: BoxId)
    requires HoldsBody(state, ctx, o, cores, s, acc) && id in state.spent
    ensures UserSpendable(state.spent[id])
  {
    if id in state.inserted {
      InsertedIsCreated(state, ctx, o, cores, s, acc, id);
    }
    LiveMeans(ctx, o, cores, s, acc, id);
    assert id !in s.boxes;
  }

  /** Every box the block has written so far is one user transactions spend or create. */
  ghost predicate UserWrites(state: BlockOverlay)
    reads state
  {
    && (forall id | id in state.spent :: UserSpendable(state.spent[id]))
    && (forall id | id in state.inserted :: UserOutputShape(state.inserted[id]))
  }

  lemma BodyWritesAreUsers(state: BlockOverlay, ctx: Ctx, o: Origin, cores: seq<TxCore>, s: State, acc: Acc)
    requires HoldsBody(state, ctx, o, cores, s, acc)
    ensures UserWrites(state)
  {
    forall id | id in state.spent ensures UserSpendable(state.spent[id]) {
      SpentIsSpendable(state, ctx, o, cores, s, acc, id);
    }
    forall id | id in state.inserted ensures UserOutputShape(state.inserted[id]) {
      InsertedIsCreated(state, ctx, o, cores, s, acc, id);
    }
  }

  lemma ProtocolUntouched(state: BlockOverlay, p: Box -> bool)
    requires UserWrites(state) && forall b :: p(b) ==> Protocol(b)
    ensures !state.Touched(p)
  {
    forall id | id in state.spent ensures !p(state.spent[id]) {
      assert UserSpendable(state.spent[id]);
    }
    forall id | id in state.inserted ensures !p(state.inserted[id]) {
      assert UserOutputShape(state.inserted[id]);
    }
  }

  lemma RecordsStillDated(state: BlockOverlay, ctx: Ctx, o: Origin, cores: seq<TxCore>, s: State, acc: Acc, k: Key)
    requires HoldsBody(state, ctx, o, cores, s, acc) && k in state.records
    ensures k in state.view.records && state.records[k].invitedAtBlock == state.view.records[k].invitedAtBlock
  {
    Producer.RecordsAged(ctx, o, cores, s, acc);
    assert k in s.records && s.records[k] == state.records[k];
    assert SameStanding(o.start.records[k], s.records[k]);
  }

  lemma NewInviteeUnknown(state: BlockOverlay, ctx: Ctx, o: Origin, cores: seq<TxCore>, s: State, acc: Acc, id: BoxId)
    requires HoldsBody(state, ctx, o, cores, s, acc) && id in state.inserted && state.inserted[id].Bond?
    ensures state.inserted[id].inviteePublicKey !in s.records
  {
    InsertedIsCreated(state, ctx, o, cores, s, acc, id);
    Producer.RecordsAged(ctx, o, cores, s, acc);
    BondInviteeUnknown(ctx, o, cores, s, acc, id);
  }

  lemma BondInviteeUnknown(ctx: Ctx, o: Origin, cores: seq<TxCore>, s: State, acc: Acc, id: BoxId)
    requires Ready(ctx, o, cores, s, acc) && IsCreated(cores, id) && id.creator.outputs[id.index].Bond?
    ensures id.creator.outputs[id.index].inviteePublicKey !in o.start.records
  {
    assert CreatesBond(cores, id, id.creator.outputs[id.index].inviteePublicKey);
  }

  /** The records written keep every grant height, and the new bonds name no record. */
  ghost predicate GrantsKept(state: BlockOverlay)
    reads state
    requires state.Valid()
  {
    && (forall k | k in state.records ::
          k in state.view.records && state.records[k].invitedAtBlock == state.view.records[k].invitedAtBlock)
    && (forall id | id in state.inserted && state.inserted[id].Bond? ::
          state.GetIdentityRecord(state.inserted[id].inviteePublicKey).None?)
  }

  lemma BodyKeepsGrants(state: BlockOverlay, ctx: Ctx, o: Origin, cores: seq<TxCore>, s: State, acc: Acc)
    requires HoldsBody(state, ctx, o, cores, s, acc)
    ensures GrantsKept(state)
  {
    forall id | id in state.inserted && state.inserted[id].Bond?
      ensures state.GetIdentityRecord(state.inserted[id].inviteePublicKey).None?
    {
      NewInviteeUnknown(state, ctx, o, cores, s, acc, id);
    }
    forall k | k in state.records
      ensures k in state.view.records && state.records[k].invitedAtBlock == state.view.records[k].invitedAtBlock
    {
      RecordsStillDated(state, ctx, o, cores, s, acc, k);
    }
  }

  lemma BondsUntouched(state: BlockOverlay, maxInvitedAt: int)
    requires state.Valid() && UserWrites(state) && GrantsKept(state)
    ensures !state.BondsTouched(maxInvitedAt) && state.GrantHeightsKept()
  {
    forall id | id in state.spent ensures !state.spent[id].Bond? {
      assert UserSpendable(state.spent[id]);
    }
  }

  /** No read the settlement makes after the body throws. */
  ghost predicate Untripped(state: BlockOverlay, maxInvitedAt: int)
    reads state
  {
    && state.Valid()
    && !state.Touched(IsEmission) && !state.Touched(IsTreasury) && !state.Touched(IsKarmaPool)
    && !state.BondsTouched(maxInvitedAt) && state.GrantHeightsKept()
  }

  /** After any body over a reachable state, every limited query the settlement makes answers. */
  lemma BodyTripsNothing(
    state: BlockOverlay, ctx: Ctx, o: Origin, cores: seq<TxCore>, s: State, acc: Acc, maxInvitedAt: int)
    requires HoldsBody(state, ctx, o, cores, s, acc)
    ensures Untripped(state, maxInvitedAt)
  {
    BodyWritesAreUsers(state, ctx, o, cores, s, acc);
    BodyKeepsGrants(state, ctx, o, cores, s, acc);
    ProtocolUntouched(state, IsEmission);
    ProtocolUntouched(state, IsTreasury);
    ProtocolUntouched(state, IsKarmaPool);
    BondsUntouched(state, maxInvitedAt);
  }

  // ---------------------------------------------------------------------------
  // The third karma box
  // ---------------------------------------------------------------------------

  /** Where no two boxes rival, an owner's listed karma boxes are two at most: one unmarked, one marked. */
  lemma NoThirdKarmaBox(ctx: Ctx, boxes: Boxes, owner: Key)
    requires NoRivals(boxes)
    ensures |KarmaBoxes(ctx, boxes, owner)| <= 2
  {
    forall i, j | i in boxes && j in boxes && i != j ensures !UserRivals(boxes[i], boxes[j]) {
      assert !Rivals(boxes[i], boxes[j]);
    }
    TwoWithoutRivals(ctx, boxes, owner);
  }

  /** At every reachable state, and after any part of a body over one. */
  lemma BodyLeavesTwo(ctx: Ctx, o: Origin, done: seq<TxCore>, s: State, acc: Acc, owner: Key)
    requires Mid(o, done, s, acc)
    ensures |KarmaBoxes(ctx, s.boxes, owner)| <= 2
  {
    TwoWithoutRivals(ctx, s.boxes, owner);
  }

  lemma TwoWithoutRivals(ctx: Ctx, boxes: Boxes, owner: Key)
    requires NoUserRivals(boxes)
    ensures |KarmaBoxes(ctx, boxes, owner)| <= 2
  {
    var ls := KarmaBoxes(ctx, boxes, owner);
    KarmaBoxesHold(ctx, boxes, owner);
    if |ls| > 2 {
      MarkedApart(boxes, ls, owner, 0, 1);
      MarkedApart(boxes, ls, owner, 1, 2);
      MarkedApart(boxes, ls, owner, 0, 2);
    }
  }

  predicate IsMarked(b: Box) { b.Karma? && b.income }

  lemma MarkedApart(boxes: Boxes, ls: seq<Live>, owner: Key, i: nat, j: nat)
    requires NoUserRivals(boxes) && LiveList(boxes, ls) && (forall l | l in ls :: IsKarmaOf(boxes, owner, l))
      && i < j < |ls|
    ensures IsMarked(ls[i].box) != IsMarked(ls[j].box)
  {
    assert ls[i] in ls && ls[j] in ls && Ids(ls)[i] != Ids(ls)[j];
    assert !UserRivals(boxes[ls[i].id], boxes[ls[j].id]);
  }
}
