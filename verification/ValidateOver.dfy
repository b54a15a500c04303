/** Validation over the overlay: each rule reads what the block has left so far. */
module ValidateOver {
  import opened Wrappers
  import opened Sums
  import opened Orders
  import opened Ledger
  import opened Engine
  import opened Body
  import opened Coinbase
  import opened Queries
  import opened Decay
  import opened StateReads
  import opened SettleSums
  import opened AfterBody
  import opened Sorting
  import opened Overlays

  /** An overlay in use: coherent, over a view whose reads are at hand. */
  ghost predicate InUse(state: BlockOverlay, lists: Reads)
    reads state
  {
    state.Valid() && RanksApart(state.ctx) && Answers(state.ctx, lists, state.view)
  }

  // ---------------------------------------------------------------------------
  // Inputs
  // ---------------------------------------------------------------------------

  /** The boxes the inputs name, or none where one is not live. */
  method InputBoxes(state: BlockOverlay, ids: seq<BoxId>) returns (bs: Option<seq<Box>>)
    requires state.Valid()
    ensures bs.Some? <==> InputsLive(state.Now().boxes, ids)
    ensures bs.Some? ==> bs.value == ValuesAt(state.Now().boxes, ids)
  {
    var found: seq<Box> := [];
    for i := 0 to |ids|
      invariant |found| == i
      invariant forall j | 0 <= j < i :: ids[j] in state.Now().boxes && found[j] == state.Now().boxes[ids[j]]
    {
      var box := state.GetBox(ids[i]);
      if box.None? {
        assert ids[i] in ids;
        return None;
      }
      found := found + [box.value];
    }
    assert InputsLive(state.Now().boxes, ids);
    bs := Some(found);
  }

  predicate AllDifferent(ids: seq<BoxId>)
    ensures AllDifferent(ids) <==> Distinct(ids)
  {
    forall i, j | 0 <= i < j < |ids| :: ids[i] != ids[j]
  }

  // ---------------------------------------------------------------------------
  // An owner's karma
  // ---------------------------------------------------------------------------

  /** What an owner's listed karma boxes hold is what the owner holds. */
  lemma FaceIsHeld(ctx: Ctx, boxes: Boxes, owner: Key)
    ensures FaceOf(KarmaBoxes(ctx, boxes, owner)) == KarmaHeld(boxes, owner)
  {
    var ls, w := KarmaBoxes(ctx, boxes, owner), HeldWeight(owner);
    KarmaBoxesHold(ctx, boxes, owner);
    ListedInBoxes(boxes, ls);
    MapSumRemoveAll(boxes, w, Ids(ls));
    NoneHeldOutside(ctx, boxes, owner);
    FaceIsWeight(ls, owner);
    LiveSumIs(boxes, ls, w);
  }

  lemma ListedInBoxes(boxes: Boxes, ls: seq<Live>)
    requires LiveList(boxes, ls)
    ensures Distinct(Ids(ls)) && forall id | id in Ids(ls) :: id in boxes
  {
    forall id | id in Ids(ls) ensures id in boxes {
      var i :| 0 <= i < |ls| && Ids(ls)[i] == id;
      assert ls[i] in ls;
    }
  }

  lemma NoneHeldOutside(ctx: Ctx, boxes: Boxes, owner: Key)
    ensures MapSum(boxes - Members(Ids(KarmaBoxes(ctx, boxes, owner))), HeldWeight(owner)) == 0
  {
    var ls := KarmaBoxes(ctx, boxes, owner);
    KarmaBoxesHold(ctx, boxes, owner);
    forall id | id in boxes && boxes[id].Karma? && boxes[id].owner == owner ensures id in Members(Ids(ls)) {
      assert IsKarmaOf(boxes, owner, Live(id, boxes[id]));
      IdListed(ls, Live(id, boxes[id]));
    }
    var rest := boxes - Members(Ids(ls));
    MapSumNothing(rest, HeldWeight(owner));
  }

  lemma {:induction false} FaceIsWeight(ls: seq<Live>, owner: Key)
    requires forall l | l in ls :: l.box.Karma? && l.box.owner == owner
    ensures LiveSum(ls, HeldWeight(owner)) == FaceOf(ls)
  {
    if ls != [] {
      FaceIsWeight(ls[1..], owner);
    }
  }

  // ---------------------------------------------------------------------------
  // The karma arm's shapes
  // ---------------------------------------------------------------------------

  predicate ClaimFits(state: BlockOverlay, owner: Key, outputs: seq<Box>)
    reads state
    ensures ClaimFits(state, owner, outputs) <==> ClaimShape(state.ctx, state.Now(), owner, outputs)
  {
    && CountOf(outputs, IsUsername) == 1
    && var u := FirstOf(outputs, IsUsername);
       && u.value == 0
       && state.ctx.validName(u.name)
       && u.owner == owner
       && state.GetUsername(state.ctx.canonicalName(u.name)).None?
       && state.GetUsernameByOwner(owner).None?
       && |outputs| == CountOf(outputs, IsKarma) + 1
  }

  predicate LikeFits(state: BlockOverlay, owner: Key, outputs: seq<Box>, target: PostId)
    reads state
    ensures LikeFits(state, owner, outputs, target) <==> LikeShape(state.Now(), owner, outputs, target)
  {
    && CountOf(outputs, IsAccrual) == 1
    && |outputs| == CountOf(outputs, IsKarma) + 1
    && var marker := FirstOf(outputs, IsAccrual);
       && marker.value == LIKE_KARMA_COST
       && state.GetTopologyAuthor(target) == Some(marker.author)
       && marker.author != owner
  }

  predicate PostFits(state: BlockOverlay, owner: Key, outputs: seq<Box>, author: Key, parentRefs: seq<PostId>)
    reads state
    ensures PostFits(state, owner, outputs, author, parentRefs) <==>
      PostShape(state.Now(), owner, outputs, author, parentRefs)
  {
    && author == owner
    && CountOf(outputs, IsPrice) == 1
    && if parentRefs == [] then
         && CountOf(outputs, IsAccrual) == 0
         && |outputs| == CountOf(outputs, IsKarma) + 1
         && FirstOf(outputs, IsPrice).value == POST_PRICE_THREAD
       else
         && CountOf(outputs, IsAccrual) == 1
         && |outputs| == CountOf(outputs, IsKarma) + 2
         && FirstOf(outputs, IsPrice).value == POST_PRICE_REPLY - REPLY_AUTHOR_SHARE
         && FirstOf(outputs, IsAccrual).value == REPLY_AUTHOR_SHARE
         && state.GetTopologyAuthor(parentRefs[0]) == Some(FirstOf(outputs, IsAccrual).author)
  }

  predicate WithdrawFits(state: BlockOverlay, owner: Key, outputs: seq<Box>, postId: PostId)
    reads state
    ensures WithdrawFits(state, owner, outputs, postId) <==> WithdrawShape(state.Now(), owner, outputs, postId)
  {
    CountOf(outputs, IsKarma) == 1 && |outputs| == 1 && state.GetTopologyAuthor(postId) == Some(owner)
  }

  predicate InviteFits(state: BlockOverlay, owner: Key, outputs: seq<Box>)
    reads state
    ensures InviteFits(state, owner, outputs) <==> InviteShape(state.ctx, state.Now(), owner, outputs)
  {
    && CountOf(outputs, IsBond) == 1
    && var bond := FirstOf(outputs, IsBond);
       && state.ctx.inviteBondMin <= bond.value <= state.ctx.inviteBondMax
       && bond.inviterId == owner
       && state.GetIdentityRecord(bond.inviteePublicKey).None?
       && match AvailableInvites(
            state.GetIdentityRecord(owner), MembershipBar(state.GetNetworkRecord(),
                state.ctx.membershipBarMultiplier)) {
            case Uncapped => true
            case Left(n) => n >= 1
            case _ => false
          }
  }

  /** The vouch's own clauses, its voucher's escrow and its pair's vouch aside. */
  predicate VouchFitsRecords(state: BlockOverlay, owner: Key, outputs: seq<Box>, height: int)
    reads state
  {
    && CountOf(outputs, IsVouch) == 1
    && CountOf(outputs, IsBond) == 0
    && var v := FirstOf(outputs, IsVouch);
       && v.value == VOUCH_KARMA_AMOUNT
       && v.voucherId == owner
       && state.GetIdentityRecord(owner).Some? && IsMember(state.GetIdentityRecord(owner).value)
       && state.GetIdentityRecord(v.targetId).Some?
       && v.targetId != owner
       && v.createdAtBlock >= height - VOUCH_CAST_HEIGHT_WINDOW
  }

  lemma EscrowsListed(ctx: Ctx, boxes: Boxes, voucher: Key)
    ensures EscrowBoxes(ctx, boxes, voucher) != [] <==> HoldsEscrow(boxes, voucher)
  {
    var ls := EscrowBoxes(ctx, boxes, voucher);
    SortedLives(boxes, EscrowOf(voucher), ByRank(ctx));
    if ls != [] {
      assert ls[0] in ls;
    }
    if id :| id in boxes && boxes[id].VouchEscrow? && boxes[id].owner == voucher {
      assert Live(id, boxes[id]) in ls;
    }
  }

  lemma PairsListed(ctx: Ctx, boxes: Boxes, voucher: Key, target: Key)
    ensures PairBoxes(ctx, boxes, voucher, target) != [] <==> HoldsVouch(boxes, voucher, target)
  {
    var ls := PairBoxes(ctx, boxes, voucher, target);
    SortedLives(boxes, PairOf(voucher, target), ByRank(ctx));
    if ls != [] {
      assert ls[0] in ls;
    }
    if id :| id in boxes && boxes[id].Vouch? && boxes[id].voucherId == voucher && boxes[id].targetId == target {
      assert Live(id, boxes[id]) in ls;
    }
  }

  method HoldsEscrowOver(state: BlockOverlay, lists: Reads, voucher: Key) returns (holds: bool)
    requires InUse(state, lists)
    ensures holds <==> HoldsEscrow(state.Now().boxes, voucher)
  {
    var escrows := state.GetVouchEscrowsFor(voucher, EscrowRead(state.ctx, lists, state.view, voucher));
    EscrowsListed(state.ctx, state.Now().boxes, voucher);
    holds := escrows != [];
  }

  method HoldsVouchOver(state: BlockOverlay, lists: Reads, voucher: Key, target: Key) returns (holds: bool)
    requires InUse(state, lists)
    ensures holds <==> HoldsVouch(state.Now().boxes, voucher, target)
  {
    var pair := state.GetVouchBoxes(voucher, target, VouchRead(state.ctx, lists, state.view, voucher, target));
    PairsListed(state.ctx, state.Now().boxes, voucher, target);
    holds := pair != [];
  }

  /** A vouch fits where its records do, its voucher has no escrow and its pair no vouch. */
  lemma VouchFitsWhere(state: BlockOverlay, owner: Key, outputs: seq<Box>, height: int)
    ensures VouchShape(state.Now(), owner, outputs, height) <==>
      && VouchFitsRecords(state, owner, outputs, height)
      && !HoldsEscrow(state.Now().boxes, owner)
      && !HoldsVouch(state.Now().boxes, owner, FirstOf(outputs, IsVouch).targetId)
  {
  }

  method VouchFits(state: BlockOverlay, lists: Reads, owner: Key, outputs: seq<Box>, height: int) returns (fits: bool)
    requires InUse(state, lists)
    ensures fits <==> VouchShape(state.Now(), owner, outputs, height)
  {
    VouchFitsWhere(state, owner, outputs, height);
    if !VouchFitsRecords(state, owner, outputs, height) {
      return false;
    }
    var target := FirstOf(outputs, IsVouch).targetId;
    var cooling := HoldsEscrowOver(state, lists, owner);
    var standing := HoldsVouchOver(state, lists, owner, target);
    fits := !cooling && !standing;
  }

  method ShapeFits(state: BlockOverlay, lists: Reads, owner: Key, core: TxCore, burns: bool,
    height: int) returns (fits: bool)
    requires InUse(state, lists)
    ensures fits <==> KarmaShape(state.ctx, state.Now(), owner, core, burns, height)
  {
    var outputs := core.outputs;
    if burns {
      return core.payload.NoPayload? && BurnShape(outputs);
    }
    if CountOf(outputs, IsUsername) > 0 {
      return core.payload.NoPayload? && ClaimFits(state, owner, outputs);
    }
    match core.payload
    case Like(target) => fits := LikeFits(state, owner, outputs, target);
    case Post(author, parentRefs) => fits := PostFits(state, owner, outputs, author, parentRefs);
    case PostWithdraw(postId) => fits := WithdrawFits(state, owner, outputs, postId);
    case NoPayload =>
      if CountOf(outputs, IsPrice) > 0 {
        fits := false;
      } else if CountOf(outputs, IsVouch) > 0 {
        fits := VouchFits(state, lists, owner, outputs, height);
      } else {
        fits := CountOf(outputs, IsBond) > 0 ==> InviteFits(state, owner, outputs);
      }
  }

  // ---------------------------------------------------------------------------
  // The karma arm
  // ---------------------------------------------------------------------------

  /** Every listed box of the owner's that carries no mark is an input. */
  predicate UnmarkedSpent(ls: seq<Live>, inputs: seq<BoxId>) {
    forall i | 0 <= i < |ls| :: ls[i].box.Karma? && !ls[i].box.income ==> ls[i].id in inputs
  }

  lemma UnmarkedSpentIs(ctx: Ctx, boxes: Boxes, owner: Key, inputs: seq<BoxId>)
    ensures UnmarkedSpent(KarmaBoxes(ctx, boxes, owner), inputs) <==>
      forall id | id in boxes && boxes[id].Karma? && boxes[id].owner == owner && !boxes[id].income :: id in inputs
  {
    var ls := KarmaBoxes(ctx, boxes, owner);
    KarmaBoxesHold(ctx, boxes, owner);
    if UnmarkedSpent(ls, inputs) {
      forall id | id in boxes && boxes[id].Karma? && boxes[id].owner == owner && !boxes[id].income
          ensures id in inputs {
        assert IsKarmaOf(boxes, owner, Live(id, boxes[id]));
        var i :| 0 <= i < |ls| && ls[i] == Live(id, boxes[id]);
      }
    } else {
      var i :| 0 <= i < |ls| && ls[i].box.Karma? && !ls[i].box.income && ls[i].id !in inputs;
      assert ls[i] in ls;
    }
  }

  predicate ChangeFits(owner: Key, core: TxCore, bs: seq<Box>) {
    && (forall b | b in core.outputs :: KarmaOutput(b))
    && (forall b | b in bs :: OwnerOf(b) == owner)
    && CountOf(core.outputs, IsKarma) <= 1
    && (forall b | b in core.outputs && b.Karma? :: !b.income && b.value != 0 && b.owner == owner)
  }

  method SpendFits(owed: Owed, held: nat, owner: Key, outputs: seq<Box>, payload: Payload,
    ghost s: State) returns (v: Verdict)
    requires held == KarmaHeld(s.boxes, owner)
    ensures v == SpendCheck(s, owed, owner, outputs, payload)
  {
    var spend := SpendOf(outputs);
    if spend == 0 {
      return Valid;
    }
    if owner !in owed {
      return Defect;
    }
    var remaining := held - owed[owner];
    var covered := if payload.Post? then remaining >= spend else remaining - spend >= KARMA_MINIMUM;
    v := if covered then Valid else Invalid;
  }

  method ValidateKarma(state: BlockOverlay, lists: Reads, owed: Owed, core: TxCore, bs: seq<Box>,
    height: int) returns (v: Verdict)
    requires InUse(state, lists) && bs != []
    ensures v == KarmaTransition(state.ctx, state.Now(), owed, core, bs, height)
  {
    var owner := OwnerOf(bs[0]);
    var burns := CountOf(bs, IsUsername) > 0;
    var held := state.GetKarmaBoxes(owner, KarmaRead(state.ctx, lists, state.view, owner));
    UnmarkedSpentIs(state.ctx, state.Now().boxes, owner, core.inputs);
    if !ChangeFits(owner, core, bs) || !UnmarkedSpent(held, core.inputs) {
      return Invalid;
    }
    var fits := ShapeFits(state, lists, owner, core, burns, height);
    if !fits {
      return Invalid;
    }
    if !burns && CountOf(core.outputs, IsUsername) > 0 {
      return Valid;
    }
    FaceIsHeld(state.ctx, state.Now().boxes, owner);
    v := SpendFits(owed, FaceOf(held), owner, core.outputs, core.payload, state.Now());
  }

  // ---------------------------------------------------------------------------
  // validateTx
  // ---------------------------------------------------------------------------

  method ValidateTransition(state: BlockOverlay, lists: Reads, owed: Owed, tx: Tx, bs: seq<Box>,
    height: int) returns (v: Verdict)
    requires InUse(state, lists) && bs != [] && |tx.core.inputs| == |bs| && InputTypesOk(bs)
    ensures v == Transition(state.ctx, state.Now(), owed, tx, bs, height)
  {
    var core := tx.core;
    var accrualPayload := core.payload.Like? || (core.payload.Post? && core.payload.parentRefs != []);
    if !accrualPayload && CountOf(core.outputs, IsAccrual) > 0 {
      v := Invalid;
    } else if core.payload.Like? && (exists b | b in bs :: !b.Karma?) {
      v := Invalid;
    } else if CountOf(bs, IsUsername) > 0 || bs[0].Karma? {
      v := ValidateKarma(state, lists, owed, core, bs, height);
    } else {
      v := OtherTransition(state.ctx, tx, bs, height);
    }
  }

  /** The engine's verdict on a transaction over what the block has left. */
  method Validate(state: BlockOverlay, lists: Reads, owed: Owed, tx: Tx, height: int) returns (v: Verdict)
    requires InUse(state, lists)
    ensures v == ValidateTx(state.ctx, state.Now(), owed, tx, height)
  {
    if !AllDifferent(tx.core.inputs) || tx.core.inputs == [] {
      return Invalid;
    }
    var bs := InputBoxes(state, tx.core.inputs);
    if bs.None? || !BoxesFit(state.ctx, tx, bs.value, height) {
      return Invalid;
    }
    v := ValidateTransition(state, lists, owed, tx, bs.value, height);
  }
}
