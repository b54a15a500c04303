/** What a valid user transaction can and cannot do, read off the rules it passed. */
module Lawful {
  import opened Wrappers
  import opened Sums
  import opened Ledger
  import opened Engine
  import opened Body
  import opened Applying

  /** The only types a user transaction spends. */
  predicate UserSpendable(b: Box) {
    b.Karma? || b.Credit? || b.Vouch? || b.Username? || b.BackerStake?
  }

  ghost predicate SpendsAllUnmarked(boxes: Boxes, core: TxCore, owner: Key) {
    forall id | id in boxes && boxes[id].Karma? && boxes[id].owner == owner && !boxes[id].income :: id in core.inputs
  }

  ghost predicate SpendsKarmaOf(boxes: Boxes, core: TxCore, owner: Key) {
    exists id :: id in core.inputs && id in boxes && boxes[id].Karma? && boxes[id].owner == owner
  }

  ghost predicate AtMostOne(bs: seq<Box>, p: Box -> bool) {
    forall i, j | 0 <= i < j < |bs| :: !(p(bs[i]) && p(bs[j]))
  }

  /** One change box at most, unmarked, and only for an owner whose unmarked karma is all spent. */
  ghost predicate KarmaLawful(boxes: Boxes, core: TxCore) {
    && AtMostOne(core.outputs, IsKarma)
    && forall b | b in core.outputs && b.Karma? ::
         !b.income && SpendsAllUnmarked(boxes, core, b.owner) && SpendsKarmaOf(boxes, core, b.owner)
  }

  /** One vouch at most, from a member for another identity, the pair's first. */
  ghost predicate VouchLawful(s: State, core: TxCore) {
    && AtMostOne(core.outputs, IsVouch)
    && forall b | b in core.outputs && b.Vouch? ::
         && b.voucherId in s.records && b.targetId in s.records && b.voucherId != b.targetId
         && s.records[b.voucherId].memberSinceBlock > 0
         && !HoldsVouch(s.boxes, b.voucherId, b.targetId)
  }

  /** One bond at most, from an identity for one that has no record. */
  ghost predicate BondLawful(s: State, core: TxCore) {
    && AtMostOne(core.outputs, IsBond)
    && forall b | b in core.outputs && b.Bond? :: b.inviterId in s.records && b.inviteePublicKey !in s.records
  }

  /** A marker credits a recorded post's author. */
  ghost predicate MarkerLawful(s: State, core: TxCore) {
    forall b | b in core.outputs && b.LikeAccrual? :: exists p :: p in s.posts && s.posts[p].author == b.author
  }

  /** An escrow returns to the voucher whose vouch it replaces. */
  ghost predicate EscrowLawful(boxes: Boxes, core: TxCore) {
    forall b | b in core.outputs && b.VouchEscrow? ::
      exists id :: id in core.inputs && id in boxes && boxes[id].Vouch? && boxes[id].voucherId == b.owner
  }

  /** An unstake marker carries weight and no value. */
  ghost predicate UnstakeLawful(core: TxCore) {
    forall b | b in core.outputs && b.BackerUnstake? :: b.weight >= 1 && b.value == 0
  }

  /** A post or a like comes from the owner of its first input, a karma box. */
  ghost predicate PayloadLawful(boxes: Boxes, core: TxCore) {
    core.payload.Post? || core.payload.Like? ==>
      && core.inputs != [] && core.inputs[0] in boxes && boxes[core.inputs[0]].Karma?
      && (core.payload.Post? ==> boxes[core.inputs[0]].owner == core.payload.author)
  }

  /** Value stays inside its family, and staked weight inside the staked. */
  ghost predicate FamiliesKept(bs: seq<Box>, outputs: seq<Box>) {
    && SeqSum(bs, KarmaWeight()) == SeqSum(outputs, KarmaWeight())
    && SeqSum(bs, CreditWeight()) == SeqSum(outputs, CreditWeight())
    && SeqSum(bs, WeightOf()) == SeqSum(outputs, WeightOf())
  }

  ghost predicate OutputsLawful(s: State, core: TxCore) {
    && KarmaLawful(s.boxes, core)
    && VouchLawful(s, core)
    && BondLawful(s, core)
    && MarkerLawful(s, core)
    && EscrowLawful(s.boxes, core)
    && UnstakeLawful(core)
  }

  ghost predicate InputsLawful(s: State, core: TxCore) {
    && Distinct(core.inputs)
    && core.inputs != []
    && InputsLive(s.boxes, core.inputs)
    && (forall id | id in core.inputs && id in s.boxes :: UserSpendable(s.boxes[id]))
    && (forall b | b in core.outputs :: UserOutputShape(b))
    && FamiliesKept(ValuesAt(s.boxes, core.inputs), core.outputs)
    && PayloadLawful(s.boxes, core)
  }

  // ---------------------------------------------------------------------------
  // Counting
  // ---------------------------------------------------------------------------

  lemma {:induction false} NoneCounted(bs: seq<Box>, p: Box -> bool)
    requires CountOf(bs, p) == 0
    ensures forall b | b in bs :: !p(b)
  {
    CountedExists(bs, p);
  }

  lemma {:induction false} CountedOnce(bs: seq<Box>, p: Box -> bool)
    requires CountOf(bs, p) <= 1
    ensures AtMostOne(bs, p)
    ensures CountOf(bs, p) == 1 ==> forall b | b in bs && p(b) :: b == FirstOf(bs, p)
  {
    if bs != [] {
      CountedOnce(bs[1..], p);
      if p(bs[0]) {
        NoneCounted(bs[1..], p);
      }
      forall i, j | 0 <= i < j < |bs| ensures !(p(bs[i]) && p(bs[j])) {
        assert bs[j] == bs[1..][j - 1];
        assert i > 0 ==> bs[i] == bs[1..][i - 1];
        assert p(bs[0]) ==> bs[j] in bs[1..];
      }
      forall b | b in bs && p(b) ensures CountOf(bs, p) == 1 ==> b == FirstOf(bs, p) {
        assert b == bs[0] || b in bs[1..];
      }
    }
  }

  // ---------------------------------------------------------------------------
  // Families
  // ---------------------------------------------------------------------------

  lemma KarmaFamilyKept(bs: seq<Box>, outputs: seq<Box>)
    requires SeqSum(bs, ValueWeight()) == SeqSum(outputs, ValueWeight())
    requires (forall b | b in bs :: KarmaSide(b)) && (forall b | b in outputs :: KarmaSide(b))
    ensures FamiliesKept(bs, outputs)
  {
    SeqSumSame(bs, KarmaWeight(), ValueWeight());
    SeqSumSame(outputs, KarmaWeight(), ValueWeight());
    SeqSumZero(bs, CreditWeight());
    SeqSumZero(outputs, CreditWeight());
    SeqSumZero(bs, WeightOf());
    SeqSumZero(outputs, WeightOf());
  }

  lemma CreditFamilyKept(bs: seq<Box>, outputs: seq<Box>)
    requires SeqSum(bs, ValueWeight()) == SeqSum(outputs, ValueWeight())
    requires (forall b | b in bs :: CreditSide(b)) && (forall b | b in outputs :: CreditSide(b))
    requires SeqSum(bs, WeightOf()) == SeqSum(outputs, WeightOf())
    ensures FamiliesKept(bs, outputs)
  {
    SeqSumSame(bs, CreditWeight(), ValueWeight());
    SeqSumSame(outputs, CreditWeight(), ValueWeight());
    SeqSumZero(bs, KarmaWeight());
    SeqSumZero(outputs, KarmaWeight());
  }

  // ---------------------------------------------------------------------------
  // The karma arm
  // ---------------------------------------------------------------------------

  lemma KarmaArmInputs(bs: seq<Box>)
    requires bs != [] && InputTypesOk(bs)
    requires CountOf(bs, IsUsername) > 0 || bs[0].Karma?
    ensures forall b | b in bs :: b.Karma? || b.Username?
    ensures exists b :: b in bs && b.Karma?
    ensures CountOf(bs, IsUsername) == 0 ==> bs[0].Karma?
  {
    if forall b | b in bs :: SameType(bs[0], b) {
      assert bs[0] in bs;
      CountedExists(bs, IsUsername);
    } else {
      assert bs[0] in bs;
      var b :| b in bs && !SameType(bs[0], b);
      assert bs[0].Karma? || b.Karma?;
    }
  }

  lemma KarmaArmKarma(s: State, owner: Key, core: TxCore, bs: seq<Box>)
    requires InputsLive(s.boxes, core.inputs) && bs == ValuesAt(s.boxes, core.inputs) && bs != []
    requires InputTypesOk(bs) && (CountOf(bs, IsUsername) > 0 || bs[0].Karma?)
    requires KarmaChangeOk(s, owner, core, bs)
    ensures KarmaLawful(s.boxes, core)
  {
    KarmaArmInputs(bs);
    CountedOnce(core.outputs, IsKarma);
    var b :| b in bs && b.Karma?;
    var i :| 0 <= i < |bs| && bs[i] == b;
    assert core.inputs[i] in core.inputs && s.boxes[core.inputs[i]] == b && OwnerOf(b) == owner;
    assert SpendsKarmaOf(s.boxes, core, owner);
    forall id | id in s.boxes && s.boxes[id].Karma? && s.boxes[id].owner == owner && !s.boxes[id].income
      ensures id in core.inputs
    {
    }
    assert SpendsAllUnmarked(s.boxes, core, owner);
  }

  lemma {:induction false} OnlyKinds(outputs: seq<Box>, p: Box -> bool, q: Box -> bool, r: Box -> bool)
    requires |outputs| == CountOf(outputs, p) + CountOf(outputs, q) + CountOf(outputs, r)
    requires forall b | b in outputs :: !(p(b) && q(b)) && !(p(b) && r(b)) && !(q(b) && r(b))
    ensures forall b | b in outputs :: p(b) || q(b) || r(b)
  {
    if outputs != [] {
      assert outputs[0] in outputs;
      assert forall b | b in outputs[1..] :: b in outputs;
      KindsBound(outputs[1..], p, q, r);
      OnlyKinds(outputs[1..], p, q, r);
      assert forall b | b in outputs :: b == outputs[0] || b in outputs[1..];
    }
  }

  lemma {:induction false} KindsBound(outputs: seq<Box>, p: Box -> bool, q: Box -> bool, r: Box -> bool)
    requires forall b | b in outputs :: !(p(b) && q(b)) && !(p(b) && r(b)) && !(q(b) && r(b))
    ensures CountOf(outputs, p) + CountOf(outputs, q) + CountOf(outputs, r) <= |outputs|
  {
    if outputs != [] {
      assert outputs[0] in outputs;
      assert forall b | b in outputs[1..] :: b in outputs;
      KindsBound(outputs[1..], p, q, r);
    }
  }

  predicate IsNothing(b: Box) { false }

  lemma {:induction false} NothingCounted(bs: seq<Box>)
    ensures CountOf(bs, IsNothing) == 0
  {
    CountedExists(bs, IsNothing);
  }

  /** The kinds each branch of the karma arm may create beside the change. */
  predicate BranchKind(core: TxCore, burns: bool, claims: bool, b: Box) {
    || b.Karma?
    || (if burns then b.KarmaPrice?
        else if claims then b.Username?
        else match core.payload
          case Like(_) => b.LikeAccrual?
          case Post(_, _) => b.KarmaPrice? || b.LikeAccrual?
          case PostWithdraw(_) => false
          case NoPayload => true)
  }

  lemma BranchKinds(ctx: Ctx, s: State, owner: Key, core: TxCore, burns: bool, height: int)
    requires KarmaShape(ctx, s, owner, core, burns, height)
    ensures forall b | b in core.outputs :: BranchKind(core, burns, CountOf(core.outputs, IsUsername) > 0, b)
  {
    var outputs := core.outputs;
    var claims := CountOf(outputs, IsUsername) > 0;
    NothingCounted(outputs);
    if burns {
      OnlyKinds(outputs, IsKarma, IsPrice, IsNothing);
    } else if claims {
      OnlyKinds(outputs, IsKarma, IsUsername, IsNothing);
    } else if core.payload.Like? {
      OnlyKinds(outputs, IsKarma, IsAccrual, IsNothing);
    } else if core.payload.PostWithdraw? {
      OnlyKinds(outputs, IsKarma, IsNothing, IsNothing);
    } else if core.payload.Post? {
      OnlyKinds(outputs, IsKarma, IsPrice, IsAccrual);
    }
  }

  lemma KarmaArmVouch(ctx: Ctx, s: State, owner: Key, core: TxCore, burns: bool, height: int)
    requires KarmaShape(ctx, s, owner, core, burns, height)
    ensures VouchLawful(s, core)
  {
    BranchKinds(ctx, s, owner, core, burns, height);
    CountedExists(core.outputs, IsVouch);
    CountedExists(core.outputs, IsPrice);
    if CountOf(core.outputs, IsVouch) > 0 {
      assert VouchShape(s, owner, core.outputs, height);
      CountedOnce(core.outputs, IsVouch);
    }
  }

  lemma KarmaArmBond(ctx: Ctx, s: State, owner: Key, core: TxCore, burns: bool, height: int)
    requires KarmaShape(ctx, s, owner, core, burns, height)
    ensures BondLawful(s, core)
  {
    BranchKinds(ctx, s, owner, core, burns, height);
    CountedExists(core.outputs, IsBond);
    if CountOf(core.outputs, IsBond) > 0 {
      assert InviteShape(ctx, s, owner, core.outputs);
      CountedOnce(core.outputs, IsBond);
    }
  }

  lemma KarmaArmMarker(ctx: Ctx, s: State, owner: Key, core: TxCore, burns: bool, height: int)
    requires KarmaShape(ctx, s, owner, core, burns, height)
    requires CountOf(core.outputs, IsAccrual) > 0 ==>
      core.payload.Like? || (core.payload.Post? && core.payload.parentRefs != [])
    ensures MarkerLawful(s, core)
  {
    CountedExists(core.outputs, IsAccrual);
    if CountOf(core.outputs, IsAccrual) > 0 {
      CountedOnce(core.outputs, IsAccrual);
      var p := if core.payload.Like? then core.payload.target else core.payload.parentRefs[0];
      assert p in s.posts && s.posts[p].author == FirstOf(core.outputs, IsAccrual).author;
    }
  }

  lemma ValuesInRange(boxes: Boxes, ids: seq<BoxId>, bs: seq<Box>)
    requires InputsLive(boxes, ids) && bs == ValuesAt(boxes, ids)
    ensures forall id | id in ids :: boxes[id] in bs
    ensures forall b | b in bs :: exists id :: id in ids && boxes[id] == b
  {
    forall id | id in ids ensures boxes[id] in bs {
      var i :| 0 <= i < |ids| && ids[i] == id;
      assert bs[i] == boxes[id];
    }
    forall b | b in bs ensures exists id :: id in ids && boxes[id] == b {
      var i :| 0 <= i < |bs| && bs[i] == b;
      assert ids[i] in ids;
    }
  }

  lemma KarmaArmOutputs(ctx: Ctx, s: State, owed: Owed, core: TxCore, bs: seq<Box>, height: int)
    requires InputsLive(s.boxes, core.inputs) && bs == ValuesAt(s.boxes, core.inputs) && bs != []
    requires InputTypesOk(bs) && (CountOf(bs, IsUsername) > 0 || bs[0].Karma?)
    requires KarmaTransition(ctx, s, owed, core, bs, height).Valid?
    requires CountOf(core.outputs, IsAccrual) > 0 ==>
      core.payload.Like? || (core.payload.Post? && core.payload.parentRefs != [])
    ensures OutputsLawful(s, core)
  {
    var owner := OwnerOf(bs[0]);
    var burns := CountOf(bs, IsUsername) > 0;
    KarmaArmKarma(s, owner, core, bs);
    KarmaArmVouch(ctx, s, owner, core, burns, height);
    KarmaArmBond(ctx, s, owner, core, burns, height);
    KarmaArmMarker(ctx, s, owner, core, burns, height);
  }

  lemma KarmaArmInputsLawful(ctx: Ctx, s: State, owed: Owed, core: TxCore, bs: seq<Box>, height: int)
    requires InputsLive(s.boxes, core.inputs) && bs == ValuesAt(s.boxes, core.inputs) && bs != []
    requires InputTypesOk(bs) && (CountOf(bs, IsUsername) > 0 || bs[0].Karma?)
    requires KarmaTransition(ctx, s, owed, core, bs, height).Valid?
    requires SeqSum(bs, ValueWeight()) == SeqSum(core.outputs, ValueWeight())
    ensures FamiliesKept(bs, core.outputs) && PayloadLawful(s.boxes, core)
  {
    KarmaArmInputs(bs);
    KarmaFamilyKept(bs, core.outputs);
  }

  // ---------------------------------------------------------------------------
  // The other arms
  // ---------------------------------------------------------------------------

  ghost predicate CreatesNoneOf(outputs: seq<Box>) {
    forall b | b in outputs :: !b.Karma? && !b.Vouch? && !b.Bond? && !b.LikeAccrual?
  }

  lemma QuietOutputs(s: State, core: TxCore)
    requires CreatesNoneOf(core.outputs)
    ensures KarmaLawful(s.boxes, core) && VouchLawful(s, core) && BondLawful(s, core) && MarkerLawful(s, core)
  {
    forall i | 0 <= i < |core.outputs|
      ensures !core.outputs[i].Karma? && !core.outputs[i].Vouch? && !core.outputs[i].Bond?
    {
      assert core.outputs[i] in core.outputs;
    }
  }

  lemma CreditArm(ctx: Ctx, s: State, tx: Tx, bs: seq<Box>, height: int)
    requires |tx.core.inputs| == |bs| && forall b | b in bs :: b.Credit?
    requires CreditTransition(ctx, tx, bs, height)
    requires SeqSum(bs, ValueWeight()) == SeqSum(tx.core.outputs, ValueWeight())
    ensures OutputsLawful(s, tx.core) && FamiliesKept(bs, tx.core.outputs)
  {
    QuietOutputs(s, tx.core);
    SeqSumZero(bs, WeightOf());
    SeqSumZero(tx.core.outputs, WeightOf());
    CreditFamilyKept(bs, tx.core.outputs);
  }

  lemma VouchArm(ctx: Ctx, s: State, core: TxCore, bs: seq<Box>)
    requires InputsLive(s.boxes, core.inputs) && bs == ValuesAt(s.boxes, core.inputs)
    requires bs != [] && bs[0].Vouch? && UnvouchTransition(ctx, core, bs)
    requires SeqSum(bs, ValueWeight()) == SeqSum(core.outputs, ValueWeight())
    ensures OutputsLawful(s, core) && FamiliesKept(bs, core.outputs)
  {
    QuietOutputs(s, core);
    KarmaFamilyKept(bs, core.outputs);
    assert core.inputs[0] in core.inputs && s.boxes[core.inputs[0]] == bs[0];
  }

  lemma StakeArm(s: State, core: TxCore, bs: seq<Box>)
    requires bs != [] && bs[0].BackerStake? && UnstakeTransition(core, bs)
    requires SeqSum(bs, ValueWeight()) == SeqSum(core.outputs, ValueWeight())
    ensures OutputsLawful(s, core) && FamiliesKept(bs, core.outputs)
  {
    QuietOutputs(s, core);
    assert bs == [bs[0]] && SeqSum(bs, WeightOf()) == bs[0].weight + SeqSum([], WeightOf());
    CreditFamilyKept(bs, core.outputs);
  }

  // ---------------------------------------------------------------------------
  // All of it
  // ---------------------------------------------------------------------------

  lemma SpendableInputs(ctx: Ctx, s: State, tx: Tx, bs: seq<Box>, height: int)
    requires InputsLive(s.boxes, tx.core.inputs) && bs == ValuesAt(s.boxes, tx.core.inputs)
    requires Authorized(ctx, tx, bs, height)
    ensures forall id | id in tx.core.inputs && id in s.boxes :: UserSpendable(s.boxes[id])
  {
    ValuesInRange(s.boxes, tx.core.inputs, bs);
    forall id | id in tx.core.inputs && id in s.boxes ensures UserSpendable(s.boxes[id]) {
      assert s.boxes[id] in bs && !SignerOf(ctx, s.boxes[id], tx, height).NoUserTransition?;
    }
  }

  lemma ArmIsLawful(ctx: Ctx, s: State, owed: Owed, tx: Tx, bs: seq<Box>, height: int)
    requires InputsLive(s.boxes, tx.core.inputs) && bs == ValuesAt(s.boxes, tx.core.inputs)
    requires bs != [] && InputTypesOk(bs)
    requires Transition(ctx, s, owed, tx, bs, height).Valid?
    requires SeqSum(bs, ValueWeight()) == SeqSum(tx.core.outputs, ValueWeight())
    ensures OutputsLawful(s, tx.core) && FamiliesKept(bs, tx.core.outputs) && PayloadLawful(s.boxes, tx.core)
  {
    var core := tx.core;
    if CountOf(bs, IsUsername) > 0 || bs[0].Karma? {
      KarmaArmOutputs(ctx, s, owed, core, bs, height);
      KarmaArmInputsLawful(ctx, s, owed, core, bs, height);
    } else if bs[0].Credit? {
      NoUsernameOneType(bs);
      CreditArm(ctx, s, tx, bs, height);
    } else if bs[0].Vouch? {
      VouchArm(ctx, s, core, bs);
    } else {
      StakeArm(s, core, bs);
    }
  }

  /** Every transaction the rules accept is lawful. */
  lemma ValidIsLawful(ctx: Ctx, s: State, owed: Owed, tx: Tx, height: int)
    requires ValidateTx(ctx, s, owed, tx, height).Valid?
    ensures InputsLawful(s, tx.core) && OutputsLawful(s, tx.core)
  {
    var bs := ValuesAt(s.boxes, tx.core.inputs);
    SpendableInputs(ctx, s, tx, bs, height);
    ArmIsLawful(ctx, s, owed, tx, bs, height);
  }

  // ---------------------------------------------------------------------------
  // Defects
  // ---------------------------------------------------------------------------

  /** The rules throw only for karma whose owner the owed capture lacks. */
  lemma DefectIsUnowed(ctx: Ctx, s: State, owed: Owed, tx: Tx, height: int)
    requires ValidateTx(ctx, s, owed, tx, height).Defect?
    ensures exists id :: id in tx.core.inputs && id in s.boxes && s.boxes[id].Karma? && s.boxes[id].owner !in owed
  {
    var bs := ValuesAt(s.boxes, tx.core.inputs);
    KarmaDefect(ctx, s, owed, tx.core, bs, height);
    var b :| b in bs && b.Karma? && b.owner !in owed;
    ValuesInRange(s.boxes, tx.core.inputs, bs);
    var id :| id in tx.core.inputs && s.boxes[id] == b;
  }

  lemma KarmaDefect(ctx: Ctx, s: State, owed: Owed, core: TxCore, bs: seq<Box>, height: int)
    requires bs != [] && InputTypesOk(bs) && (CountOf(bs, IsUsername) > 0 || bs[0].Karma?)
    requires KarmaTransition(ctx, s, owed, core, bs, height).Defect?
    ensures exists b :: b in bs && b.Karma? && b.owner !in owed
  {
    KarmaArmInputs(bs);
    var b :| b in bs && b.Karma?;
    assert OwnerOf(b) == OwnerOf(bs[0]);
  }
}
