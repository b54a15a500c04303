/** The rules a user transaction is held to, and the legal transitions between boxes. */
module Engine {
  import opened Wrappers
  import opened Sums
  import opened Ledger

  /** A rule's answer. A defect is a throw: never a verdict on the transaction. */
  datatype Verdict = Valid | Invalid | Defect

  // ---------------------------------------------------------------------------
  // Outputs by type
  // ---------------------------------------------------------------------------

  function CountOf(bs: seq<Box>, p: Box -> bool): (n: nat)
    ensures n <= |bs|
  {
    if bs == [] then 0 else (if p(bs[0]) then 1 else 0) + CountOf(bs[1..], p)
  }

  /** The first element that satisfies `p`. */
  function FirstOf(bs: seq<Box>, p: Box -> bool): (b: Box)
    requires CountOf(bs, p) > 0
    ensures p(b) && b in bs
  {
    if p(bs[0]) then bs[0] else FirstOf(bs[1..], p)
  }

  predicate IsKarma(b: Box) { b.Karma? }
  predicate IsBond(b: Box) { b.Bond? }
  predicate IsPrice(b: Box) { b.KarmaPrice? }
  predicate IsVouch(b: Box) { b.Vouch? }
  predicate IsAccrual(b: Box) { b.LikeAccrual? }
  predicate IsUsername(b: Box) { b.Username? }
  predicate IsFee(b: Box) { b.Fee? }
  predicate IsUnstake(b: Box) { b.BackerUnstake? }
  predicate IsStake(b: Box) { b.BackerStake? }
  /** What the outputs that are not karma hold. */
  function SpendWeight(): Box -> int { (b: Box) => if b.Karma? then 0 else b.value }

  function ValueWeight(): Box -> int { (b: Box) => b.value }

  function SpendOf(outputs: seq<Box>): int { SeqSum(outputs, SpendWeight()) }

  // ---------------------------------------------------------------------------
  // Shape
  // ---------------------------------------------------------------------------

  /** Inside the accepted value domain. */
  predicate InDomain(b: Box) {
    && b.value < BOX_VALUE_BOUND
    && match b {
      case BackerStake(_, _, _, weight) => weight < BOX_VALUE_BOUND
      case BackerUnstake(_, _, _, weight) => weight < BOX_VALUE_BOUND
      case BackerPool(_, _, staked, accrual) => staked < BOX_VALUE_BOUND && accrual < BOX_VALUE_BOUND
      case _ => true
    }
  }

  /** What a user transaction may create: never a protocol box, a genesis proof or an income mark. */
  predicate UserOutputShape(b: Box) {
    InDomain(b) && match b {
      case Karma(_, _, _, income) => !income
      case Emission(_, _) => false
      case Treasury(_, _) => false
      case KarmaPool(_, _) => false
      case BackerPool(_, _, _, _) => false
      case GenesisProof(_, _) => false
      case _ => true
    }
  }

  predicate SettlementOutputShape(b: Box) {
    InDomain(b) && !b.GenesisProof?
  }

  // ---------------------------------------------------------------------------
  // Inputs
  // ---------------------------------------------------------------------------

  ghost predicate InputsLive(boxes: Boxes, inputs: seq<BoxId>) {
    forall id | id in inputs :: id in boxes
  }

  predicate UnlockedAt(b: Box, height: int) {
    b.Credit? && b.lockedUntilBlock.Some? ==> b.lockedUntilBlock.value <= height
  }

  predicate SameType(a: Box, b: Box) {
    match a {
      case Karma(_, _, _, _) => b.Karma?
      case Credit(_, _, _, _) => b.Credit?
      case Bond(_, _, _, _) => b.Bond?
      case KarmaPrice(_, _) => b.KarmaPrice?
      case Vouch(_, _, _, _) => b.Vouch?
      case Fee(_, _) => b.Fee?
      case LikeAccrual(_, _, _) => b.LikeAccrual?
      case VouchEscrow(_, _, _, _) => b.VouchEscrow?
      case Emission(_, _) => b.Emission?
      case Treasury(_, _) => b.Treasury?
      case KarmaPool(_, _) => b.KarmaPool?
      case Username(_, _, _, _) => b.Username?
      case BackerStake(_, _, _, _) => b.BackerStake?
      case BackerUnstake(_, _, _, _) => b.BackerUnstake?
      case BackerPool(_, _, _, _) => b.BackerPool?
      case GenesisProof(_, _) => b.GenesisProof?
    }
  }

  /** One box type, or the burn's karma and one username; a username never alone. */
  predicate InputTypesOk(bs: seq<Box>)
    requires bs != []
  {
    if forall b | b in bs :: SameType(bs[0], b) then !bs[0].Username?
    else (forall b | b in bs :: b.Karma? || b.Username?) && CountOf(bs, IsUsername) == 1
  }

  /** Whose signature an input's transition requires: none's, a key's, or no transition admits it. */
  datatype Signer = Waived | By(key: Key) | NoUserTransition

  function SignerOf(ctx: Ctx, b: Box, tx: Tx, height: int): Signer {
    match b {
      case Karma(_, _, owner, _) => By(owner)
      case Username(_, _, owner, _) => By(owner)
      case BackerStake(_, _, owner, _) => By(owner)
      case Vouch(_, _, voucher, _) => By(voucher)
      case Credit(_, created, owner, _) =>
        if tx.signatures == map[] && height - created > ctx.storageRentPeriodBlocks then Waived else By(owner)
      case _ => NoUserTransition
    }
  }

  predicate Authorized(ctx: Ctx, tx: Tx, bs: seq<Box>, height: int) {
    && (forall b | b in bs ::
          match SignerOf(ctx, b, tx, height)
          case NoUserTransition => false
          case Waived => true
          case By(key) => key in tx.signatures && ctx.verifies(tx.core, key, tx.signatures[key]))
    && (forall key | key in tx.signatures :: exists b :: b in bs && SignerOf(ctx, b, tx, height) == By(key))
  }

  // ---------------------------------------------------------------------------
  // What the transitions read
  // ---------------------------------------------------------------------------

  function TopologyAuthor(s: State, id: PostId): Option<Key> {
    if id in s.posts then Some(s.posts[id].author) else None
  }

  ghost predicate HoldsEscrow(boxes: Boxes, voucher: Key) {
    exists id :: id in boxes && boxes[id].VouchEscrow? && boxes[id].owner == voucher
  }

  ghost predicate HoldsVouch(boxes: Boxes, voucher: Key, target: Key) {
    exists id :: id in boxes && boxes[id].Vouch? && boxes[id].voucherId == voucher && boxes[id].targetId == target
  }

  datatype Invites = NoRecord | Uncapped | NoInvites | Left(n: int)

  /** Who may invite, and how many. */
  function AvailableInvites(record: Option<IdentityRecord>, bar: nat): Invites
    requires bar >= 1
  {
    match record
    case None => NoRecord
    case Some(r) =>
      if IsRoot(r) then Uncapped
      else if !IsMember(r) then NoInvites
      else Left(r.memberVouches / bar - r.invitesUsed)
  }

  // ---------------------------------------------------------------------------
  // The transitions
  // ---------------------------------------------------------------------------

  /** The owed capture's answer, thrown for where it holds none. */
  type Owed = map<Key, int>

  /** What remains of the owner's effective karma covers the spend; only a post spends the floor. */
  ghost function SpendCheck(s: State, owed: Owed, owner: Key, outputs: seq<Box>, payload: Payload): Verdict {
    var spend := SpendOf(outputs);
    if spend == 0 then Valid
    else if owner !in owed then Defect
    else
      var remaining := KarmaHeld(s.boxes, owner) - owed[owner];
      var covered := if payload.Post? then remaining >= spend else remaining - spend >= KARMA_MINIMUM;
      if covered then Valid else Invalid
  }

  predicate KarmaOutput(b: Box) {
    b.Karma? || b.Bond? || b.KarmaPrice? || b.Vouch? || b.LikeAccrual? || b.Username?
  }

  function OwnerOf(b: Box): Key {
    match b {
      case Karma(_, _, owner, _) => owner
      case Username(_, _, owner, _) => owner
      case _ => 0
    }
  }

  /** The three rules that hold an identity to two karma boxes, and karma to its owner. */
  ghost predicate KarmaChangeOk(s: State, owner: Key, core: TxCore, bs: seq<Box>) {
    && (forall b | b in core.outputs :: KarmaOutput(b))
    && (forall b | b in bs :: OwnerOf(b) == owner)
    && CountOf(core.outputs, IsKarma) <= 1
    && (forall b | b in core.outputs && b.Karma? :: !b.income && b.value != 0 && b.owner == owner)
    && (forall id | id in s.boxes && s.boxes[id].Karma? && s.boxes[id].owner == owner && !s.boxes[id].income ::
          id in core.inputs)
  }

  predicate BurnShape(outputs: seq<Box>) {
    && CountOf(outputs, IsPrice) == 1
    && FirstOf(outputs, IsPrice).value == USERNAME_BURN_PRICE
    && CountOf(outputs, IsUsername) == 0
    && |outputs| == CountOf(outputs, IsKarma) + 1
  }

  ghost predicate ClaimShape(ctx: Ctx, s: State, owner: Key, outputs: seq<Box>) {
    && CountOf(outputs, IsUsername) == 1
    && var u := FirstOf(outputs, IsUsername);
       && u.value == 0
       && ctx.validName(u.name)
       && u.owner == owner
       && ctx.canonicalName(u.name) !in s.names
       && owner !in s.holders
       && |outputs| == CountOf(outputs, IsKarma) + 1
  }

  ghost predicate LikeShape(s: State, owner: Key, outputs: seq<Box>, target: PostId) {
    && CountOf(outputs, IsAccrual) == 1
    && |outputs| == CountOf(outputs, IsKarma) + 1
    && var marker := FirstOf(outputs, IsAccrual);
       && marker.value == LIKE_KARMA_COST
       && TopologyAuthor(s, target) == Some(marker.author)
       && marker.author != owner
  }

  ghost predicate PostShape(s: State, owner: Key, outputs: seq<Box>, author: Key, parentRefs: seq<PostId>) {
    && author == owner
    && CountOf(outputs, IsPrice) == 1
    && if parentRefs == [] then
         && CountOf(outputs, IsAccrual) == 0
         && |outputs| == CountOf(outputs, IsKarma) + 1
         && FirstOf(outputs, IsPrice).value == POST_PRICE_THREAD
       else
         && CountOf(outputs, IsAccrual) == 1
         && |outputs| == CountOf(outputs, IsKarma) + 2
         && FirstOf(outputs, IsPrice).value == POST_PRICE_REPLY - REPLY_AUTHOR_SHARE
         && FirstOf(outputs, IsAccrual).value == REPLY_AUTHOR_SHARE
         && TopologyAuthor(s, parentRefs[0]) == Some(FirstOf(outputs, IsAccrual).author)
  }

  ghost predicate WithdrawShape(s: State, owner: Key, outputs: seq<Box>, postId: PostId) {
    && CountOf(outputs, IsKarma) == 1
    && |outputs| == 1
    && TopologyAuthor(s, postId) == Some(owner)
  }

  ghost predicate VouchShape(s: State, owner: Key, outputs: seq<Box>, height: int) {
    && CountOf(outputs, IsVouch) == 1
    && CountOf(outputs, IsBond) == 0
    && var v := FirstOf(outputs, IsVouch);
       && v.value == VOUCH_KARMA_AMOUNT
       && v.voucherId == owner
       && !HoldsEscrow(s.boxes, owner)
       && owner in s.records && IsMember(s.records[owner])
       && v.targetId in s.records
       && v.targetId != owner
       && !HoldsVouch(s.boxes, owner, v.targetId)
       && v.createdAtBlock >= height - VOUCH_CAST_HEIGHT_WINDOW
  }

  ghost predicate InviteShape(ctx: Ctx, s: State, owner: Key, outputs: seq<Box>) {
    && CountOf(outputs, IsBond) == 1
    && var bond := FirstOf(outputs, IsBond);
       && ctx.inviteBondMin <= bond.value <= ctx.inviteBondMax
       && bond.inviterId == owner
       && bond.inviteePublicKey !in s.records
       && match AvailableInvites(RecordOf(s.records, owner),
          MembershipBar(s.memberCount, ctx.membershipBarMultiplier)) {
         case Uncapped => true
         case Left(n) => n >= 1
         case _ => false
       }
  }

  /** The karma arm's branch: the payload's, else the one the outputs select. */
  ghost predicate KarmaShape(ctx: Ctx, s: State, owner: Key, core: TxCore, burns: bool, height: int) {
    var outputs := core.outputs;
    if burns then core.payload.NoPayload? && BurnShape(outputs)
    else if CountOf(outputs, IsUsername) > 0 then core.payload.NoPayload? && ClaimShape(ctx, s, owner, outputs)
    else match core.payload
      case Like(target) => LikeShape(s, owner, outputs, target)
      case Post(author, parentRefs) => PostShape(s, owner, outputs, author, parentRefs)
      case PostWithdraw(postId) => WithdrawShape(s, owner, outputs, postId)
      case NoPayload =>
        if CountOf(outputs, IsPrice) > 0 then false
        else if CountOf(outputs, IsVouch) > 0 then VouchShape(s, owner, outputs, height)
        else CountOf(outputs, IsBond) > 0 ==> InviteShape(ctx, s, owner, outputs)
  }

  ghost function KarmaTransition(ctx: Ctx, s: State, owed: Owed, core: TxCore, bs: seq<Box>, height: int): Verdict
    requires bs != []
  {
    var owner := OwnerOf(bs[0]);
    var burns := CountOf(bs, IsUsername) > 0;
    if !KarmaChangeOk(s, owner, core, bs) || !KarmaShape(ctx, s, owner, core, burns, height) then Invalid
    else if !burns && CountOf(core.outputs, IsUsername) > 0 then Valid
    else SpendCheck(s, owed, owner, core.outputs, core.payload)
  }

  /** Each rented input's successor as `(owner, value)`; an input worth less than its charge has none. */
  function RentSuccessors(ctx: Ctx, ids: seq<BoxId>, bs: seq<Box>): multiset<(Key, nat)>
    requires |ids| == |bs| && forall b | b in bs :: b.Credit?
  {
    if bs == [] then multiset{}
    else
      var charge := ctx.rentCharge(ids[0], bs[0]);
      (if bs[0].value >= charge then multiset{(bs[0].owner, bs[0].value - charge)} else multiset{})
      + RentSuccessors(ctx, ids[1..], bs[1..])
  }

  function RentCharged(ctx: Ctx, ids: seq<BoxId>, bs: seq<Box>): nat
    requires |ids| == |bs|
  {
    if bs == [] then 0
    else
      var charge := ctx.rentCharge(ids[0], bs[0]);
      (if bs[0].value >= charge then charge else bs[0].value) + RentCharged(ctx, ids[1..], bs[1..])
  }

  function CreditPairs(outputs: seq<Box>): multiset<(Key, nat)> {
    if outputs == [] then multiset{}
    else
      (if outputs[0].Credit? then multiset{(outputs[0].owner, outputs[0].value)} else multiset{})
      + CreditPairs(outputs[1..])
  }

  predicate RentShape(ctx: Ctx, core: TxCore, bs: seq<Box>, height: int)
    requires |core.inputs| == |bs| && forall b | b in bs :: b.Credit?
  {
    && (forall b | b in bs :: height - b.createdAtBlock > ctx.storageRentPeriodBlocks)
    && (forall b | b in core.outputs && b.Credit? :: b.createdAtBlock == height && b.lockedUntilBlock.None?)
    && CreditPairs(core.outputs) == RentSuccessors(ctx, core.inputs, bs)
    && CountOf(core.outputs, IsFee) == 1
    && FirstOf(core.outputs, IsFee).value == RentCharged(ctx, core.inputs, bs)
  }

  predicate CreditTransition(ctx: Ctx, tx: Tx, bs: seq<Box>, height: int)
    requires |tx.core.inputs| == |bs| && forall b | b in bs :: b.Credit?
  {
    var outputs := tx.core.outputs;
    && outputs != []
    && (forall b | b in outputs :: b.Credit? || b.Fee?)
    && CountOf(outputs, IsFee) <= 1
    && (forall b | b in outputs && b.Fee? :: b.value != 0)
    && (tx.signatures == map[] ==> RentShape(ctx, tx.core, bs, height))
  }

  predicate UnvouchTransition(ctx: Ctx, core: TxCore, bs: seq<Box>)
    requires bs != [] && bs[0].Vouch?
  {
    && |bs| == 1
    && |core.outputs| == 1
    && var escrow := core.outputs[0];
       && escrow.VouchEscrow?
       && escrow.value == bs[0].value
       && escrow.owner == bs[0].voucherId
       && escrow.releaseAtBlock == bs[0].createdAtBlock + ctx.vouchCooldownBlocks
  }

  predicate UnstakeTransition(core: TxCore, bs: seq<Box>)
    requires bs != [] && bs[0].BackerStake?
  {
    var stake := bs[0];
    var outputs := core.outputs;
    && |bs| == 1
    && CountOf(outputs, IsUnstake) == 1
    && CountOf(outputs, IsStake) <= 1
    && |outputs| == CountOf(outputs, IsUnstake) + CountOf(outputs, IsStake)
    && (forall b | b in outputs ::
          match b
          case BackerUnstake(value, _, owner, weight) => value == 0 && owner == stake.owner && weight >= 1 &&
            weight * 100 >= stake.weight * BACKER_UNSTAKE_MIN_PCT
          case BackerStake(value, _, owner, weight) => value == 0 && owner == stake.owner && weight >= 1
          case _ => false)
    && SeqSum(outputs, WeightOf()) == stake.weight
  }

  function WeightOf(): Box -> int {
    (b: Box) => match b
      case BackerStake(_, _, _, weight) => weight
      case BackerUnstake(_, _, _, weight) => weight
      case _ => 0
  }

  ghost function Transition(ctx: Ctx, s: State, owed: Owed, tx: Tx, bs: seq<Box>, height: int): Verdict
    requires bs != [] && |tx.core.inputs| == |bs|
    requires InputTypesOk(bs)
  {
    var core := tx.core;
    var accrualPayload := core.payload.Like? || (core.payload.Post? && core.payload.parentRefs != []);
    if !accrualPayload && CountOf(core.outputs, IsAccrual) > 0 then Invalid
    else if core.payload.Like? && (exists b :: b in bs && !b.Karma?) then Invalid
    else if CountOf(bs, IsUsername) > 0 || bs[0].Karma? then KarmaTransition(ctx, s, owed, core, bs, height)
    else OtherTransition(ctx, tx, bs, height)
  }

  /** The arms that read nothing but the boxes: credits, vouches and stakes. */
  function OtherTransition(ctx: Ctx, tx: Tx, bs: seq<Box>, height: int): Verdict
    requires bs != [] && |tx.core.inputs| == |bs|
    requires InputTypesOk(bs) && CountOf(bs, IsUsername) == 0
  {
    if !tx.core.payload.NoPayload? then Invalid
    else match bs[0]
      case Credit(_, _, _, _) =>
        NoUsernameOneType(bs);
        if CreditTransition(ctx, tx, bs, height) then Valid else Invalid
      case Vouch(_, _, _, _) => if UnvouchTransition(ctx, tx.core, bs) then Valid else Invalid
      case BackerStake(_, _, _, _) => if UnstakeTransition(tx.core, bs) then Valid else Invalid
      case _ => Invalid
  }

  lemma {:induction false} CountedExists(bs: seq<Box>, p: Box -> bool)
    ensures CountOf(bs, p) > 0 <==> exists b :: b in bs && p(b)
  {
    if bs != [] {
      CountedExists(bs[1..], p);
      assert p(bs[0]) ==> bs[0] in bs;
      assert forall b | b in bs :: b == bs[0] || b in bs[1..];
    }
  }

  lemma NoUsernameOneType(bs: seq<Box>)
    requires bs != [] && InputTypesOk(bs)
    requires CountOf(bs, IsUsername) == 0
    ensures forall b | b in bs :: SameType(bs[0], b)
  {
  }

  // ---------------------------------------------------------------------------
  // validateTx
  // ---------------------------------------------------------------------------

  predicate HeightsInOrder(core: TxCore, bs: seq<Box>, height: int) {
    forall out | out in core.outputs ::
      out.createdAtBlock <= height && forall b | b in bs :: b.createdAtBlock <= out.createdAtBlock
  }

  predicate CreditFloorMet(ctx: Ctx, core: TxCore) {
    forall i | 0 <= i < |core.outputs| && core.outputs[i].Credit? :: core.outputs[i].value >= ctx.creditFloor(core, i)
  }

  /** Face value is conserved, one total a side and no exception. */
  predicate ValueConserved(core: TxCore, bs: seq<Box>) {
    SeqSum(bs, ValueWeight()) == SeqSum(core.outputs, ValueWeight())
  }

  /** What the resolved inputs and the outputs are held to, whatever the transition. */
  predicate BoxesFit(ctx: Ctx, tx: Tx, bs: seq<Box>, height: int)
    requires bs != []
  {
    && (forall b | b in bs :: UnlockedAt(b, height))
    && InputTypesOk(bs)
    && (forall b | b in tx.core.outputs :: UserOutputShape(b))
    && HeightsInOrder(tx.core, bs, height)
    && CreditFloorMet(ctx, tx.core)
    && ValueConserved(tx.core, bs)
    && Authorized(ctx, tx, bs, height)
  }

  /** Steps 1 to 8: everything ahead of the transitions. */
  ghost predicate WellFormed(ctx: Ctx, s: State, tx: Tx, height: int)
  {
    var core := tx.core;
    && Distinct(core.inputs)
    && core.inputs != []
    && InputsLive(s.boxes, core.inputs)
    && BoxesFit(ctx, tx, ValuesAt(s.boxes, core.inputs), height)
  }

  ghost function ValidateTx(ctx: Ctx, s: State, owed: Owed, tx: Tx, height: int): Verdict {
    if !WellFormed(ctx, s, tx, height) then Invalid
    else Transition(ctx, s, owed, tx, ValuesAt(s.boxes, tx.core.inputs), height)
  }
}
