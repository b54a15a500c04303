/** What every reachable state keeps. */
module Invariant {
  import opened Wrappers
  import opened Sums
  import opened Ledger
  import opened Engine
  import opened Coinbase
  import opened Applying

  // ---------------------------------------------------------------------------
  // Boxes
  // ---------------------------------------------------------------------------

  /** A box that lives only inside the block that creates it. */
  predicate Transient(b: Box) { b.Fee? || b.KarmaPrice? || b.BackerUnstake? }

  /** A box the settlement alone spends and replaces. */
  predicate Protocol(b: Box) { b.Emission? || b.Treasury? || b.KarmaPool? || b.BackerPool? }

  ghost predicate NoTransients(boxes: Boxes) {
    forall id | id in boxes :: !Transient(boxes[id])
  }

  /** The place a box takes, of which there is one. */
  datatype Slot = Own(owner: Key) | Paid(owner: Key) | Carry(author: Key) | Pair(voucher: Key,
      target: Key) | The(kind: nat)

  function SlotOf(b: Box): Option<Slot> {
    match b
    case Karma(_, _, owner, income) => Some(if income then Paid(owner) else Own(owner))
    case LikeAccrual(_, _, author) => Some(Carry(author))
    case Vouch(_, _, voucher, target) => Some(Pair(voucher, target))
    case Emission(_, _) => Some(The(0))
    case Treasury(_, _) => Some(The(1))
    case BackerPool(_, _, _, _) => Some(The(2))
    case KarmaPool(_, _) => Some(The(3))
    case _ => None
  }

  /** Two boxes that may never stand together. */
  predicate Rivals(a: Box, b: Box) {
    SlotOf(a).Some? && SlotOf(a) == SlotOf(b)
  }

  /**
   * One unmarked and one marked karma box an identity, one carry an author, one vouch a pair, one
   * box of each protocol type.
   */
  ghost predicate NoRivals(boxes: Boxes) {
    forall i, j | i in boxes && j in boxes && i != j :: !Rivals(boxes[i], boxes[j])
  }

  /** A carry holds less than one lot of likes. */
  predicate CarrySmall(b: Box) { b.LikeAccrual? ==> b.value < LIKES_PER_KARMA_PAYOUT }

  /** Every identity a box names in earnest has a record. */
  predicate Registered(b: Box, records: Records) {
    match b
    case Karma(_, _, owner, _) => owner in records
    case Bond(_, _, inviter, invitee) => inviter in records && invitee in records
        && records[invitee].invitedAtBlock >= 1
    case Vouch(_, _, voucher, target) =>
      voucher in records && target in records && voucher != target && records[voucher].memberSinceBlock > 0
    case LikeAccrual(_, _, author) => author in records
    case VouchEscrow(_, _, owner, _) => owner in records
    case _ => true
  }

  ghost predicate AllRegistered(boxes: Boxes, records: Records) {
    forall id | id in boxes :: Registered(boxes[id], records)
  }

  // ---------------------------------------------------------------------------
  // Records
  // ---------------------------------------------------------------------------

  predicate RecordOk(r: IdentityRecord, height: int) {
    0 <= r.memberSinceBlock <= height && r.memberBar >= 0
  }

  ghost predicate RecordsOk(records: Records, height: int) {
    forall k | k in records :: RecordOk(records[k], height)
  }

  ghost predicate AuthorsKnown(posts: map<PostId, PostRecord>, records: Records) {
    forall p | p in posts :: posts[p].author in records
  }

  // ---------------------------------------------------------------------------
  // The backer pool
  // ---------------------------------------------------------------------------

  ghost function WeightTotal(boxes: Boxes): int { MapSum(boxes, WeightOf()) }

  predicate PoolSolvent(ctx: Ctx, b: Box) {
    b.BackerPool? ==> Solvent(b.value, ctx.backerSupply, b.staked, b.accrual)
  }

  /** The pool counts every live stake and can pay what each has accrued; without one, nothing is staked. */
  ghost predicate BackerSound(ctx: Ctx, boxes: Boxes) {
    && (forall id | id in boxes && boxes[id].BackerPool? ::
       boxes[id].staked == WeightTotal(boxes) && PoolSolvent(ctx, boxes[id]))
    && (ctx.backerSupply == 0 || (forall id | id in boxes :: !boxes[id].BackerPool?) ==> WeightTotal(boxes) == 0)
  }

  // ---------------------------------------------------------------------------
  // All of it
  // ---------------------------------------------------------------------------

  ghost predicate BoxesOk(ctx: Ctx, s: State) {
    && NoTransients(s.boxes)
    && NoRivals(s.boxes)
    && (forall id | id in s.boxes :: CarrySmall(s.boxes[id]))
    && AllRegistered(s.boxes, s.records)
    && BackerSound(ctx, s.boxes)
  }

  ghost predicate StandingOk(s: State, height: int) {
    && RecordsOk(s.records, height)
    && VouchesCounted(s.boxes, s.records)
    && s.memberCount == MembersOf(s.records)
    && AuthorsKnown(s.posts, s.records)
  }

  /** After a block at `height`, with every transaction of `applied` behind it. */
  ghost predicate Inv(ctx: Ctx, s: State, height: int, applied: set<TxCore>) {
    && BoxesOk(ctx, s)
    && StandingOk(s, height)
    && Historied(s.boxes, applied)
  }
}
