/**
 * The committed state: boxes, identity records, the network record, names,
 * posts and likes. Ids are collision-free digests, so each is modelled as what
 * it digests: a transaction id is the transaction's hashed part, a box id its
 * creating transaction and output index, a post id its transaction.
 */
module Ledger {
  import opened Wrappers
  import opened Sums

  /** A 32-byte key read big-endian, so ascending hex is numeric order. */
  type Key = nat

  type Signature = nat

  datatype PostId = UnknownPost(n: nat) | PostOf(creator: TxCore)

  datatype BoxId = Seed(n: nat) | Out(creator: TxCore, index: nat)

  /** At most one payload field a transaction. */
  datatype Payload = NoPayload | Like(target: PostId) | Post(author: Key,
      parentRefs: seq<PostId>) | PostWithdraw(postId: PostId)

  /** What a transaction id hashes: everything but the signatures. */
  datatype TxCore = TxCore(inputs: seq<BoxId>, outputs: seq<Box>, payload: Payload)

  datatype Tx = Tx(core: TxCore, signatures: map<Key, Signature>)

  datatype Box =
    | Karma(value: nat, createdAtBlock: nat, owner: Key, income: bool)
    | Credit(value: nat, createdAtBlock: nat, owner: Key, lockedUntilBlock: Option<nat>)
    | Bond(value: nat, createdAtBlock: nat, inviterId: Key, inviteePublicKey: Key)
    | KarmaPrice(value: nat, createdAtBlock: nat)
    | Vouch(value: nat, createdAtBlock: nat, voucherId: Key, targetId: Key)
    | Fee(value: nat, createdAtBlock: nat)
    | LikeAccrual(value: nat, createdAtBlock: nat, author: Key)
    | VouchEscrow(value: nat, createdAtBlock: nat, owner: Key, releaseAtBlock: nat)
    | Emission(value: nat, createdAtBlock: nat)
    | Treasury(value: nat, createdAtBlock: nat)
    | KarmaPool(value: nat, createdAtBlock: nat)
    | Username(value: nat, createdAtBlock: nat, owner: Key, name: string)
    | BackerStake(value: nat, createdAtBlock: nat, owner: Key, weight: nat)
    | BackerUnstake(value: nat, createdAtBlock: nat, owner: Key, weight: nat)
    | BackerPool(value: nat, createdAtBlock: nat, staked: nat, accrual: nat)
    | GenesisProof(value: nat, createdAtBlock: nat)

  type Boxes = map<BoxId, Box>

  datatype IdentityRecord = IdentityRecord(
    lastActivityBlock: int,
    lastDecayBlock: int,
    invitedAtBlock: int,
    lifetimeLikesReceived: nat,
    memberSinceBlock: int,
    memberBar: int,
    memberVouches: int,
    memberLikes: nat,
    invitesUsed: nat)

  const EMPTY_IDENTITY_RECORD := IdentityRecord(0, 0, 0, 0, 0, 0, 0, 0, 0)

  type Records = map<Key, IdentityRecord>

  datatype UsernameRow = UsernameRow(nameLower: string, name: string, owner: Key, boxId: BoxId, claimedAtBlock: int)

  datatype PostRecord = PostRecord(author: Key, height: int, live: bool)

  datatype State = State(
    boxes: Boxes,
    records: Records,
    memberCount: int,
    names: map<string, UsernameRow>,
    holders: map<Key, UsernameRow>,
    posts: map<PostId, PostRecord>,
    likes: set<(PostId, Key)>)

  // ---------------------------------------------------------------------------
  // Protocol constants
  // ---------------------------------------------------------------------------

  const KARMA_MINIMUM: nat := 10
  const KARMA_DECAY_AMOUNT: nat := 5
  const POST_PRICE_THREAD: nat := 5
  const POST_PRICE_REPLY: nat := 3
  const REPLY_AUTHOR_SHARE: nat := 1
  const USERNAME_BURN_PRICE: nat := 10
  const LIKE_KARMA_COST: nat := 1
  const LIKES_PER_KARMA_PAYOUT: nat := 5
  const INVITE_BOND_VEST_PER_LIKES: nat := 3
  const MEMBER_LIKES_MULTIPLIER: nat := 2
  const VOUCH_KARMA_AMOUNT: nat := 1
  const VOUCH_CAST_HEIGHT_WINDOW: nat := 5
  const BACKER_UNSTAKE_MIN_PCT: nat := 1
  const COINBASE_TREASURY_PCT: nat := 5
  const COINBASE_BACKER_PCT: nat := 35
  const COINBASE_BONUS_PCT: nat := 25
  const INCLUSION_BONUS_K: nat := 5
  const CREDIT_INITIAL_REWARD: nat := 4_200_000_000
  const CREDIT_REWARD_REDUCTION: nat := 100_000_000
  const MAX_BOND_SETTLEMENTS_PER_BLOCK: nat := 64
  const MAX_ESCROW_RETURNS_PER_BLOCK: nat := 64
  const MAX_LAPSE_WITHDRAWALS_PER_BLOCK: nat := 64
  const BOX_VALUE_BOUND: nat := 0x8000_0000_0000_0000
  const W_SIG: nat := 100
  const MAX_BLOCK_COST: nat := 600_000

  /**
   * The network profile, and the oracles: the signature check, the record length's
   * two charges, the name rules, and the numeric order of box ids.
   */
  datatype Ctx = Ctx(
    vouchCooldownBlocks: nat,
    inviteBondMin: nat,
    inviteBondMax: nat,
    inviteProbationBlocks: nat,
    staleThresholdBlocks: nat,
    decayIntervalBlocks: nat,
    storageRentPeriodBlocks: nat,
    membershipBarMultiplier: nat,
    backerSupply: nat,
    creditFixedRateBlocks: nat,
    creditEpochBlocks: nat,
    creditMinerRewardDelay: nat,
    verifies: (TxCore, Key, Signature) -> bool,
    rentCharge: (BoxId, Box) -> nat,
    creditFloor: (TxCore, nat) -> nat,
    canonicalName: string -> string,
    validName: string -> bool,
    rank: BoxId -> nat)

  predicate ValidCtx(ctx: Ctx) {
    ctx.decayIntervalBlocks >= 1 && ctx.creditEpochBlocks >= 1
  }

  // ---------------------------------------------------------------------------
  // Standing
  // ---------------------------------------------------------------------------

  predicate IsMember(r: IdentityRecord) {
    r.memberSinceBlock > 0 && r.memberVouches >= r.memberBar
  }

  predicate IsRoot(r: IdentityRecord) {
    r.memberSinceBlock > 0 && r.memberBar == 0 && r.invitedAtBlock == 0
  }

  /** A member whose record fails membership. */
  predicate IsLapsedMember(r: IdentityRecord) {
    r.memberSinceBlock > 0 && !IsMember(r)
  }

  predicate IsVouchCounted(voucher: IdentityRecord, target: IdentityRecord) {
    target.memberSinceBlock == 0 || voucher.memberSinceBlock < target.memberSinceBlock
  }

  function RecordOf(records: Records, id: Key): Option<IdentityRecord> {
    if id in records then Some(records[id]) else None
  }

  function RecordOrEmpty(records: Records, id: Key): IdentityRecord {
    if id in records then records[id] else EMPTY_IDENTITY_RECORD
  }

  /** The greatest `r` up to `hi` with `r * r * r <= n`. */
  function CubeRootUpTo(n: nat, hi: nat): (r: nat)
    ensures r * r * r <= n
    ensures forall q: nat | r < q <= hi :: q * q * q > n
  {
    if hi * hi * hi <= n then hi else CubeRootUpTo(n, hi - 1)
  }

  /** The vouches a newcomer must hold. */
  function MembershipBar(memberCount: int, multiplier: nat): (bar: nat)
    ensures bar >= 1
  {
    if memberCount < 0 then 1
    else
      var root := CubeRootUpTo(memberCount * multiplier, memberCount * multiplier);
      if root > 1 then root else 1
  }

  function MemberLikesBar(memberCount: int, multiplier: nat): nat {
    MEMBER_LIKES_MULTIPLIER * MembershipBar(memberCount, multiplier)
  }

  // ---------------------------------------------------------------------------
  // Families
  // ---------------------------------------------------------------------------

  /** The boxes whose value is karma: a username carries none, and is karma's to burn. */
  predicate KarmaSide(b: Box) {
    || b.Karma? || b.Bond? || b.KarmaPrice? || b.Vouch? || b.LikeAccrual? || b.VouchEscrow? || b.KarmaPool?
        || b.Username?
  }

  predicate CreditSide(b: Box) {
    || b.Credit? || b.Fee? || b.Emission? || b.Treasury? || b.BackerStake? || b.BackerUnstake? || b.BackerPool?
  }

  ghost function KarmaWeight(): Box -> int {
    (b: Box) => if KarmaSide(b) then b.value else 0
  }

  ghost function CreditWeight(): Box -> int {
    (b: Box) => if CreditSide(b) then b.value else 0
  }

  ghost function KarmaTotal(boxes: Boxes): int { MapSum(boxes, KarmaWeight()) }

  ghost function CreditTotal(boxes: Boxes): int { MapSum(boxes, CreditWeight()) }

  /** What an owner's live karma boxes hold. */
  ghost function HeldWeight(owner: Key): Box -> int {
    (b: Box) => if b.Karma? && b.owner == owner then b.value else 0
  }

  ghost function KarmaHeld(boxes: Boxes, owner: Key): int { MapSum(boxes, HeldWeight(owner)) }

  /** Live vouches that count toward `target`. */
  ghost function VouchWeight(records: Records, target: Key): Box -> int {
    (b: Box) =>
      if b.Vouch? && b.targetId == target && b.voucherId in records && target in records &&
        IsVouchCounted(records[b.voucherId], records[target])
      then 1 else 0
  }

  ghost function CountedVouches(boxes: Boxes, records: Records, target: Key): int {
    MapSum(boxes, VouchWeight(records, target))
  }

  ghost function MemberWeight(): IdentityRecord -> int {
    (r: IdentityRecord) => if IsMember(r) then 1 else 0
  }

  ghost function MembersOf(records: Records): int { MapSum(records, MemberWeight()) }
}
