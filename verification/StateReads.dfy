/** The list reads of the state before the block, as the view answers them. */
module StateReads {
  import opened Wrappers
  import opened Orders
  import opened Ledger
  import opened Coinbase
  import opened Queries

  datatype Reads = Reads(
    karmaBoxes: Key -> seq<Live>,
    likeAccrualBoxes: Key -> seq<Live>,
    vouchEscrowsFor: Key -> seq<Live>,
    vouchBoxes: (Key, Key) -> seq<Live>,
    emissionBox: Option<Live>,
    treasuryBox: Option<Live>,
    karmaPoolBox: Option<Live>,
    backerPoolBox: Option<Live>,
    bondsInvitedAt: int -> seq<Live>,
    vouchEscrowsReleasableAt: int -> seq<Live>,
    lapsedVouches: seq<Live>)

  ghost function EscrowBoxes(ctx: Ctx, boxes: Boxes, voucher: Key): seq<Live> {
    Sorted(LivesWhere(boxes, EscrowOf(voucher)), ByRank(ctx))
  }

  ghost function PairBoxes(ctx: Ctx, boxes: Boxes, voucher: Key, target: Key): seq<Live> {
    Sorted(LivesWhere(boxes, PairOf(voucher, target)), ByRank(ctx))
  }

  datatype Query =
    | KarmaBy(owner: Key)
    | AccrualsBy(author: Key)
    | EscrowsBy(voucher: Key)
    | VouchesBy(voucher: Key, target: Key)
    | ProtocolBoxes
    | BondsDue(invitedAt: int)
    | EscrowsDue(height: int)
    | Lapses

  ghost predicate Answered(ctx: Ctx, r: Reads, s: State, q: Query) {
    match q
    case KarmaBy(owner) => r.karmaBoxes(owner) == KarmaBoxes(ctx, s.boxes, owner)
    case AccrualsBy(author) => r.likeAccrualBoxes(author) == AccrualBoxes(ctx, s.boxes, author)
    case EscrowsBy(voucher) => r.vouchEscrowsFor(voucher) == EscrowBoxes(ctx, s.boxes, voucher)
    case VouchesBy(voucher, target) => r.vouchBoxes(voucher, target) == PairBoxes(ctx, s.boxes, voucher, target)
    case ProtocolBoxes =>
      && r.emissionBox == FirstLive(ctx, s.boxes, IsEmission)
      && r.treasuryBox == FirstLive(ctx, s.boxes, IsTreasury)
      && r.karmaPoolBox == FirstLive(ctx, s.boxes, IsKarmaPool)
      && r.backerPoolBox == FirstLive(ctx, s.boxes, IsBackerPool)
    case BondsDue(invitedAt) => r.bondsInvitedAt(invitedAt) == BondsInvitedAt(ctx, s, invitedAt)
    case EscrowsDue(height) => r.vouchEscrowsReleasableAt(height) == EscrowsReleasableAt(ctx, s.boxes, height)
    case Lapses => r.lapsedVouches == LapsedVouches(s)
  }

  /** Each read is its query on the state. */
  ghost predicate Answers(ctx: Ctx, r: Reads, s: State) {
    forall q :: Answered(ctx, r, s, q)
  }

  // ---------------------------------------------------------------------------
  // One read at a time
  // ---------------------------------------------------------------------------

  function KarmaRead(ctx: Ctx, r: Reads, ghost s: State, owner: Key): (ls: seq<Live>)
    requires Answers(ctx, r, s)
    ensures ls == KarmaBoxes(ctx, s.boxes, owner)
  {
    assert Answered(ctx, r, s, KarmaBy(owner));
    r.karmaBoxes(owner)
  }

  function AccrualRead(ctx: Ctx, r: Reads, ghost s: State, author: Key): (ls: seq<Live>)
    requires Answers(ctx, r, s)
    ensures ls == AccrualBoxes(ctx, s.boxes, author)
  {
    assert Answered(ctx, r, s, AccrualsBy(author));
    r.likeAccrualBoxes(author)
  }

  function EscrowRead(ctx: Ctx, r: Reads, ghost s: State, voucher: Key): (ls: seq<Live>)
    requires Answers(ctx, r, s)
    ensures ls == EscrowBoxes(ctx, s.boxes, voucher)
  {
    assert Answered(ctx, r, s, EscrowsBy(voucher));
    r.vouchEscrowsFor(voucher)
  }

  function VouchRead(ctx: Ctx, r: Reads, ghost s: State, voucher: Key, target: Key): (ls: seq<Live>)
    requires Answers(ctx, r, s)
    ensures ls == PairBoxes(ctx, s.boxes, voucher, target)
  {
    assert Answered(ctx, r, s, VouchesBy(voucher, target));
    r.vouchBoxes(voucher, target)
  }

  function BondRead(ctx: Ctx, r: Reads, ghost s: State, invitedAt: int): (ls: seq<Live>)
    requires Answers(ctx, r, s)
    ensures ls == BondsInvitedAt(ctx, s, invitedAt)
  {
    assert Answered(ctx, r, s, BondsDue(invitedAt));
    r.bondsInvitedAt(invitedAt)
  }

  function DueEscrowRead(ctx: Ctx, r: Reads, ghost s: State, height: int): (ls: seq<Live>)
    requires Answers(ctx, r, s)
    ensures ls == EscrowsReleasableAt(ctx, s.boxes, height)
  {
    assert Answered(ctx, r, s, EscrowsDue(height));
    r.vouchEscrowsReleasableAt(height)
  }

  function LapseRead(ctx: Ctx, r: Reads, ghost s: State): (ls: seq<Live>)
    requires Answers(ctx, r, s)
    ensures ls == LapsedVouches(s)
  {
    assert Answered(ctx, r, s, Lapses);
    r.lapsedVouches
  }

  lemma ProtocolReads(ctx: Ctx, r: Reads, s: State)
    requires Answers(ctx, r, s)
    ensures r.emissionBox == FirstLive(ctx, s.boxes, IsEmission) && r.treasuryBox == FirstLive(ctx, s.boxes, IsTreasury)
    ensures r.karmaPoolBox == FirstLive(ctx, s.boxes, IsKarmaPool) && r.backerPoolBox
      == FirstLive(ctx, s.boxes, IsBackerPool)
  {
    assert Answered(ctx, r, s, ProtocolBoxes);
  }
}
