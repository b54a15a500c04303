/** The state's queries, each in its stated order. */
module Queries {
  import opened Wrappers
  import opened Sums
  import opened Orders
  import opened Ledger
  import opened Coinbase

  type LiveKey = Live -> (int, int)

  function LivesWhere(boxes: Boxes, p: Box -> bool): set<Live> {
    set id | id in boxes && p(boxes[id]) :: Live(id, boxes[id])
  }

  function KeyPair(major: int, minor: int): (int, int) { (major, minor) }

  function ByRank(ctx: Ctx): LiveKey { (l: Live) => (0, ctx.rank(l.id)) }

  function ByValue(ctx: Ctx): LiveKey { (l: Live) => KeyPair(-(l.box.value as int), ctx.rank(l.id)) }

  function ByRelease(ctx: Ctx): LiveKey {
    (l: Live) => (if l.box.VouchEscrow? then l.box.releaseAtBlock else 0, ctx.rank(l.id))
  }

  function ByPair(): LiveKey {
    (l: Live) => if l.box.Vouch? then (l.box.voucherId, l.box.targetId) else (0, 0)
  }

  function Ids(ls: seq<Live>): (ids: seq<BoxId>)
    ensures |ids| == |ls|
    ensures forall i | 0 <= i < |ls| :: ids[i] == ls[i].id
  {
    if ls == [] then [] else [ls[0].id] + Ids(ls[1..])
  }

  function IdSet(ls: seq<Live>): set<BoxId> { set l | l in ls :: l.id }

  /** The first not among `exclude`. */
  function FirstNotIn(ls: seq<Live>, exclude: set<BoxId>): (first: Option<Live>)
    ensures first.Some? ==> first.value in ls && first.value.id !in exclude
    ensures first.None? ==> forall l | l in ls :: l.id in exclude
  {
    if ls == [] then None else if ls[0].id in exclude then FirstNotIn(ls[1..], exclude) else Some(ls[0])
  }

  function LessSpent(ls: seq<Live>, spent: set<BoxId>): (kept: seq<Live>)
    ensures forall l :: l in kept <==> l in ls && l.id !in spent
  {
    if ls == [] then []
    else if ls[0].id in spent then LessSpent(ls[1..], spent)
    else [ls[0]] + LessSpent(ls[1..], spent)
  }

  // ---------------------------------------------------------------------------
  // The types' own boxes
  // ---------------------------------------------------------------------------

  predicate IsEmission(b: Box) { b.Emission? }
  predicate IsTreasury(b: Box) { b.Treasury? }
  predicate IsKarmaPool(b: Box) { b.KarmaPool? }
  predicate IsBackerPool(b: Box) { b.BackerPool? }

  ghost function FirstLive(ctx: Ctx, boxes: Boxes, p: Box -> bool): Option<Live> {
    var ls := Sorted(LivesWhere(boxes, p), ByRank(ctx));
    if ls == [] then None else Some(ls[0])
  }

  // ---------------------------------------------------------------------------
  // An identity's boxes
  // ---------------------------------------------------------------------------

  function KarmaOf(owner: Key): Box -> bool { (b: Box) => b.Karma? && b.owner == owner }

  function AccrualOf(author: Key): Box -> bool { (b: Box) => b.LikeAccrual? && b.author == author }

  function EscrowOf(owner: Key): Box -> bool { (b: Box) => b.VouchEscrow? && b.owner == owner }

  function PairOf(voucher: Key, target: Key): Box -> bool {
    (b: Box) => b.Vouch? && b.voucherId == voucher && b.targetId == target
  }

  ghost function KarmaBoxes(ctx: Ctx, boxes: Boxes, owner: Key): seq<Live> {
    Sorted(LivesWhere(boxes, KarmaOf(owner)), ByValue(ctx))
  }

  ghost function AccrualBoxes(ctx: Ctx, boxes: Boxes, author: Key): seq<Live> {
    Sorted(LivesWhere(boxes, AccrualOf(author)), ByRank(ctx))
  }

  // ---------------------------------------------------------------------------
  // The due queues
  // ---------------------------------------------------------------------------

  /** A bond beside its invitee's grant height. */
  datatype Due = Due(bond: Live, invitedAt: int)

  predicate InvitedBy(records: Records, b: Box, maxInvitedAt: int) {
    b.Bond? && b.inviteePublicKey in records && 0 < records[b.inviteePublicKey].invitedAtBlock <= maxInvitedAt
  }

  ghost function DueBonds(s: State, maxInvitedAt: int): set<Due> {
    set id | id in s.boxes && InvitedBy(s.records, s.boxes[id], maxInvitedAt) ::
      Due(Live(id, s.boxes[id]), s.records[s.boxes[id].inviteePublicKey].invitedAtBlock)
  }

  function BondsOf(dues: seq<Due>): (ls: seq<Live>)
    ensures |ls| == |dues|
    ensures forall i | 0 <= i < |ls| :: ls[i] == dues[i].bond
  {
    if dues == [] then [] else [dues[0].bond] + BondsOf(dues[1..])
  }

  function ByGrant(ctx: Ctx): Due -> (int, int) { (d: Due) => (d.invitedAt, ctx.rank(d.bond.id)) }

  ghost function BondsInvitedAt(ctx: Ctx, s: State, maxInvitedAt: int): seq<Live> {
    BondsOf(Take(Sorted(DueBonds(s, maxInvitedAt), ByGrant(ctx)), MAX_BOND_SETTLEMENTS_PER_BLOCK))
  }

  /** The grant height whose bonds come due at `height`. */
  function WindowStart(ctx: Ctx, height: int): int { height - ctx.inviteProbationBlocks }

  /** Height zero is every identity never invited, so the first window settles none. */
  ghost function BondsSettlingAt(ctx: Ctx, s: State, height: int): seq<Live> {
    if WindowStart(ctx, height) <= 0 then [] else BondsInvitedAt(ctx, s, WindowStart(ctx, height))
  }

  function ReleasableBy(height: int): Box -> bool { (b: Box) => b.VouchEscrow? && b.releaseAtBlock <= height }

  ghost function EscrowsReleasableAt(ctx: Ctx, boxes: Boxes, height: int): seq<Live> {
    Take(Sorted(LivesWhere(boxes, ReleasableBy(height)), ByRelease(ctx)), MAX_ESCROW_RETURNS_PER_BLOCK)
  }

  function LapsedIn(records: Records): Box -> bool {
    (b: Box) => b.Vouch? && b.voucherId in records && IsLapsedMember(records[b.voucherId])
  }

  ghost function LapsedVouches(s: State): seq<Live> {
    Take(Sorted(LivesWhere(s.boxes, LapsedIn(s.records)), ByPair()), MAX_LAPSE_WITHDRAWALS_PER_BLOCK)
  }

  // ---------------------------------------------------------------------------
  // What the lists hold
  // ---------------------------------------------------------------------------

  /** Each listed box is live under its own id, and no id is listed twice. */
  ghost predicate LiveList(boxes: Boxes, ls: seq<Live>) {
    && (forall l | l in ls :: l.id in boxes && boxes[l.id] == l.box)
    && Distinct(Ids(ls))
  }

  lemma DistinctIds(boxes: Boxes, ls: seq<Live>)
    requires Distinct(ls) && forall l | l in ls :: l.id in boxes && boxes[l.id] == l.box
    ensures LiveList(boxes, ls)
  {
    forall i, j | 0 <= i < j < |ls| ensures Ids(ls)[i] != Ids(ls)[j] {
      assert ls[i] in ls && ls[j] in ls && ls[i] != ls[j];
    }
  }

  lemma SortedLives(boxes: Boxes, p: Box -> bool, key: LiveKey)
    ensures var ls := Sorted(LivesWhere(boxes, p), key);
      && LiveList(boxes, ls)
      && forall l :: l in ls <==> l.id in boxes && boxes[l.id] == l.box && p(l.box)
  {
    var ls := Sorted(LivesWhere(boxes, p), key);
    SortedLists(LivesWhere(boxes, p), key);
    forall l ensures l in ls <==> l.id in boxes && boxes[l.id] == l.box && p(l.box) {
      assert l in ls <==> l in Members(ls);
    }
    DistinctIds(boxes, ls);
  }

  lemma TakenLives(boxes: Boxes, ls: seq<Live>, limit: nat)
    requires LiveList(boxes, ls)
    ensures LiveList(boxes, Take(ls, limit))
  {
  }

  lemma BondsAreLive(ctx: Ctx, s: State, maxInvitedAt: int)
    ensures var ls := BondsInvitedAt(ctx, s, maxInvitedAt);
      LiveList(s.boxes, ls) && forall l | l in ls :: InvitedBy(s.records, l.box, maxInvitedAt)
  {
    var dues := Sorted(DueBonds(s, maxInvitedAt), ByGrant(ctx));
    SortedLists(DueBonds(s, maxInvitedAt), ByGrant(ctx));
    forall d | d in dues ensures d in DueBonds(s, maxInvitedAt) {
      assert d in Members(dues);
    }
    var taken := Take(dues, MAX_BOND_SETTLEMENTS_PER_BLOCK);
    var ls := BondsOf(taken);
    forall l | l in ls
      ensures l.id in s.boxes && s.boxes[l.id] == l.box && InvitedBy(s.records, l.box, maxInvitedAt)
    {
      var i :| 0 <= i < |ls| && ls[i] == l;
      assert taken[i] in taken;
    }
    forall i, j | 0 <= i < j < |ls| ensures ls[i] != ls[j] {
      assert taken[i] != taken[j] && taken[i] in taken && taken[j] in taken;
    }
    DistinctIds(s.boxes, ls);
  }
}
