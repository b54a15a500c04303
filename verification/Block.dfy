/** The block's state transition, whole. */
module Blocks {
  import opened Wrappers
  import opened Sums
  import opened Orders
  import opened Ledger
  import opened Engine
  import opened Body
  import opened Coinbase
  import opened Queries
  import opened Decay
  import opened Settlement

  /** A body: the user transactions in committed order, and the settlement, its last entry. */
  datatype Block = Block(height: nat, validator: Key, queue: seq<Tx>, settlement: Option<Tx>)

  function CoresOf(queue: seq<Tx>): (cores: seq<TxCore>)
    ensures |cores| == |queue|
    ensures forall i | 0 <= i < |queue| :: cores[i] == queue[i].core
  {
    if queue == [] then [] else [queue[0].core] + CoresOf(queue[1..])
  }

  function EntriesOf(block: Block): seq<Tx> {
    block.queue + if block.settlement.Some? then [block.settlement.value] else []
  }

  // ---------------------------------------------------------------------------
  // Posts
  // ---------------------------------------------------------------------------

  /** A post record keeps the first confirmation of its id. */
  function ConfirmPost(posts: map<PostId, PostRecord>, core: TxCore, height: nat): map<PostId, PostRecord> {
    if core.payload.Post? && PostOf(core) !in posts
    then posts[PostOf(core) := PostRecord(core.payload.author, height, true)]
    else posts
  }

  function ConfirmPosts(posts: map<PostId, PostRecord>, entries: seq<Tx>, height: nat): map<PostId, PostRecord>
    decreases |entries|
  {
    if entries == [] then posts else ConfirmPosts(ConfirmPost(posts, entries[0].core, height), entries[1..], height)
  }

  /** A withdrawal names a live post confirmed in an earlier block. */
  function ApplyWithdrawal(posts: map<PostId, PostRecord>, core: TxCore, height: nat): Option<map<PostId, PostRecord>> {
    if !core.payload.PostWithdraw? || core.payload.postId !in posts then Some(posts)
    else
      var post := posts[core.payload.postId];
      if post.height >= height || !post.live then None
      else Some(posts[core.payload.postId := post.(live := false)])
  }

  function ApplyWithdrawals(posts: map<PostId, PostRecord>, entries: seq<Tx>, height: nat): Option<map<PostId,
    PostRecord>>
    decreases |entries|
  {
    if entries == [] then Some(posts)
    else
      var next := ApplyWithdrawal(posts, entries[0].core, height);
      if next.None? then None else ApplyWithdrawals(next.value, entries[1..], height)
  }

  // ---------------------------------------------------------------------------
  // The body's own checks
  // ---------------------------------------------------------------------------

  function SignatureCount(queue: seq<Tx>): nat {
    if queue == [] then 0 else |queue[0].signatures| + SignatureCount(queue[1..])
  }

  predicate NotOverSigned(tx: Tx) { |tx.signatures| <= |tx.core.inputs| }

  predicate SignaturesVerify(ctx: Ctx, tx: Tx) {
    forall key | key in tx.signatures :: ctx.verifies(tx.core, key, tx.signatures[key])
  }

  /** Ahead of any transaction: output domains, signature counts, their cost, and the batch. */
  predicate BodyAdmitted(ctx: Ctx, block: Block) {
    && block.settlement.Some?
    && (forall tx | tx in block.queue :: forall b | b in tx.core.outputs :: UserOutputShape(b))
    && (forall b | b in block.settlement.value.core.outputs :: SettlementOutputShape(b))
    && (forall tx | tx in block.queue :: NotOverSigned(tx))
    && W_SIG * SignatureCount(block.queue) <= MAX_BLOCK_COST
    && (forall tx | tx in block.queue :: SignaturesVerify(ctx, tx))
  }

  // ---------------------------------------------------------------------------
  // The captures
  // ---------------------------------------------------------------------------

  ghost function PayeesOf(ctx: Ctx, s: State, cores: seq<TxCore>, height: nat): set<Key> {
    Payees(ctx, s, BodyListed(cores, IsAccrual), EscrowsReleasableAt(ctx, s.boxes, height), height)
  }

  ghost function CapturedOf(ctx: Ctx, s: State, cores: seq<TxCore>, height: nat): Captured
    requires ValidCtx(ctx)
  {
    Captured(
      EscrowsReleasableAt(ctx, s.boxes, height),
      LessSpent(LapsedVouches(s), InputsOf(cores)),
      FirstLive(ctx, s.boxes, IsBackerPool),
      DecayPlans(ctx, s, cores, PayeesOf(ctx, s, cores, height), height),
      InputsOf(cores))
  }

  // ---------------------------------------------------------------------------
  // The grants
  // ---------------------------------------------------------------------------

  function TargetOf(b: Box): Key {
    if b.Vouch? then b.targetId else 0
  }

  /** The lapse leg's targets, captured before the settlement applies. */
  ghost function CaptureLapses(acc: Acc, records: Records, lapsed: seq<Live>): Acc {
    var targets := set l | l in lapsed :: TargetOf(l.box);
    acc.(touched := acc.touched + targets, pre := CapturePre(acc.pre, records, targets))
  }

  function Granted(existing: Option<IdentityRecord>, conferred: bool, height: nat): IdentityRecord {
    var base := if existing.Some? then existing.value else EMPTY_IDENTITY_RECORD;
    base.(
      lastActivityBlock := if existing.Some? then existing.value.lastActivityBlock else height,
      invitedAtBlock := height,
      memberSinceBlock := if conferred then height else base.memberSinceBlock,
      memberBar := if conferred then 0 else base.memberBar)
  }

  /** A root's invitee is written a member, a member's a resident. None: the inviter holds no record. */
  function Grant(records: Records, acc: Acc, invitee: Key, height: nat): Option<(Records, Acc)>
    requires invitee in acc.invited
  {
    var inviter := acc.invited[invitee];
    if inviter !in records then None
    else
      var record := Granted(RecordOf(records, invitee), IsRoot(records[inviter]), height);
      Some((records[invitee := record], acc.(pre := acc.pre[invitee := None], touched := acc.touched + {invitee})))
  }

  function GrantEach(records: Records, acc: Acc, invitees: seq<Key>, height: nat): Option<(Records, Acc)>
    requires forall k | k in invitees :: k in acc.invited
    decreases |invitees|
  {
    if invitees == [] then Some((records, acc))
    else
      var next := Grant(records, acc, invitees[0], height);
      if next.None? then None else GrantEach(next.value.0, next.value.1, invitees[1..], height)
  }

  ghost function GrantAll(records: Records, acc: Acc, height: nat): Option<(Records, Acc)> {
    AscendingLists(acc.invited.Keys);
    assert forall k | k in Ascending(acc.invited.Keys) :: k in Members(Ascending(acc.invited.Keys));
    GrantEach(records, acc, Ascending(acc.invited.Keys), height)
  }

  // ---------------------------------------------------------------------------
  // The like counters
  // ---------------------------------------------------------------------------

  function CountAt(counts: map<Key, nat>, k: Key): nat {
    if k in counts then counts[k] else 0
  }

  function CreditLikes(records: Records, acc: Acc, author: Key): Records {
    var base := RecordOrEmpty(records, author);
    records[author := base.(
      lifetimeLikesReceived := base.lifetimeLikesReceived + CountAt(acc.likes, author),
      memberLikes := base.memberLikes + CountAt(acc.memberLikes, author))]
  }

  function CreditEach(records: Records, acc: Acc, authors: seq<Key>): Records
    decreases |authors|
  {
    if authors == [] then records else CreditEach(CreditLikes(records, acc, authors[0]), acc, authors[1..])
  }

  ghost function CreditAll(records: Records, acc: Acc): Records {
    CreditEach(records, acc, Ascending(acc.likes.Keys))
  }

  // ---------------------------------------------------------------------------
  // The membership pass
  // ---------------------------------------------------------------------------

  /** The bars of the pre-body count. */
  datatype Bars = Bars(vouches: nat, likes: nat)

  function BarsOf(ctx: Ctx, memberCount: int): Bars {
    Bars(MembershipBar(memberCount, ctx.membershipBarMultiplier),
        MemberLikesBar(memberCount, ctx.membershipBarMultiplier))
  }

  /** The record the pass compares with: the captured one, or the current where none was captured. */
  function PreRecord(pre: map<Key, Option<IdentityRecord>>, records: Records, id: Key): Option<IdentityRecord> {
    if id in pre then pre[id] else RecordOf(records, id)
  }

  /** One identity: set, lapsed, re-qualified or conferred. */
  function PassOne(records: Records, count: int, pre: map<Key, Option<IdentityRecord>>, bars: Bars, id: Key,
    height: nat)
    : (Records, int)
  {
    if id !in records then (records, count)
    else
      var before := PreRecord(pre, records, id);
      var current := records[id];
      var wasMember := before.Some? && IsMember(before.value);
      if current.memberSinceBlock == 0 && current.memberVouches >= bars.vouches
          && current.memberLikes >= bars.likes then
        (records[id := current.(memberSinceBlock := height, memberBar := bars.vouches)], count + 1)
      else if current.memberSinceBlock > 0 && current.memberBar > 0 then
        var isNow := current.memberVouches >= current.memberBar;
        (records, if wasMember && !isNow then count - 1 else if !wasMember && isNow then count + 1 else count)
      else if current.memberSinceBlock > 0 && current.memberBar == 0 && !wasMember then (records, count + 1)
      else (records, count)
  }

  function PassEach(
    records: Records, count: int, pre: map<Key, Option<IdentityRecord>>, bars: Bars, ids: seq<Key>, height: nat)
    : (Records, int)
    decreases |ids|
  {
    if ids == [] then (records, count)
    else
      var next := PassOne(records, count, pre, bars, ids[0], height);
      PassEach(next.0, next.1, pre, bars, ids[1..], height)
  }

  ghost function MembershipPass(ctx: Ctx, records: Records, memberCount: int, acc: Acc, height: nat): (Records, int) {
    PassEach(records, memberCount, acc.pre, BarsOf(ctx, memberCount), Ascending(acc.touched + acc.memberLikes.Keys),
        height)
  }

  // ---------------------------------------------------------------------------
  // The block
  // ---------------------------------------------------------------------------

  ghost function ActorCount(acc: Acc, validator: Key): nat {
    |Actors(acc.applied, validator)|
  }

  /** The records, after the settlement's boxes: the grants, the counters, the pass and the clocks. */
  ghost function CloseBlock(ctx: Ctx, s: State, acc: Acc, plans: seq<Plan>, height: nat): Outcome<State> {
    var granted := GrantAll(s.records, acc, height);
    if granted.None? then Thrown
    else
      var credited := CreditAll(granted.value.0, granted.value.1);
      var passed := MembershipPass(ctx, credited, s.memberCount, granted.value.1, height);
      Done(s.(records := CommitClocks(passed.0, plans), memberCount := passed.1))
  }

  /** The settlement: checked against the body, applied, and the records closed over it. */
  ghost function SettleBlock(ctx: Ctx, s: State, acc: Acc, cap: Captured, block: Block): Outcome<State>
    requires ValidCtx(ctx) && block.settlement.Some?
  {
    var body := BodyOf(CoresOf(block.queue), acc.rent, ActorCount(acc, block.validator));
    var core := block.settlement.value.core;
    if !CheckSettlement(ctx, s, cap, block.height, body, block.settlement.value) then Rejected
    else
      var captured := CaptureLapses(acc, s.records, cap.lapsed);
      var applied := ApplyTx(s, acc.taken, core);
      if applied.None? then Thrown else CloseBlock(ctx, applied.value, captured, cap.plans, block.height)
  }

  ghost function ApplyBlock(ctx: Ctx, s: State, block: Block): Outcome<State>
    requires ValidCtx(ctx)
  {
    var confirmed := s.(posts := ConfirmPosts(s.posts, EntriesOf(block), block.height));
    var cores := CoresOf(block.queue);
    if !BodyAdmitted(ctx, block) then Rejected
    else
      var cap := CapturedOf(ctx, confirmed, cores, block.height);
      var owed := OwedBefore(ctx, confirmed, cores, PayeesOf(ctx, confirmed, cores, block.height), block.height);
      match ApplyQueue(ctx, confirmed, owed, block.queue, block.height, EmptyAcc(confirmed))
      case Rejected => Rejected
      case Thrown => Thrown
      case Done(body) =>
        var withdrawn := ApplyWithdrawals(body.0.posts, EntriesOf(block), block.height);
        if withdrawn.None? then Rejected
        else SettleBlock(ctx, body.0.(posts := withdrawn.value), body.1, cap, block)
  }
}
