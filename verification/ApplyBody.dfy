/** A body's user transactions over the overlay, in committed order. */
module ApplyBody {
  import opened Wrappers
  import opened Sums
  import opened Orders
  import opened Sorting
  import opened Ledger
  import opened Engine
  import opened Body
  import opened Coinbase
  import opened Queries
  import opened StateReads
  import opened Overlays
  import opened ApplyOver
  import opened ValidateOver

  // ---------------------------------------------------------------------------
  // What the loop notes
  // ---------------------------------------------------------------------------

  function CaptureOver(state: BlockOverlay, pre: map<Key, Option<IdentityRecord>>, targets: set<Key>)
    : (captured: map<Key, Option<IdentityRecord>>)
    reads state
    ensures captured == CapturePre(pre, state.Now().records, targets)
  {
    pre + map t | t in targets && t !in pre :: state.GetIdentityRecord(t)
  }

  method NoteTx(state: BlockOverlay, acc: Acc, tx: Tx, bs: seq<Box>) returns (after: Acc)
    requires bs != []
    ensures after == AccBefore(acc, state.Now(), tx, bs)
  {
    var core := tx.core;
    var targets := VouchTargets(bs, core.outputs);
    var invited := acc.invited;
    if CountOf(core.outputs, IsBond) > 0 {
      var bond := FirstOf(core.outputs, IsBond);
      invited := invited[bond.inviteePublicKey := bond.inviterId];
    }
    var rent := if IsCreditSideTx(core) && tx.signatures == map[] then acc.rent + {core} else acc.rent;
    after := acc.(
      taken := acc.taken + OutputIds(core),
      invited := invited,
      touched := acc.touched + targets,
      pre := CaptureOver(state, acc.pre, targets),
      rent := rent,
      applied := acc.applied + [(tx, bs[0])]);
  }

  // ---------------------------------------------------------------------------
  // What follows a transaction's boxes
  // ---------------------------------------------------------------------------

  /** A claim's records put, a burn's removed. */
  method NameRecords(state: BlockOverlay, core: TxCore, bs: seq<Box>, height: int)
    requires state.Valid()
    modifies state`names, state`holders, state`mutations
    ensures state.Valid() && state.Kept()
    ensures state.Now() == ApplyNames(state.ctx, old(state.Now()), core, bs, height)
  {
    if CountOf(core.outputs, IsUsername) > 0 {
      var i := UsernameIndex(core.outputs);
      var u := core.outputs[i];
      state.PutUsernameRow(UsernameRow(state.ctx.canonicalName(u.name), u.name, u.owner, Out(core, i), height));
    }
    if CountOf(bs, IsUsername) > 0 {
      state.DeleteUsernameRow(state.ctx.canonicalName(FirstOf(bs, IsUsername).name));
    }
  }

  ghost predicate LikesListed(held: set<(PostId, Key)>, likes: set<(PostId, Key)>, records: seq<(PostId, Key)>) {
    Distinct(records) && (forall like | like in records :: like !in held) && likes == Members(records)
  }

  /** The like records the block made: each once, none before it, and nothing else liked. */
  ghost predicate LikesNoted(state: BlockOverlay)
    reads state
  {
    LikesListed(state.view.likes, state.likes, state.likeRecords)
  }

  method NoteLike(state: BlockOverlay, acc: Acc, target: PostId, liker: Key) returns (after: Acc)
    requires state.Valid() && target in state.Now().posts
    modifies state`likes, state`likeRecords
    ensures state.Valid() && state.withdrawals == old(state.withdrawals) && state.BoxWritesKept()
    ensures state.Now() == old(state.Now()).(likes := old(state.Now()).likes + {(target, liker)})
    ensures after == CountLike(acc, old(state.Now()).posts[target].author, RecordOf(old(state.Now()).records, liker))
    ensures old(LikesNoted(state)) && (target, liker) !in old(state.Now()).likes ==> LikesNoted(state)
  {
    var author := state.GetTopologyAuthor(target);
    var record := state.GetIdentityRecord(liker);
    state.InsertLikeRecord(target, liker);
    after := CountLike(acc, author.value, record);
    if old(LikesNoted(state)) && (target, liker) !in old(state.Now()).likes {
      DistinctSnoc(old(state.likeRecords), (target, liker));
    }
  }

  /** The activity clock, the like record and the names. */
  method FollowBoxes(state: BlockOverlay, acc: Acc, core: TxCore, bs: seq<Box>, height: int) returns (after: Acc)
    requires state.Valid() && bs != []
    requires core.payload.Like? ==>
      core.payload.target in state.Now().posts && (core.payload.target, OwnerOf(bs[0])) !in state.Now().likes
    modifies state`records, state`mutations, state`likes, state`likeRecords, state`names, state`holders
    ensures state.Valid() && state.withdrawals == old(state.withdrawals)
    ensures (state.Now(), after) == Settle(state.ctx, old(state.Now()), acc, core, bs, height)
    ensures old(LikesNoted(state)) ==> LikesNoted(state)
  {
    var owner := OwnerOf(bs[0]);
    after := acc;
    if core.payload.Post? {
      AdvanceActivityClock(state, owner, height);
    }
    if core.payload.Like? {
      after := NoteLike(state, acc, core.payload.target, owner);
    }
    NameRecords(state, core, bs, height);
  }

  // ---------------------------------------------------------------------------
  // applyQueuedTx
  // ---------------------------------------------------------------------------

  predicate LikeGoes(state: BlockOverlay, payload: Payload, liker: Key)
    reads state
    ensures LikeGoes(state, payload, liker) <==> LikeApplies(state.Now(), payload, liker)
  {
    payload.Like? ==> state.GetPostStanding(payload.target).LivePost? && !state.HasLikeRecord(payload.target, liker)
  }

  /** The boxes of a validated transaction, and what follows them. None: a defect. */
  method ApplyValid(state: BlockOverlay, tx: Tx, height: int, acc: Acc, bs: seq<Box>) returns (after: Option<Acc>)
    requires state.Valid() && bs != [] && acc.taken == state.Taken()
    requires LikeApplies(state.Now(), tx.core.payload, OwnerOf(bs[0]))
    modifies state`records, state`mutations, state`inserted, state`spent, state`likes, state`likeRecords, state`names,
      state`holders
    ensures state.Valid() && state.withdrawals == old(state.withdrawals)
    ensures after.Some? <==> ApplyTx(old(state.Now()), acc.taken, tx.core).Some?
    ensures after.Some? ==>
      && (tx.core.payload.Like? ==> tx.core.payload.target in ApplyTx(old(state.Now()), acc.taken, tx.core).value.posts)
      && (state.Now(), after.value) ==
        Settle(state.ctx, ApplyTx(old(state.Now()), acc.taken, tx.core).value,
            AccBefore(acc, old(state.Now()), tx, bs), tx.core, bs, height)
      && after.value.taken == state.Taken()
    ensures after.Some? && old(OwnOutputs(state)) ==> OwnOutputs(state)
    ensures after.Some? && old(LikesNoted(state)) ==> LikesNoted(state)
  {
    var noted := NoteTx(state, acc, tx, bs);
    AppliedKeepsPosts(state.Now(), acc.taken, tx.core);
    var ok := ApplyTransaction(state, tx.core);
    if !ok {
      return None;
    }
    var followed := FollowBoxes(state, noted, tx.core, bs, height);
    after := Some(followed);
  }

  /** What a queued transaction comes to over the overlay is what it comes to over the state. */
  ghost predicate CameTo(out: Outcome<Acc>, now: State, spec: Outcome<(State, Acc)>) {
    match spec
    case Done(next) => out == Done(next.1) && now == next.0
    case Rejected => out.Rejected?
    case Thrown => out.Thrown?
  }

  /** A transaction validation accepts: refused for its like or its invitee, or applied. */
  method ApplyVetted(state: BlockOverlay, ghost owed: Owed, tx: Tx, height: int, acc: Acc,
    bs: seq<Box>) returns (out: Outcome<Acc>)
    requires state.Valid() && acc.taken == state.Taken()
    requires InputsLive(state.Now().boxes, tx.core.inputs) && bs == ValuesAt(state.Now().boxes, tx.core.inputs)
    requires ValidateTx(state.ctx, state.Now(), owed, tx, height).Valid?
    modifies state`records, state`mutations, state`inserted, state`spent, state`likes, state`likeRecords, state`names,
      state`holders
    ensures state.Valid() && state.withdrawals == old(state.withdrawals)
    ensures CameTo(out, state.Now(), ApplyQueuedTx(state.ctx, old(state.Now()), owed, tx, height, acc))
    ensures out.Rejected? ==> state.Now() == old(state.Now())
    ensures out.Done? ==> out.value.taken == state.Taken()
    ensures out.Done? && old(OwnOutputs(state)) ==> OwnOutputs(state)
    ensures out.Done? && old(LikesNoted(state)) ==> LikesNoted(state)
  {
    ghost var before := state.Now();
    ValidHasInputs(state.ctx, before, owed, tx, height);
    if !LikeGoes(state, tx.core.payload, OwnerOf(bs[0])) || !InviteeIsNew(acc, tx.core.outputs) {
      VettedRejected(state.ctx, before, owed, tx, height, acc);
      return Rejected;
    }
    var after := ApplyValid(state, tx, height, acc, bs);
    VettedApplies(state.ctx, before, owed, tx, height, acc);
    out := if after.Some? then Done(after.value) else Thrown;
  }

  lemma ValidHasInputs(ctx: Ctx, s: State, owed: Owed, tx: Tx, height: int)
    requires ValidateTx(ctx, s, owed, tx, height).Valid?
    ensures tx.core.inputs != []
  {
  }

  lemma VettedRejected(ctx: Ctx, s: State, owed: Owed, tx: Tx, height: int, acc: Acc)
    requires InputsLive(s.boxes, tx.core.inputs) && tx.core.inputs != []
    requires ValidateTx(ctx, s, owed, tx, height).Valid?
    requires !LikeApplies(s, tx.core.payload, OwnerOf(ValuesAt(s.boxes, tx.core.inputs)[0]))
      || !InviteeIsNew(acc, tx.core.outputs)
    ensures ApplyQueuedTx(ctx, s, owed, tx, height, acc).Rejected?
  {
  }

  lemma VettedApplies(ctx: Ctx, s: State, owed: Owed, tx: Tx, height: int, acc: Acc)
    requires InputsLive(s.boxes, tx.core.inputs) && tx.core.inputs != []
    requires ValidateTx(ctx, s, owed, tx, height).Valid?
    requires LikeApplies(s, tx.core.payload, OwnerOf(ValuesAt(s.boxes, tx.core.inputs)[0]))
      && InviteeIsNew(acc, tx.core.outputs)
    ensures var applied, bs := ApplyTx(s, acc.taken, tx.core), ValuesAt(s.boxes, tx.core.inputs);
      if applied.None? then ApplyQueuedTx(ctx, s, owed, tx, height, acc).Thrown?
      else
        && (tx.core.payload.Like? ==> tx.core.payload.target in applied.value.posts)
        && ApplyQueuedTx(ctx, s, owed, tx, height, acc)
          == Done(Settle(ctx, applied.value, AccBefore(acc, s, tx, bs), tx.core, bs, height))
  {
    AppliedKeepsPosts(s, acc.taken, tx.core);
  }

  method ApplyQueued(state: BlockOverlay, lists: Reads, owed: Owed, tx: Tx, height: int,
    acc: Acc) returns (out: Outcome<Acc>)
    requires InUse(state, lists) && acc.taken == state.Taken()
    modifies state`records, state`mutations, state`inserted, state`spent, state`likes, state`likeRecords, state`names,
      state`holders
    ensures state.Valid() && state.withdrawals == old(state.withdrawals)
    ensures CameTo(out, state.Now(), ApplyQueuedTx(state.ctx, old(state.Now()), owed, tx, height, acc))
    ensures out.Rejected? ==> state.Now() == old(state.Now())
    ensures out.Done? ==> out.value.taken == state.Taken()
    ensures out.Done? && old(OwnOutputs(state)) ==> OwnOutputs(state)
    ensures out.Done? && old(LikesNoted(state)) ==> LikesNoted(state)
  {
    var bs := InputBoxes(state, tx.core.inputs);
    if bs.None? {
      return Rejected;
    }
    var verdict := Validate(state, lists, owed, tx, height);
    if verdict.Invalid? {
      return Rejected;
    }
    if verdict.Defect? {
      return Thrown;
    }
    out := ApplyVetted(state, owed, tx, height, acc, bs.value);
  }

  /** The transaction at `i`: the rest of the body goes on from where it leaves, or the body ends with it. */
  method ApplyNext(
    state: BlockOverlay, lists: Reads, owed: Owed, queue: seq<Tx>, i: nat, height: int,
    acc: Acc) returns (out: Outcome<Acc>)
    requires InUse(state, lists) && acc.taken == state.Taken() && i < |queue|
    modifies state`records, state`mutations, state`inserted, state`spent, state`likes, state`likeRecords, state`names,
      state`holders
    ensures state.Valid() && state.withdrawals == old(state.withdrawals)
    ensures out.Done? ==>
      ApplyQueue(state.ctx, old(state.Now()), owed, queue[i..], height, acc)
      == ApplyQueue(state.ctx, state.Now(), owed, queue[i + 1..], height, out.value)
    ensures !out.Done? ==>
      CameTo(out, state.Now(), ApplyQueue(state.ctx, old(state.Now()), owed, queue[i..], height, acc))
    ensures out.Done? ==> out.value.taken == state.Taken()
    ensures out.Done? && old(OwnOutputs(state)) ==> OwnOutputs(state)
    ensures out.Done? && old(LikesNoted(state)) ==> LikesNoted(state)
  {
    QueueUnrolls(state.ctx, state.Now(), owed, queue, i, height, acc);
    out := ApplyQueued(state, lists, owed, queue[i], height, acc);
  }

  /** The body in committed order; it stops at the first refusal. */
  method ApplyAll(state: BlockOverlay, lists: Reads, owed: Owed, queue: seq<Tx>, height: int,
    acc: Acc) returns (out: Outcome<Acc>)
    requires InUse(state, lists) && acc.taken == state.Taken()
    modifies state`records, state`mutations, state`inserted, state`spent, state`likes, state`likeRecords, state`names,
      state`holders
    ensures state.Valid() && state.withdrawals == old(state.withdrawals)
    ensures CameTo(out, state.Now(), ApplyQueue(state.ctx, old(state.Now()), owed, queue, height, acc))
    ensures out.Done? ==> out.value.taken == state.Taken()
    ensures out.Done? && old(OwnOutputs(state)) ==> OwnOutputs(state)
    ensures out.Done? && old(LikesNoted(state)) ==> LikesNoted(state)
  {
    var now := acc;
    assert queue[0..] == queue;
    for i := 0 to |queue|
      invariant InUse(state, lists) && now.taken == state.Taken() && state.withdrawals == old(state.withdrawals)
      invariant ApplyQueue(state.ctx, state.Now(), owed, queue[i..], height, now)
        == ApplyQueue(state.ctx, old(state.Now()), owed, queue, height, acc)
      invariant old(OwnOutputs(state)) ==> OwnOutputs(state)
      invariant old(LikesNoted(state)) ==> LikesNoted(state)
    {
      var next := ApplyNext(state, lists, owed, queue, i, height, now);
      if !next.Done? {
        return next;
      }
      now := next.value;
    }
    out := Done(now);
  }

  lemma QueueUnrolls(ctx: Ctx, s: State, owed: Owed, queue: seq<Tx>, i: nat, height: int, acc: Acc)
    requires i < |queue|
    ensures ApplyQueue(ctx, s, owed, queue[i..], height, acc)
      == match ApplyQueuedTx(ctx, s, owed, queue[i], height, acc)
         case Rejected => Rejected
         case Thrown => Thrown
         case Done(next) => ApplyQueue(ctx, next.0, owed, queue[i + 1..], height, next.1)
  {
    assert queue[i..][1..] == queue[i + 1..];
  }
}
