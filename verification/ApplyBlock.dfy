/** A whole block over the overlay: its outcome, the state it leaves and the effects that explain it. */
module ApplyBlocks {
  import opened Wrappers
  import opened Sums
  import opened Orders
  import opened Ledger
  import opened Engine
  import opened Body
  import opened Coinbase
  import opened Queries
  import opened Decay
  import opened Settlement
  import opened Blocks
  import opened Applying
  import opened Invariant
  import opened BodyKeeps
  import opened AfterBody
  import opened BlockStep
  import opened Runs
  import opened Effects
  import opened Tree
  import opened TreeBlock
  import opened TreeUpdate
  import opened TreeRuns
  import opened Sorting
  import opened StateReads
  import opened Overlays
  import opened ApplyOver
  import opened ApplyBody
  import opened ApplyPosts
  import opened ApplyCaptures
  import opened ValidateOver
  import opened Tripwires
  import opened ApplySettlement

  // ---------------------------------------------------------------------------
  // Posts are new
  // ---------------------------------------------------------------------------

  /** A post a transaction created was created by an applied one. */
  ghost predicate PostsHistoried(posts: map<PostId, PostRecord>, applied: set<TxCore>) {
    forall id | id in posts && id.PostOf? :: id.creator in applied
  }

  lemma {:induction false} PostsInMean(entries: seq<Tx>)
    ensures forall p | p in PostsIn(entries) ::
      p.0.PostOf? && p.0.creator.payload.Post? && p.1 == p.0.creator.payload.author && p.0.creator in CoresOf(entries)
    ensures Distinct(CoresOf(entries)) ==> Distinct(PostsIn(entries))
  {
    if entries != [] {
      var core := entries[0].core;
      var rest := PostsIn(entries[1..]);
      PostsInMean(entries[1..]);
      assert CoresOf(entries) == [core] + CoresOf(entries[1..]);
      if Distinct(CoresOf(entries)) {
        DistinctTail(CoresOf(entries));
        if core.payload.Post? {
          assert forall p | p in rest :: p.0 != PostOf(core);
          assert PostsIn(entries) == [(PostOf(core), core.payload.author)] + rest;
        } else {
          assert PostsIn(entries) == rest;
        }
      }
    }
  }

  lemma {:induction false} CoresJoin(a: seq<Tx>, b: seq<Tx>)
    ensures CoresOf(a + b) == CoresOf(a) + CoresOf(b)
  {
    forall i | 0 <= i < |a + b| ensures CoresOf(a + b)[i] == (CoresOf(a) + CoresOf(b))[i] {
    }
  }

  lemma EntriesAreCores(block: Block)
    requires block.settlement.Some?
    ensures CoresOf(EntriesOf(block)) == CoresOf(block.queue) + [block.settlement.value.core]
    ensures Members(CoresOf(EntriesOf(block))) == BlockCores(block)
  {
    CoresJoin(block.queue, [block.settlement.value]);
    assert CoresOf([block.settlement.value]) == [block.settlement.value.core];
  }

  lemma BlockPostsAreNew(view: State, applied: set<TxCore>, block: Block)
    requires block.settlement.Some? && AllFirst(block, applied) && PostsHistoried(view.posts, applied)
    ensures PostsAreNew(view, PostsIn(EntriesOf(block)))
  {
    var posts := PostsIn(EntriesOf(block));
    EntriesAreCores(block);
    PostsInMean(EntriesOf(block));
    forall p | p in posts ensures p.0 !in view.posts {
      assert p.0.creator in Members(CoresOf(EntriesOf(block)));
    }
  }

  lemma PostsStayHistoried(view: State, u: State, applied: set<TxCore>, block: Block, height: int, effects: Effects)
    requires block.settlement.Some? && PostsHistoried(view.posts, applied)
    requires PostsExplained(view, u, height, effects) && effects.posts == PostsIn(EntriesOf(block))
    ensures PostsHistoried(u.posts, applied + BlockCores(block))
  {
    EntriesAreCores(block);
    PostsInMean(EntriesOf(block));
    forall id | id in u.posts && id.PostOf? ensures id.creator in applied + BlockCores(block) {
      if id !in view.posts {
        var p :| p in effects.posts && p.0 == id;
        assert p.0.creator in Members(CoresOf(EntriesOf(block)));
      }
    }
  }

  // ---------------------------------------------------------------------------
  // The block's phases
  // ---------------------------------------------------------------------------

  /** The block after its body, given the body's outcome. */
  ghost function AfterQueue(ctx: Ctx, s: State, block: Block, body: Outcome<(State, Acc)>): Outcome<State>
    requires ValidCtx(ctx) && block.settlement.Some?
  {
    match body
    case Rejected => Rejected
    case Thrown => Thrown
    case Done(left) =>
      var withdrawn := ApplyWithdrawals(left.0.posts, EntriesOf(block), block.height);
      if withdrawn.None? then Rejected
      else
        SettleBlock(ctx, left.0.(posts := withdrawn.value), left.1,
          CapturedOf(ctx, Confirmed(s, block), CoresOf(block.queue), block.height), block)
  }

  lemma ApplyBlockIs(ctx: Ctx, s: State, block: Block)
    requires ValidCtx(ctx)
    ensures Blocks.ApplyBlock(ctx, s, block) ==
      if BodyAdmitted(ctx, block) then AfterQueue(ctx, s, block, BodyOutcomeOf(ctx, s, block)) else Rejected
  {
  }

  /** The overlay in the middle of a block: what it wrote besides boxes and records. */
  ghost predicate MidBlock(state: BlockOverlay, lists: Reads, posts: seq<(PostId, Key)>, height: int)
    reads state
  {
    InUse(state, lists) && OwnOutputs(state) && Noted(state, posts, height)
  }

  /** A new overlay with the block's posts confirmed in it. */
  method Open(ctx: Ctx, view: State, lists: Reads, block: Block) returns (state: BlockOverlay,
    posts: seq<(PostId, Key)>)
    requires RanksApart(ctx) && Answers(ctx, lists, view)
    ensures fresh(state) && state.ctx == ctx && state.view == view
    ensures MidBlock(state, lists, posts, block.height) && Unwritten(state) && posts == PostsIn(EntriesOf(block))
    ensures state.Now() == Confirmed(view, block) && state.Taken() == state.Now().boxes.Keys
  {
    state := new BlockOverlay(ctx, view);
    posts := ConfirmBody(state, EntriesOf(block), block.height);
  }

  /** The body's transactions and its withdrawals. */
  method RunBody(
    state: BlockOverlay, lists: Reads, owed: Owed, block: Block,
    ghost posts: seq<(PostId, Key)>) returns (out: Outcome<Acc>)
    requires MidBlock(state, lists, posts, block.height)
    requires state.Taken() == state.Now().boxes.Keys
    modifies state`records, state`mutations, state`inserted, state`spent, state`likes, state`likeRecords, state`names,
      state`holders,
      state`withdrawn, state`withdrawals
    ensures out.Done? ==> MidBlock(state, lists, posts, block.height) && out.value.taken == state.Taken()
    ensures BodyCameTo(out, state.Now(), block,
      ApplyQueue(state.ctx, old(state.Now()), owed, block.queue, block.height, EmptyAcc(old(state.Now()))))
  {
    var acc := Acc(state.Taken(), map[], map[], map[], {}, map[], {}, []);
    var body := ApplyAll(state, lists, owed, block.queue, block.height, acc);
    if !body.Done? {
      return body;
    }
    var ok := WithdrawBody(state, EntriesOf(block), block.height, posts);
    out := if ok then body else Rejected;
  }

  /** The body's outcome over the overlay, its withdrawals made. */
  ghost predicate BodyCameTo(out: Outcome<Acc>, now: State, block: Block, spec: Outcome<(State, Acc)>) {
    match spec
    case Rejected => out.Rejected?
    case Thrown => out.Thrown?
    case Done(left) =>
      var withdrawn := ApplyWithdrawals(left.0.posts, EntriesOf(block), block.height);
      if withdrawn.None? then out.Rejected?
      else out == Done(left.1) && now == left.0.(posts := withdrawn.value)
  }

  // ---------------------------------------------------------------------------
  // applyBlock
  // ---------------------------------------------------------------------------

  /** The body left what the settlement's reads need: none of them is tripped. */
  lemma BodyLeavesReads(
    state: BlockOverlay, ctx: Ctx, s: State, height: int, applied: set<TxCore>, block: Block, now: State, acc: Acc,
    invitedAt: int)
    requires ValidCtx(ctx) && Inv(ctx, s, height, applied) && Bodied(ctx, s, applied, block, now, acc)
    requires state.Valid() && OwnOutputs(state) && state.ctx == ctx && state.view == s
    requires state.Now() == now && acc.taken == state.Taken()
    ensures Untripped(state, invitedAt)
  {
    BodiedIsReady(ctx, s, height, applied, block, now, acc);
    ReadyTripsNothing(state, ctx, OriginOf(s, block, applied), CoresOf(block.queue), now, acc, invitedAt);
  }

  lemma ReadyTripsNothing(
    state: BlockOverlay, ctx: Ctx, o: Origin, cores: seq<TxCore>, s: State, acc: Acc, invitedAt: int)
    requires state.Valid() && OwnOutputs(state) && state.ctx == ctx
    requires state.view.boxes == o.start.boxes && state.view.records == o.start.records
    requires state.Now() == s && state.Taken() == acc.taken && Ready(ctx, o, cores, s, acc)
    ensures Untripped(state, invitedAt)
  {
    BodyTripsNothing(state, ctx, o, cores, s, acc, invitedAt);
  }

  /** What the block notes of posts and likes. */
  ghost predicate Noted(state: BlockOverlay, posts: seq<(PostId, Key)>, height: int)
    reads state
  {
    PostsNoted(state, posts, height) && WithdrawalsNoted(state) && LikesNoted(state)
  }

  /** The settlement's step, and the effects the whole block leaves. */
  method Finish(
    state: BlockOverlay, lists: Reads, block: Block, posts: seq<(PostId, Key)>, acc: Acc, cap: Captured, invitedAt: int)
    returns (out: Outcome<Effects>)
    requires MidBlock(state, lists, posts, block.height) && acc.taken == state.Taken() && ValidCtx(state.ctx)
    requires block.settlement.Some? && Untripped(state, invitedAt)
    modifies state`records, state`network, state`mutations, state`inserted, state`spent
    ensures state.Valid()
    ensures FinishedAs(state, posts, out, SettledAt(state.ctx, old(state.Now()), acc, cap, block, invitedAt),
      block.height)
  {
    var settled := SettleOver(state, lists, acc, cap, block, invitedAt);
    if settled.Done? {
      out := Done(EffectsOf(state, posts));
    } else {
      out := if settled.Rejected? then Rejected else Thrown;
    }
  }

  /** The outcome is the rules' own, and an accepted block's effects are those the overlay collected. */
  ghost predicate FinishedAs(state: BlockOverlay, posts: seq<(PostId, Key)>, out: Outcome<Effects>,
    spec: Outcome<State>, height: int)
    reads state
  {
    match spec
    case Rejected => out.Rejected?
    case Thrown => out.Thrown?
    case Done(after) =>
      state.Valid() && state.Now() == after && out == Done(EffectsOf(state, posts)) && Noted(state, posts, height)
  }

  /** What the overlay collected takes the view to what it holds. */
  lemma CollectedExplains(state: BlockOverlay, posts: seq<(PostId, Key)>, height: int)
    requires state.Valid() && Noted(state, posts, height) && PostsAreNew(state.view, posts)
    ensures Explains(state.view, state.Now(), height, EffectsOf(state, posts))
  {
    PostsAreExplained(state, posts, height);
  }

  /** An accepted block's effects explain the state it leaves. */
  ghost predicate Accounted(
    view: State, u: State, height: int, applied: set<TxCore>, block: Block, effects: Effects)
    requires block.settlement.Some?
  {
    PostsHistoried(view.posts, applied) ==>
      Explains(view, u, height, effects) && PostsHistoried(u.posts, applied + BlockCores(block))
  }

  lemma FinishedIsAccounted(
    state: BlockOverlay, ctx: Ctx, height: int, applied: set<TxCore>, block: Block, posts: seq<(PostId, Key)>)
    requires block.settlement.Some? && AllFirst(block, applied) && posts == PostsIn(EntriesOf(block))
    requires state.Valid() && Noted(state, posts, block.height)
    ensures Accounted(state.view, state.Now(), block.height, applied, block, EffectsOf(state, posts))
  {
    if PostsHistoried(state.view.posts, applied) {
      BlockPostsAreNew(state.view, applied, block);
      CollectedExplains(state, posts, block.height);
      PostsStayHistoried(state.view, state.Now(), applied, block, block.height, EffectsOf(state, posts));
    }
  }

  /** The block's outcome is the rules' own; it never throws; accepted, its effects account for its state. */
  ghost predicate AppliedAs(
    ctx: Ctx, view: State, applied: set<TxCore>, block: Block, out: Outcome<(Effects, State)>, spec: Outcome<State>)
  {
    match spec
    case Rejected => out.Rejected?
    case Thrown => false
    case Done(u) =>
      out.Done? && out.value.1 == u && block.settlement.Some?
          && Accounted(view, u, block.height, applied, block, out.value.0)
  }

  /** What a settlement over a reachable state's body may come to. */
  ghost predicate Settles(applied: set<TxCore>, block: Block, spec: Outcome<State>)
    requires block.settlement.Some?
  {
    !spec.Thrown? && (spec.Done? ==> AllFirst(block, applied))
  }

  /** What follows the body over the overlay. */
  method CloseOver(
    state: BlockOverlay, lists: Reads, block: Block, posts: seq<(PostId, Key)>, acc: Acc, cap: Captured, invitedAt: int,
    ghost applied: set<TxCore>) returns (out: Outcome<(Effects, State)>)
    requires MidBlock(state, lists, posts, block.height) && acc.taken == state.Taken() && posts
      == PostsIn(EntriesOf(block))
    requires ValidCtx(state.ctx) && block.settlement.Some? && Untripped(state, invitedAt)
    requires Settles(applied, block, SettledAt(state.ctx, state.Now(), acc, cap, block, invitedAt))
    modifies state`records, state`network, state`mutations, state`inserted, state`spent
    ensures AppliedAs(state.ctx, state.view, applied, block, out,
      SettledAt(state.ctx, old(state.Now()), acc, cap, block, invitedAt))
  {
    var finished := Finish(state, lists, block, posts, acc, cap, invitedAt);
    if finished.Done? {
      FinishedIsAccounted(state, state.ctx, block.height, applied, block, posts);
      out := Done((finished.value, state.Now()));
    } else {
      out := Rejected;
    }
  }

  /** `invitedAt` is the grant height the block's due bonds go back to. */
  ghost predicate DueFrom(ctx: Ctx, block: Block, invitedAt: int)
    requires ValidCtx(ctx) && block.settlement.Some?
  {
    forall s, acc, cap :: SettleBlock(ctx, s, acc, cap, block) == SettledAt(ctx, s, acc, cap, block, invitedAt)
  }

  lemma DueFromWindow(ctx: Ctx, block: Block)
    requires ValidCtx(ctx) && block.settlement.Some?
    ensures DueFrom(ctx, block, WindowStart(ctx, block.height))
  {
    forall s, acc, cap
      ensures SettleBlock(ctx, s, acc, cap, block) == SettledAt(ctx, s, acc, cap, block, WindowStart(ctx, block.height))
    {
      SettlesAtWindow(ctx, s, acc, cap, block);
    }
  }

  /** The settlement's step over a reachable state's body: untripped, never a defect, and the rules' own. */
  lemma BodySettles(
    state: BlockOverlay, ctx: Ctx, view: State, height: int, applied: set<TxCore>, block: Block, acc: Acc,
    cap: Captured, invitedAt: int)
    requires ValidCtx(ctx) && Inv(ctx, view, height, applied) && 0 <= height < block.height
    requires state.Valid() && OwnOutputs(state) && state.ctx == ctx && state.view == view && acc.taken == state.Taken()
    requires block.settlement.Some? && Bodied(ctx, view, applied, block, state.Now(), acc)
    requires cap == CapturedOf(ctx, Confirmed(view, block), CoresOf(block.queue), block.height)
    requires DueFrom(ctx, block, invitedAt)
    ensures Untripped(state, invitedAt)
    ensures SettleBlock(ctx, state.Now(), acc, cap, block) == SettledAt(ctx, state.Now(), acc, cap, block, invitedAt)
    ensures Settles(applied, block, SettledAt(ctx, state.Now(), acc, cap, block, invitedAt))
  {
    var now := state.Now();
    BodyLeavesReads(state, ctx, view, height, applied, block, now, acc, invitedAt);
    BodySettlesWell(ctx, view, height, applied, block, now, acc, cap);
  }

  lemma BodySettlesWell(
    ctx: Ctx, view: State, height: int, applied: set<TxCore>, block: Block, now: State, acc: Acc, cap: Captured)
    requires ValidCtx(ctx) && Inv(ctx, view, height, applied) && 0 <= height < block.height
    requires block.settlement.Some? && Bodied(ctx, view, applied, block, now, acc)
    requires cap == CapturedOf(ctx, Confirmed(view, block), CoresOf(block.queue), block.height)
    ensures Settles(applied, block, SettleBlock(ctx, now, acc, cap, block))
  {
    SettleBlockStep(ctx, view, height, applied, block, now, acc);
  }

  lemma BodiedFrom(ctx: Ctx, view: State, applied: set<TxCore>, block: Block, now: State, out: Outcome<Acc>)
    requires ValidCtx(ctx) && block.settlement.Some? && out.Done?
      && BodyCameTo(out, now, block, BodyOutcomeOf(ctx, view, block))
    ensures Bodied(ctx, view, applied, block, now, out.value)
    ensures AfterQueue(ctx, view, block, BodyOutcomeOf(ctx, view, block))
      == SettleBlock(ctx, now, out.value, CapturedOf(ctx, Confirmed(view, block), CoresOf(block.queue), block.height),
          block)
  {
  }

  lemma RejectedFrom(ctx: Ctx, view: State, block: Block, now: State, out: Outcome<Acc>)
    requires ValidCtx(ctx) && block.settlement.Some? && !out.Done?
      && BodyCameTo(out, now, block, BodyOutcomeOf(ctx, view, block))
    requires !BodyOutcomeOf(ctx, view, block).Thrown?
    ensures AfterQueue(ctx, view, block, BodyOutcomeOf(ctx, view, block)).Rejected?
  {
  }

  /**
   * A block over the overlay. From every reachable state it comes to what the rules say, no read or write of
   * the overlay throws, and the effects of an accepted block take the one state to the other.
   */
  method ApplyBlock(ctx: Ctx, view: State, lists: Reads, block: Block, ghost height: int, ghost applied: set<TxCore>)
    returns (out: Outcome<(Effects, State)>)
    requires ValidCtx(ctx) && RanksApart(ctx) && Answers(ctx, lists, view)
    requires Inv(ctx, view, height, applied) && 0 <= height < block.height
    ensures AppliedAs(ctx, view, applied, block, out, Blocks.ApplyBlock(ctx, view, block))
  {
    ApplyBlockIs(ctx, view, block);
    if !BodyAdmitted(ctx, block) {
      return Rejected;
    }
    DueFromWindow(ctx, block);
    out := ApplyAdmitted(ctx, view, lists, block, WindowStart(ctx, block.height), height, applied);
  }

  method ApplyAdmitted(
    ctx: Ctx, view: State, lists: Reads, block: Block, invitedAt: int, ghost height: int, ghost applied: set<TxCore>)
    returns (out: Outcome<(Effects, State)>)
    requires ValidCtx(ctx) && RanksApart(ctx) && Answers(ctx, lists, view)
    requires block.settlement.Some? && DueFrom(ctx, block, invitedAt)
    requires Inv(ctx, view, height, applied) && 0 <= height < block.height
    ensures AppliedAs(ctx, view, applied, block, out, AfterQueue(ctx, view, block, BodyOutcomeOf(ctx, view, block)))
  {
    var state, posts := Open(ctx, view, lists, block);
    var cap, owed := Capture(state, lists, CoresOf(block.queue), block.height);
    BodyRuns(ctx, view, height, applied, block);
    var body := RunBody(state, lists, owed, block, posts);
    if !body.Done? {
      RejectedFrom(ctx, view, block, state.Now(), body);
      return Rejected;
    }
    BodiedFrom(ctx, view, applied, block, state.Now(), body);
    BodySettles(state, ctx, view, height, applied, block, body.value, cap, invitedAt);
    out := CloseOver(state, lists, block, posts, body.value, cap, invitedAt, applied);
  }
}
