/** Screening a body: which of its user transactions apply, each after the ones before it that did. */
module Screening {
  import opened Wrappers
  import opened Sums
  import opened Orders
  import opened Ledger
  import opened Engine
  import opened Body
  import opened Decay
  import opened Settlement
  import opened Applying
  import opened Invariant
  import opened BodyRun
  import opened BodyKeeps
  import opened BodyOutcome
  import opened Blocks
  import opened BlockStep

  // ---------------------------------------------------------------------------
  // One pass
  // ---------------------------------------------------------------------------

  predicate Indexes(items: seq<nat>, queue: seq<Tx>) {
    forall k | 0 <= k < |items| :: items[k] < |queue|
  }

  function Picked(queue: seq<Tx>, items: seq<nat>): (txs: seq<Tx>)
    requires Indexes(items, queue)
    ensures |txs| == |items|
    ensures forall k | 0 <= k < |items| :: txs[k] == queue[items[k]]
  {
    if items == [] then [] else [queue[items[0]]] + Picked(queue, items[1..])
  }

  /** The survivors' block: their entries in body order and the settlement last. */
  function Surviving(block: Block, items: seq<nat>): Block
    requires Indexes(items, block.queue)
  {
    block.(queue := Picked(block.queue, items))
  }

  /** What an entry is refused for alone: its outputs' domain, its signature count, its signatures. */
  predicate Gate(ctx: Ctx, tx: Tx) {
    (forall b | b in tx.core.outputs :: UserOutputShape(b)) && NotOverSigned(tx) && SignaturesVerify(ctx, tx)
  }

  function Gated(ctx: Ctx, queue: seq<Tx>, items: seq<nat>): (passed: seq<nat>)
    requires Indexes(items, queue)
    ensures Indexes(passed, queue) && forall i :: i in passed <==> i in items && i < |queue| && Gate(ctx, queue[i])
    ensures |passed| <= |items|
  {
    if items == [] then []
    else (if Gate(ctx, queue[items[0]]) then [items[0]] else []) + Gated(ctx, queue, items[1..])
  }

  /** A refused transaction applies nothing, and the later ones are judged without it. */
  ghost function ScreenQueue(
    ctx: Ctx, s: State, owed: Owed, queue: seq<Tx>, items: seq<nat>, height: int, acc: Acc)
    : (r: Outcome<(State, set<nat>)>)
    requires Indexes(items, queue)
    ensures r.Done? ==> r.value.1 <= Members(items)
    decreases |items|
  {
    if items == [] then Done((s, {}))
    else match ApplyQueuedTx(ctx, s, owed, queue[items[0]], height, acc)
      case Thrown => Thrown
      case Done(next) => ScreenQueue(ctx, next.0, owed, queue, items[1..], height, next.1)
      case Rejected =>
        match ScreenQueue(ctx, s, owed, queue, items[1..], height, acc)
        case Done(rest) => Done((rest.0, rest.1 + {items[0]}))
        case _ => Thrown
  }

  ghost predicate Carries(queue: seq<Tx>, items: seq<nat>, core: TxCore)
    requires Indexes(items, queue)
  {
    exists k :: 0 <= k < |items| && queue[items[k]].core == core
  }

  /** The last entry that carries the transaction. */
  function IndexOf(queue: seq<Tx>, items: seq<nat>, core: TxCore): (r: Option<nat>)
    requires Indexes(items, queue)
    ensures r.Some? ==> r.value in items && r.value < |queue| && queue[r.value].core == core
    ensures r.None? ==> forall k | 0 <= k < |items| :: queue[items[k]].core != core
  {
    if items == [] then None
    else
      var later := IndexOf(queue, items[1..], core);
      if later.Some? then later else if queue[items[0]].core == core then Some(items[0]) else None
  }

  /** The withdrawals of the entries, but those of a transaction refused or never judged. */
  ghost function ScreenWithdrawals(
    posts: map<PostId, PostRecord>, queue: seq<Tx>, judged: seq<nat>, refused: set<nat>, entries: seq<Tx>, height: nat)
    : (r: set<nat>)
    requires Indexes(judged, queue)
    ensures r <= Members(judged)
    decreases |entries|
  {
    if entries == [] then {}
    else
      var index := IndexOf(queue, judged, entries[0].core);
      if index.None? || index.value in refused then ScreenWithdrawals(posts, queue, judged, refused, entries[1..],
          height)
      else
        match ApplyWithdrawal(posts, entries[0].core, height)
        case None => ScreenWithdrawals(posts, queue, judged, refused, entries[1..], height) + {index.value}
        case Some(after) => ScreenWithdrawals(after, queue, judged, refused, entries[1..], height)
  }

  /** The owed capture of a body, no payee in it. */
  ghost function OwedAlone(ctx: Ctx, start: State, queue: seq<Tx>, height: nat): Owed
    requires ValidCtx(ctx)
  {
    OwedBefore(ctx, start, CoresOf(queue), {}, height)
  }

  /** A pass's refusals: the entries never judged, those the run refused, those whose withdrawal failed. */
  ghost function Refusals(block: Block, items: seq<nat>, judged: seq<nat>, run: (State, set<nat>)): set<nat>
    requires Indexes(items, block.queue) && Indexes(judged, block.queue)
  {
    (Members(items) - Members(judged)) + run.1
    + ScreenWithdrawals(run.0.posts, block.queue, judged, run.1, EntriesOf(Surviving(block, items)), block.height)
  }

  /** The judged entries' run over the survivors' posts: the state it leaves and what it refuses. */
  ghost function JudgedRun(ctx: Ctx, s: State, block: Block, items: seq<nat>, judged: seq<nat>)
    : (r: Outcome<(State, set<nat>)>)
    requires ValidCtx(ctx) && Indexes(items, block.queue) && Indexes(judged, block.queue)
    ensures r.Done? ==> r.value.1 <= Members(judged)
  {
    var start := Confirmed(s, Surviving(block, items));
    var owed := OwedAlone(ctx, start, Picked(block.queue, judged), block.height);
    ScreenQueue(ctx, start, owed, block.queue, judged, block.height, EmptyAcc(start))
  }

  /** What the queue and the withdrawals of the judged entries refuse, beside the entries never judged. */
  ghost function RunJudged(ctx: Ctx, s: State, block: Block, items: seq<nat>, judged: seq<nat>): (r: Outcome<set<nat>>)
    requires ValidCtx(ctx) && Indexes(items, block.queue) && Indexes(judged, block.queue)
    requires forall i | i in judged :: i in items
    ensures r.Thrown? || r.Done?
    ensures r.Done? ==> r.value <= Members(items)
  {
    match JudgedRun(ctx, s, block, items, judged)
    case Done(run) => Done(Refusals(block, items, judged, run))
    case _ => Thrown
  }

  /** What a pass over the survivors refuses. */
  ghost function RunPass(ctx: Ctx, s: State, block: Block, items: seq<nat>): (r: Outcome<set<nat>>)
    requires ValidCtx(ctx) && Indexes(items, block.queue)
    ensures r.Thrown? || r.Done?
    ensures r.Done? ==> r.value <= Members(items)
  {
    RunJudged(ctx, s, block, items, Gated(ctx, block.queue, items))
  }

  lemma {:induction false} NeverRejects(
    ctx: Ctx, s: State, owed: Owed, queue: seq<Tx>, items: seq<nat>, height: int, acc: Acc)
    requires Indexes(items, queue)
    ensures !ScreenQueue(ctx, s, owed, queue, items, height, acc).Rejected?
    decreases |items|
  {
    if items != [] {
      match ApplyQueuedTx(ctx, s, owed, queue[items[0]], height, acc)
      case Thrown =>
      case Done(next) => NeverRejects(ctx, next.0, owed, queue, items[1..], height, next.1);
      case Rejected =>
    }
  }

  // ---------------------------------------------------------------------------
  // The passes
  // ---------------------------------------------------------------------------

  function Without(items: seq<nat>, refused: set<nat>): (kept: seq<nat>)
    ensures forall i :: i in kept <==> i in items && i !in refused
    ensures |kept| <= |items|
    ensures (exists i :: i in items && i in refused) ==> |kept| < |items|
  {
    if items == [] then [] else (if items[0] in refused then [] else [items[0]]) + Without(items[1..], refused)
  }

  /** A pass refuses only what it is given. */
  ghost predicate Narrows(pass: seq<nat> -> Outcome<set<nat>>) {
    forall items :: !pass(items).Rejected? && (pass(items).Done? ==> pass(items).value <= Members(items))
  }

  /** The passes repeat over the ones kept until a pass refuses nothing; the survivors strictly shrink. */
  ghost function Repeated(pass: seq<nat> -> Outcome<set<nat>>, items: seq<nat>): (r: Outcome<seq<nat>>)
    requires Narrows(pass)
    ensures r.Done? ==> pass(r.value) == Done({}) && forall i | i in r.value :: i in items
    decreases |items|
  {
    match pass(items)
    case Done(refused) =>
      if refused == {} then Done(items)
      else
        Shrinks(items, refused);
        Repeated(pass, Without(items, refused))
    case _ => Thrown
  }

  lemma Shrinks(items: seq<nat>, refused: set<nat>)
    requires refused <= Members(items) && refused != {}
    ensures |Without(items, refused)| < |items|
  {
    var i :| i in refused;
    assert i in Members(items);
  }

  ghost function PassOver(ctx: Ctx, s: State, block: Block): (pass: seq<nat> -> Outcome<set<nat>>)
    requires ValidCtx(ctx)
    ensures Narrows(pass)
  {
    (items: seq<nat>) => if Indexes(items, block.queue) then RunPass(ctx, s, block, items) else Done({})
  }

  ghost function Screened(ctx: Ctx, s: State, block: Block): (r: Outcome<seq<nat>>)
    requires ValidCtx(ctx)
    ensures r.Done? ==> Indexes(r.value, block.queue)
  {
    var all := UpTo(|block.queue|);
    var survivors := Repeated(PassOver(ctx, s, block), all);
    assert survivors.Done? ==> Indexes(survivors.value, block.queue) by {
      if survivors.Done? {
        forall k | 0 <= k < |survivors.value| ensures survivors.value[k] < |block.queue| {
          assert survivors.value[k] in all;
        }
      }
    }
    survivors
  }

  function UpTo(n: nat): (items: seq<nat>)
    ensures |items| == n
    ensures forall i | 0 <= i < n :: items[i] == i
  {
    if n == 0 then [] else UpTo(n - 1) + [n - 1]
  }

  ghost method ScreenBody(ctx: Ctx, s: State, block: Block) returns (r: Outcome<seq<nat>>)
    requires ValidCtx(ctx)
    ensures r == Screened(ctx, s, block)
  {
    r := RepeatPasses(PassOver(ctx, s, block), |block.queue|);
  }

  ghost method RepeatPasses(pass: seq<nat> -> Outcome<set<nat>>, count: nat) returns (r: Outcome<seq<nat>>)
    requires Narrows(pass)
    ensures r == Repeated(pass, UpTo(count))
  {
    var survivors: seq<nat> := UpTo(count);
    while true
      invariant Repeated(pass, survivors) == Repeated(pass, UpTo(count))
      decreases |survivors|
    {
      var refused := pass(survivors);
      if refused.Thrown? {
        return Thrown;
      }
      if refused.value == {} {
        return Done(survivors);
      }
      Shrinks(survivors, refused.value);
      survivors := Without(survivors, refused.value);
    }
  }

  // ---------------------------------------------------------------------------
  // A pass that refuses nothing
  // ---------------------------------------------------------------------------

  /** The user transactions and their withdrawals go through. */
  ghost predicate Goes(ctx: Ctx, s: State, block: Block)
    requires ValidCtx(ctx)
  {
    var body := BodyOutcomeOf(ctx, s, block);
    body.Done? && ApplyWithdrawals(body.value.0.posts, block.queue, block.height).Some?
  }

  /** The user transactions go through every phase ahead of the settlement, the cost aside. */
  ghost predicate UsersApply(ctx: Ctx, s: State, block: Block)
    requires ValidCtx(ctx)
  {
    (forall tx | tx in block.queue :: Gate(ctx, tx)) && Goes(ctx, s, block)
  }

  /** So does the whole body, with a withdrawal its settlement entry may carry. */
  ghost predicate BodyApplies(ctx: Ctx, s: State, block: Block)
    requires ValidCtx(ctx)
  {
    && UsersApply(ctx, s, block)
    && ApplyWithdrawals(BodyOutcomeOf(ctx, s, block).value.0.posts, EntriesOf(block), block.height).Some?
  }

  function Tail(settlement: Option<Tx>): seq<Tx> {
    if settlement.Some? then [settlement.value] else []
  }

  /** The settlement entry is the copy of a user's withdrawal. */
  predicate SettlementCopies(posts: map<PostId, PostRecord>, block: Block) {
    && block.settlement.Some?
    && block.settlement.value.core.payload.PostWithdraw? && block.settlement.value.core.payload.postId in posts
    && exists i :: 0 <= i < |block.queue| && block.queue[i].core == block.settlement.value.core
  }

  lemma {:induction false} GatedAll(ctx: Ctx, queue: seq<Tx>, items: seq<nat>)
    requires Indexes(items, queue) && forall k | 0 <= k < |items| :: Gate(ctx, queue[items[k]])
    ensures Gated(ctx, queue, items) == items
  {
    if items != [] {
      GatedAll(ctx, queue, items[1..]);
    }
  }

  /** A verdict does not depend on what the capture holds for others. */
  lemma SameVerdict(ctx: Ctx, s: State, few: Owed, many: Owed, tx: Tx, height: int, acc: Acc)
    requires few.Keys <= many.Keys && forall k | k in few :: few[k] == many[k]
    ensures ApplyQueuedTx(ctx, s, few, tx, height, acc).Thrown? ||
      ApplyQueuedTx(ctx, s, few, tx, height, acc) == ApplyQueuedTx(ctx, s, many, tx, height, acc)
  {
    SameValidation(ctx, s, few, many, tx, height);
  }

  lemma SameValidation(ctx: Ctx, s: State, few: Owed, many: Owed, tx: Tx, height: int)
    requires few.Keys <= many.Keys && forall k | k in few :: few[k] == many[k]
    ensures ValidateTx(ctx, s, few, tx, height).Defect? || ValidateTx(ctx, s, few, tx, height)
      == ValidateTx(ctx, s, many, tx, height)
  {
  }

  /** What a run over the judged entries says of the queue of them. */
  ghost predicate RunAgrees(screened: Outcome<(State, set<nat>)>, applied: Outcome<(State, Acc)>) {
    && (screened.Done? && screened.value.1 == {} ==> applied.Done? && applied.value.0 == screened.value.0)
    && (applied.Done? && !screened.Thrown? ==> screened.Done? && screened.value == (applied.value.0, {}))
  }

  lemma {:induction false} QueueAgrees(
    ctx: Ctx, s: State, few: Owed, many: Owed, queue: seq<Tx>, items: seq<nat>, height: int, acc: Acc)
    requires Indexes(items, queue)
    requires few.Keys <= many.Keys && forall k | k in few :: few[k] == many[k]
    ensures RunAgrees(
      ScreenQueue(ctx, s, few, queue, items, height, acc),
      ApplyQueue(ctx, s, many, Picked(queue, items), height, acc))
    decreases |items|
  {
    if items != [] {
      var tx := queue[items[0]];
      var txs := Picked(queue, items);
      assert txs[0] == tx && txs[1..] == Picked(queue, items[1..]);
      SameVerdict(ctx, s, few, many, tx, height, acc);
      match ApplyQueuedTx(ctx, s, few, tx, height, acc)
      case Thrown =>
      case Rejected =>
        assert ApplyQueue(ctx, s, many, txs, height, acc).Rejected?;
        NeverRejects(ctx, s, few, queue, items[1..], height, acc);
      case Done(next) =>
        QueueAgrees(ctx, next.0, few, many, queue, items[1..], height, next.1);
    }
  }

  /** Where every user entry is a judged one's and none is refused, the arm comes to the settlement as the applier. */
  lemma {:induction false} WithdrawalsAgree(
    posts: map<PostId, PostRecord>, queue: seq<Tx>, judged: seq<nat>, entries: seq<Tx>, last: seq<Tx>, height: nat)
    requires Indexes(judged, queue)
    requires forall tx | tx in entries :: tx.core.payload.PostWithdraw? ==> Carries(queue, judged, tx.core)
    ensures var after := ApplyWithdrawals(posts, entries, height);
      ScreenWithdrawals(posts, queue, judged, {}, entries + last, height) == {} <==>
        after.Some? && ScreenWithdrawals(after.value, queue, judged, {}, last, height) == {}
    decreases |entries|
  {
    if entries == [] {
      assert entries + last == last;
    } else {
      var all := entries + last;
      var index := IndexOf(queue, judged, entries[0].core);
      assert all[0] == entries[0] && all[1..] == entries[1..] + last;
      assert forall tx | tx in entries[1..] :: tx in entries;
      match ApplyWithdrawal(posts, entries[0].core, height)
      case None =>
        assert entries[0].core.payload.PostWithdraw?;
        assert index.Some?;
      case Some(after) =>
        WithdrawalsAgree(after, queue, judged, entries[1..], last, height);
        if index.None? {
          assert after == posts;
        }
    }
  }

  /** The user entries' withdrawals gone through, the settlement's alone is left. */
  lemma {:induction false} WithdrawalsInTwo(
    posts: map<PostId, PostRecord>, entries: seq<Tx>, last: seq<Tx>, height: nat)
    ensures var after := ApplyWithdrawals(posts, entries, height);
      ApplyWithdrawals(posts, entries + last, height)
        == if after.Some? then ApplyWithdrawals(after.value, last, height) else None
    decreases |entries|
  {
    if entries == [] {
      assert entries + last == last;
    } else {
      var all := entries + last;
      assert all[0] == entries[0] && all[1..] == entries[1..] + last;
      var next := ApplyWithdrawal(posts, entries[0].core, height);
      if next.Some? {
        WithdrawalsInTwo(next.value, entries[1..], last, height);
      }
    }
  }

  predicate Withdrawn(posts: map<PostId, PostRecord>, id: PostId) {
    id in posts && !posts[id].live
  }

  lemma {:induction false} WithdrawnStays(
    posts: map<PostId, PostRecord>, entries: seq<Tx>, height: nat, id: PostId)
    requires ApplyWithdrawals(posts, entries, height).Some?
    ensures var after := ApplyWithdrawals(posts, entries, height).value;
      && after.Keys == posts.Keys && (Withdrawn(posts, id) ==> Withdrawn(after, id))
    decreases |entries|
  {
    if entries != [] {
      WithdrawnStays(ApplyWithdrawal(posts, entries[0].core, height).value, entries[1..], height, id);
    }
  }

  lemma {:induction false} WithdrawsEach(posts: map<PostId, PostRecord>, entries: seq<Tx>, height: nat, i: nat)
    requires ApplyWithdrawals(posts, entries, height).Some? && i < |entries|
    requires entries[i].core.payload.PostWithdraw? && entries[i].core.payload.postId in posts
    ensures Withdrawn(ApplyWithdrawals(posts, entries, height).value, entries[i].core.payload.postId)
    decreases |entries|
  {
    var after := ApplyWithdrawal(posts, entries[0].core, height).value;
    if i == 0 {
      WithdrawnStays(after, entries[1..], height, entries[0].core.payload.postId);
    } else {
      WithdrawsEach(after, entries[1..], height, i - 1);
    }
  }

  lemma OwedAgrees(ctx: Ctx, s: State, cores: seq<TxCore>, payees: set<Key>, height: int)
    requires ValidCtx(ctx)
    ensures var few, many := OwedBefore(ctx, s, cores, {}, height), OwedBefore(ctx, s, cores, payees, height);
      few.Keys <= many.Keys && forall k | k in few :: few[k] == many[k]
  {
  }

  /**
   * A pass refuses nothing exactly where the survivors' block takes its user transactions up to the settlement and
   * the settlement entry is no copy of a withdrawal among them.
   */
  lemma PassAgrees(ctx: Ctx, s: State, block: Block, items: seq<nat>)
    requires ValidCtx(ctx) && Indexes(items, block.queue)
    ensures RunPass(ctx, s, block, items) == Done({}) ==> Unrefused(ctx, s, Surviving(block, items))
    ensures Unrefused(ctx, s, Surviving(block, items)) && !RunPass(ctx, s, block, items).Thrown? ==>
      RunPass(ctx, s, block, items) == Done({})
  {
    var survivors := Surviving(block, items);
    var judged := Gated(ctx, block.queue, items);
    AllGated(ctx, block, items);
    if judged == items {
      JudgedAgrees(ctx, s, block, items);
    }
  }

  /** The screen finds nothing to refuse. */
  ghost predicate Unrefused(ctx: Ctx, s: State, block: Block)
    requires ValidCtx(ctx)
  {
    UsersApply(ctx, s, block) && !SettlementCopies(Confirmed(s, block).posts, block)
  }

  /** All the survivors are judged exactly where the gate passes each. */
  lemma AllGated(ctx: Ctx, block: Block, items: seq<nat>)
    requires Indexes(items, block.queue)
    ensures var judged := Gated(ctx, block.queue, items);
      && (Members(items) <= Members(judged) <==> judged == items)
      && (judged == items <==> forall tx | tx in Surviving(block, items).queue :: Gate(ctx, tx))
  {
    var judged := Gated(ctx, block.queue, items);
    var txs := Picked(block.queue, items);
    if forall tx | tx in txs :: Gate(ctx, tx) {
      forall k | 0 <= k < |items| ensures Gate(ctx, block.queue[items[k]]) {
        assert txs[k] == block.queue[items[k]] && txs[k] in txs;
      }
      GatedAll(ctx, block.queue, items);
    }
    if Members(items) <= Members(judged) {
      forall k | 0 <= k < |items| ensures Gate(ctx, block.queue[items[k]]) {
        assert items[k] in Members(items);
      }
      GatedAll(ctx, block.queue, items);
    }
    if judged == items {
      forall tx | tx in txs ensures Gate(ctx, tx) {
        var k :| 0 <= k < |txs| && txs[k] == tx;
        assert items[k] in judged;
      }
    }
  }

  /** Where every survivor is judged, the run and the applier's queue go together. */
  lemma RunsAgree(ctx: Ctx, start: State, queue: seq<Tx>, items: seq<nat>, payees: set<Key>, height: nat)
    requires ValidCtx(ctx) && Indexes(items, queue)
    ensures RunAgrees(
      ScreenQueue(ctx, start, OwedAlone(ctx, start, Picked(queue, items), height), queue, items, height,
          EmptyAcc(start)),
      ApplyQueue(ctx, start, OwedBefore(ctx, start, CoresOf(Picked(queue, items)), payees, height),
          Picked(queue, items), height,
        EmptyAcc(start)))
  {
    var cores := CoresOf(Picked(queue, items));
    OwedAgrees(ctx, start, cores, payees, height);
    QueueAgrees(ctx, start, OwedAlone(ctx, start, Picked(queue, items), height),
        OwedBefore(ctx, start, cores, payees, height),
      queue, items, height, EmptyAcc(start));
  }

  /** What a run over the survivors refuses, every one of them judged. */
  lemma RunRefuses(posts: map<PostId, PostRecord>, block: Block, items: seq<nat>)
    requires Indexes(items, block.queue)
    ensures var survivors := Surviving(block, items);
      ScreenWithdrawals(posts, block.queue, items, {}, EntriesOf(survivors), block.height) == {} <==>
        ApplyWithdrawals(posts, survivors.queue, block.height).Some? && !SettlementCopies(posts, survivors)
  {
    var survivors := Surviving(block, items);
    EntriesJudged(block, items);
    assert EntriesOf(survivors) == survivors.queue + Tail(block.settlement);
    WithdrawalsAgree(posts, block.queue, items, survivors.queue, Tail(block.settlement), block.height);
    var after := ApplyWithdrawals(posts, survivors.queue, block.height);
    if after.Some? {
      SettlementArm(posts, after.value, block, items);
    }
  }

  /** The users' withdrawals gone through, the arm refuses a copy under the settlement and nothing else. */
  lemma SettlementArm(
    posts: map<PostId, PostRecord>, after: map<PostId, PostRecord>, block: Block, items: seq<nat>)
    requires Indexes(items, block.queue)
    requires ApplyWithdrawals(posts, Picked(block.queue, items), block.height) == Some(after)
    ensures ScreenWithdrawals(after, block.queue, items, {}, Tail(block.settlement), block.height) == {} <==>
      !SettlementCopies(posts, Surviving(block, items))
  {
    var last := Tail(block.settlement);
    if block.settlement.Some? {
      var core := block.settlement.value.core;
      assert last[1..] == [];
      assert ScreenWithdrawals(after, block.queue, items, {}, [], block.height) == {};
      var txs := Picked(block.queue, items);
      if core.payload.PostWithdraw? {
        WithdrawnStays(posts, txs, block.height, core.payload.postId);
      }
      if SettlementCopies(posts, Surviving(block, items)) {
        var i :| 0 <= i < |txs| && txs[i].core == core;
        assert block.queue[items[i]].core == core;
        WithdrawsEach(posts, txs, block.height, i);
      } else if IndexOf(block.queue, items, core).Some? {
        var at := IndexOf(block.queue, items, core).value;
        var k :| 0 <= k < |items| && items[k] == at;
        assert txs[k].core == core;
      }
    }
  }

  lemma NothingRefused(items: seq<nat>, a: set<nat>, b: set<nat>)
    ensures (Members(items) - Members(items)) + a + b == {} <==> a == {} && b == {}
  {
    assert (Members(items) - Members(items)) + a + b == a + b;
    assert forall x :: x in a + b <==> x in a || x in b;
    if a + b == {} {
      assert forall x | x in a :: x in a + b;
      assert forall x | x in b :: x in a + b;
    }
  }

  lemma OnePostsStay(ctx: Ctx, s: State, acc: Acc, tx: Tx, owed: Owed, height: int, next: (State, Acc))
    requires ApplyQueuedTx(ctx, s, owed, tx, height, acc) == Done(next)
    ensures next.0.posts == s.posts
  {
    QueuedDone(ctx, s, acc, tx, owed, height, next);
    AppliedKeepsPosts(s, acc.taken, tx.core);
    var bs := ValuesAt(s.boxes, tx.core.inputs);
    SettleFrame(ctx, ApplyTx(s, acc.taken, tx.core).value, AccBefore(acc, s, tx, bs), tx.core, bs, height);
  }

  lemma {:induction false} PostsStay(
    ctx: Ctx, s: State, owed: Owed, queue: seq<Tx>, items: seq<nat>, height: int, acc: Acc)
    requires Indexes(items, queue)
    ensures var r := ScreenQueue(ctx, s, owed, queue, items, height, acc); r.Done? ==> r.value.0.posts == s.posts
    decreases |items|
  {
    if items != [] {
      var first := ApplyQueuedTx(ctx, s, owed, queue[items[0]], height, acc);
      match first
      case Thrown =>
      case Rejected => PostsStay(ctx, s, owed, queue, items[1..], height, acc);
      case Done(next) =>
        OnePostsStay(ctx, s, acc, queue[items[0]], owed, height, next);
        PostsStay(ctx, next.0, owed, queue, items[1..], height, next.1);
    }
  }

  /** Where every survivor is judged. */
  lemma JudgedAgrees(ctx: Ctx, s: State, block: Block, items: seq<nat>)
    requires ValidCtx(ctx) && Indexes(items, block.queue)
    ensures var survivors := Surviving(block, items);
      var goes := Goes(ctx, s, survivors) && !SettlementCopies(Confirmed(s, survivors).posts, survivors);
      && (RunJudged(ctx, s, block, items, items) == Done({}) ==> goes)
      && (goes && !RunJudged(ctx, s, block, items, items).Thrown? ==>
        RunJudged(ctx, s, block, items, items) == Done({}))
  {
    var survivors := Surviving(block, items);
    var start := Confirmed(s, survivors);
    var cores := CoresOf(survivors.queue);
    RunsAgree(ctx, start, block.queue, items, PayeesOf(ctx, start, cores, block.height), block.height);
    var owed := OwedAlone(ctx, start, survivors.queue, block.height);
    var run := ScreenQueue(ctx, start, owed, block.queue, items, block.height, EmptyAcc(start));
    if run.Done? {
      PostsStay(ctx, start, owed, block.queue, items, block.height, EmptyAcc(start));
      RunRefuses(run.value.0.posts, block, items);
      NothingRefused(items, run.value.1, ScreenWithdrawals(run.value.0.posts, block.queue, items, run.value.1,
          EntriesOf(survivors), block.height));
    }
  }

  lemma EntriesJudged(block: Block, items: seq<nat>)
    requires Indexes(items, block.queue)
    ensures forall tx | tx in Picked(block.queue, items) :: Carries(block.queue, items, tx.core)
  {
    var txs := Picked(block.queue, items);
    forall tx | tx in txs ensures Carries(block.queue, items, tx.core) {
      var k :| 0 <= k < |txs| && txs[k] == tx;
      assert block.queue[items[k]] == tx;
    }
  }

  // ---------------------------------------------------------------------------
  // The screen's answer
  // ---------------------------------------------------------------------------

  /**
   * The survivors' user transactions pass every phase ahead of the settlement; so does their whole body, but where
   * its settlement entry carries a withdrawal that fails.
   */
  lemma SurvivorsApply(ctx: Ctx, s: State, block: Block)
    requires ValidCtx(ctx)
    ensures var r := Screened(ctx, s, block);
      r.Done? ==>
        var survivors := Surviving(block, r.value);
        && Unrefused(ctx, s, survivors)
        && (BodyApplies(ctx, s, survivors) <==> !SettlementFails(Confirmed(s, survivors).posts, survivors))
  {
    var r := Screened(ctx, s, block);
    if r.Done? {
      PassAgrees(ctx, s, block, r.value);
      SettlementAlone(ctx, s, Surviving(block, r.value));
    }
  }

  /** The settlement entry withdraws a post that no earlier block left live or that the body's users withdraw too. */
  predicate SettlementFails(posts: map<PostId, PostRecord>, block: Block) {
    block.settlement.Some? && var payload := block.settlement.value.core.payload;
    && payload.PostWithdraw? && payload.postId in posts
    && (ApplyWithdrawal(posts, block.settlement.value.core, block.height).None?
      || exists i :: 0 <= i < |block.queue| && block.queue[i].core.payload == payload)
  }

  lemma {:induction false} UntouchedPost(
    posts: map<PostId, PostRecord>, entries: seq<Tx>, height: nat, id: PostId)
    requires ApplyWithdrawals(posts, entries, height).Some? && id in posts
    requires forall i | 0 <= i < |entries| :: entries[i].core.payload != PostWithdraw(id)
    ensures var after := ApplyWithdrawals(posts, entries, height).value; id in after && after[id] == posts[id]
    decreases |entries|
  {
    if entries != [] {
      var after := ApplyWithdrawal(posts, entries[0].core, height).value;
      assert after[id] == posts[id];
      assert forall i | 0 <= i < |entries[1..]| :: entries[1..][i] == entries[i + 1];
      UntouchedPost(after, entries[1..], height, id);
    }
  }

  lemma {:induction false} BodyPostsStay(
    ctx: Ctx, s: State, owed: Owed, queue: seq<Tx>, height: int, acc: Acc)
    ensures var r := ApplyQueue(ctx, s, owed, queue, height, acc); r.Done? ==> r.value.0.posts == s.posts
    decreases |queue|
  {
    if queue != [] {
      match ApplyQueuedTx(ctx, s, owed, queue[0], height, acc)
      case Thrown =>
      case Rejected =>
      case Done(next) =>
        OnePostsStay(ctx, s, acc, queue[0], owed, height, next);
        BodyPostsStay(ctx, next.0, owed, queue[1..], height, next.1);
    }
  }

  /** The settlement's own withdrawal, judged after the users'. */
  lemma LastWithdrawal(
    posts: map<PostId, PostRecord>, after: map<PostId, PostRecord>, block: Block)
    requires ApplyWithdrawals(posts, block.queue, block.height) == Some(after)
    ensures ApplyWithdrawals(after, Tail(block.settlement), block.height).Some? <==> !SettlementFails(posts, block)
  {
    if block.settlement.Some? {
      var core := block.settlement.value.core;
      assert Tail(block.settlement)[1..] == [];
      if core.payload.PostWithdraw? && core.payload.postId in posts {
        WithdrawnStays(posts, block.queue, block.height, core.payload.postId);
        if i :| 0 <= i < |block.queue| && block.queue[i].core.payload == core.payload {
          WithdrawsEach(posts, block.queue, block.height, i);
        } else {
          UntouchedPost(posts, block.queue, block.height, core.payload.postId);
        }
      } else if core.payload.PostWithdraw? {
        WithdrawnStays(posts, block.queue, block.height, core.payload.postId);
      }
    }
  }

  lemma SettlementAlone(ctx: Ctx, s: State, block: Block)
    requires ValidCtx(ctx) && UsersApply(ctx, s, block)
    ensures BodyApplies(ctx, s, block) <==> !SettlementFails(Confirmed(s, block).posts, block)
  {
    var start := Confirmed(s, block);
    var cores := CoresOf(block.queue);
    BodyPostsStay(ctx, start, OwedBefore(ctx, start, cores, PayeesOf(ctx, start, cores, block.height), block.height),
      block.queue, block.height, EmptyAcc(start));
    assert EntriesOf(block) == block.queue + Tail(block.settlement);
    WithdrawalsInTwo(start.posts, block.queue, Tail(block.settlement), block.height);
    LastWithdrawal(start.posts, ApplyWithdrawals(start.posts, block.queue, block.height).value, block);
  }

  /** A settlement that withdraws what is not live is the applier's to refuse and nothing to the screen. */
  lemma SettlementUnscreened(ctx: Ctx, s: State, block: Block)
    requires ValidCtx(ctx) && block.queue == [] && SettlementFails(Confirmed(s, block).posts, block)
    ensures Screened(ctx, s, block) == Done([]) && !BodyApplies(ctx, s, block)
  {
    var pass := PassOver(ctx, s, block);
    assert Surviving(block, []) == block;
    assert Goes(ctx, s, block);
    PassAgrees(ctx, s, block, []);
    assert Gated(ctx, block.queue, []) == [];
    assert pass([]) == Done({});
    SettlementAlone(ctx, s, block);
  }
  /** Applying such a block comes down to its settlement, where its cost is inside the budget. */
  lemma AppliesToItsSettlement(ctx: Ctx, s: State, block: Block)
    requires ValidCtx(ctx) && BodyApplies(ctx, s, block) && block.settlement.Some?
    requires forall b | b in block.settlement.value.core.outputs :: SettlementOutputShape(b)
    requires W_SIG * SignatureCount(block.queue) <= MAX_BLOCK_COST
    ensures var start := Confirmed(s, block);
      var body := BodyOutcomeOf(ctx, s, block).value;
      var withdrawn := ApplyWithdrawals(body.0.posts, EntriesOf(block), block.height).value;
      ApplyBlock(ctx, s, block)
        == SettleBlock(ctx, body.0.(posts := withdrawn), body.1,
            CapturedOf(ctx, start, CoresOf(block.queue), block.height), block)
  {
    assert BodyAdmitted(ctx, block);
  }

  // ---------------------------------------------------------------------------
  // From a reachable state
  // ---------------------------------------------------------------------------

  /** What the middle of a pass is owed: everything the judged entries name. */
  ghost predicate Covers(o: Origin, owed: Owed, queue: seq<Tx>, items: seq<nat>)
    requires Indexes(items, queue)
  {
    && (forall k | 0 <= k < |items| :: Members(queue[items[k]].core.inputs) <= o.inputs)
    && TouchedOwners(o.start.boxes, o.inputs) <= owed.Keys
  }

  /** What follows a judged entry's outcome: a refused one leaves the state as it was. */
  ghost function ScreenOn(
    ctx: Ctx, s: State, acc: Acc, first: Outcome<(State, Acc)>, owed: Owed, queue: seq<Tx>, rest: seq<nat>, height: int)
    : Outcome<(State, set<nat>)>
    requires Indexes(rest, queue)
  {
    if first.Done? then ScreenQueue(ctx, first.value.0, owed, queue, rest, height, first.value.1)
    else if first.Rejected? then ScreenQueue(ctx, s, owed, queue, rest, height, acc)
    else Thrown
  }

  lemma {:induction false} ScreenNeverThrows(
    ctx: Ctx, o: Origin, done: seq<TxCore>, s: State, acc: Acc, owed: Owed, queue: seq<Tx>, items: seq<nat>,
    height: int)
    requires Mid(o, done, s, acc) && Indexes(items, queue) && Covers(o, owed, queue, items)
    ensures !ScreenQueue(ctx, s, owed, queue, items, height, acc).Thrown?
    decreases |items|, 1
  {
    if items != [] {
      var tx := queue[items[0]];
      var first := QueueFirst(ctx, o, done, s, acc, tx, owed, height);
      RestNeverThrows(ctx, o, done, s, acc, first, tx.core, owed, queue, items[1..], height);
      ScreenUnrolls(ctx, s, acc, first, owed, queue, items, height);
    }
  }

  lemma ScreenUnrolls(
    ctx: Ctx, s: State, acc: Acc, first: Outcome<(State, Acc)>, owed: Owed, queue: seq<Tx>, items: seq<nat>,
    height: int)
    requires Indexes(items, queue) && items != [] && first == ApplyQueuedTx(ctx, s, owed, queue[items[0]], height, acc)
    ensures !ScreenOn(ctx, s, acc, first, owed, queue, items[1..], height).Thrown? ==>
      !ScreenQueue(ctx, s, owed, queue, items, height, acc).Thrown?
  {
    NeverRejects(ctx, s, owed, queue, items[1..], height, acc);
  }

  lemma {:induction false} RestNeverThrows(
    ctx: Ctx, o: Origin, done: seq<TxCore>, s: State, acc: Acc, first: Outcome<(State, Acc)>, core: TxCore, owed: Owed,
    queue: seq<Tx>, rest: seq<nat>, height: int)
    requires Mid(o, done, s, acc) && Indexes(rest, queue) && Covers(o, owed, queue, rest)
    requires !first.Thrown? && (first.Done? ==> Mid(o, done + [core], first.value.0, first.value.1))
    ensures !ScreenOn(ctx, s, acc, first, owed, queue, rest, height).Thrown?
    decreases |rest|, 2
  {
    if first.Done? {
      ScreenNeverThrows(ctx, o, done + [core], first.value.0, first.value.1, owed, queue, rest, height);
    } else {
      ScreenNeverThrows(ctx, o, done, s, acc, owed, queue, rest, height);
    }
  }

  lemma {:induction false} PickedInputs(queue: seq<Tx>, items: seq<nat>)
    requires Indexes(items, queue)
    ensures forall k | 0 <= k < |items| :: Members(queue[items[k]].core.inputs) <= InputsOf(CoresOf(Picked(queue,
      items)))
  {
    if items != [] {
      var cores := CoresOf(Picked(queue, items));
      assert Picked(queue, items)[1..] == Picked(queue, items[1..]);
      assert cores == [queue[items[0]].core] + CoresOf(Picked(queue, items[1..]));
      PickedInputs(queue, items[1..]);
      forall k | 0 <= k < |items| ensures Members(queue[items[k]].core.inputs) <= InputsOf(cores) {
        assert k > 0 ==> items[k] == items[1..][k - 1];
      }
    }
  }

  lemma JudgedNeverThrows(
    ctx: Ctx, s: State, height: int, applied: set<TxCore>, block: Block, items: seq<nat>, judged: seq<nat>)
    requires ValidCtx(ctx) && Inv(ctx, s, height, applied)
    requires Indexes(items, block.queue) && Indexes(judged, block.queue) && forall i | i in judged :: i in items
    ensures RunJudged(ctx, s, block, items, judged).Done?
  {
    var start := Confirmed(s, Surviving(block, items));
    var txs := Picked(block.queue, judged);
    var o := Origin(start, applied, InputsOf(CoresOf(txs)));
    var owed := OwedAlone(ctx, start, txs, block.height);
    BodyOpens(ctx, start, applied, o.inputs);
    PickedInputs(block.queue, judged);
    assert TouchedOwners(start.boxes, o.inputs) <= owed.Keys;
    ScreenNeverThrows(ctx, o, [], start, EmptyAcc(start), owed, block.queue, judged, block.height);
    NeverRejects(ctx, start, owed, block.queue, judged, block.height, EmptyAcc(start));
  }

  lemma {:induction false} RepeatedEnds(pass: seq<nat> -> Outcome<set<nat>>, items: seq<nat>)
    requires Narrows(pass) && forall some :: pass(some).Done?
    ensures Repeated(pass, items).Done?
    decreases |items|
  {
    if pass(items).value != {} {
      Shrinks(items, pass(items).value);
      RepeatedEnds(pass, Without(items, pass(items).value));
    }
  }

  /** Screening any body over a reachable state answers; no defect is in its way. */
  lemma ScreenAnswers(ctx: Ctx, s: State, height: int, applied: set<TxCore>, block: Block)
    requires ValidCtx(ctx) && Inv(ctx, s, height, applied)
    ensures Screened(ctx, s, block).Done?
  {
    var pass := PassOver(ctx, s, block);
    forall items ensures pass(items).Done? {
      if Indexes(items, block.queue) {
        JudgedNeverThrows(ctx, s, height, applied, block, items, Gated(ctx, block.queue, items));
      }
    }
    RepeatedEnds(pass, UpTo(|block.queue|));
  }

  /**
   * From a reachable state a body is screened of nothing exactly where its user transactions apply up to the
   * settlement and the settlement entry is no copy of one of their withdrawals.
   */
  lemma ScreenedOfNothing(ctx: Ctx, s: State, height: int, applied: set<TxCore>, block: Block)
    requires ValidCtx(ctx) && Inv(ctx, s, height, applied)
    ensures Screened(ctx, s, block) == Done(UpTo(|block.queue|)) <==> Unrefused(ctx, s, block)
  {
    var all := UpTo(|block.queue|);
    var pass := PassOver(ctx, s, block);
    WholeQueue(block.queue);
    assert Surviving(block, all) == block;
    JudgedNeverThrows(ctx, s, height, applied, block, all, Gated(ctx, block.queue, all));
    PassAgrees(ctx, s, block, all);
    assert pass(all) == RunPass(ctx, s, block, all);
    KeepsAllOrFewer(pass, all);
  }

  lemma WholeQueue(queue: seq<Tx>)
    ensures Picked(queue, UpTo(|queue|)) == queue
  {
  }

  /** The passes keep everything exactly where the first refuses nothing. */
  lemma {:induction false} KeepsAllOrFewer(pass: seq<nat> -> Outcome<set<nat>>, items: seq<nat>)
    requires Narrows(pass)
    ensures Repeated(pass, items) == Done(items) <==> pass(items) == Done({})
    ensures Repeated(pass, items).Done? ==> |Repeated(pass, items).value| <= |items|
    decreases |items|
  {
    if pass(items).Done? && pass(items).value != {} {
      Shrinks(items, pass(items).value);
      KeepsAllOrFewer(pass, Without(items, pass(items).value));
    }
  }
}
