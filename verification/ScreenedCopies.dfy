/** The screen's withdrawal arm: whose refusals it makes, and where each refusal is of that transaction alone. */
module ScreenedCopies {
  import opened Wrappers
  import opened Sums
  import opened Ledger
  import opened Engine
  import opened Body
  import opened Blocks
  import opened BlockStep
  import opened Screening

  // ---------------------------------------------------------------------------
  // The arm over the entries it is called for
  // ---------------------------------------------------------------------------

  predicate Callable(calls: seq<Option<nat>>, queue: seq<Tx>) {
    forall k | 0 <= k < |calls| && calls[k].Some? :: calls[k].value < |queue|
  }

  /** The withdrawals called for, in order; one that fails refuses the entry it was called for. */
  function Arm(posts: map<PostId, PostRecord>, queue: seq<Tx>, calls: seq<Option<nat>>, height: nat): (r: set<nat>)
    requires Callable(calls, queue)
    ensures forall i | i in r :: Some(i) in calls
  {
    if calls == [] then {}
    else if calls[0].None? then Arm(posts, queue, calls[1..], height)
    else
      match ApplyWithdrawal(posts, queue[calls[0].value].core, height)
      case None => Arm(posts, queue, calls[1..], height) + {calls[0].value}
      case Some(after) => Arm(after, queue, calls[1..], height)
  }

  predicate Withdraws(posts: map<PostId, PostRecord>, core: TxCore) {
    core.payload.PostWithdraw? && core.payload.postId in posts
  }

  /** An earlier call names the same post. */
  predicate CalledBefore(queue: seq<Tx>, calls: seq<Option<nat>>, k: nat, payload: Payload)
    requires Callable(calls, queue) && k <= |calls|
  {
    exists j :: 0 <= j < k && calls[j].Some? && queue[calls[j].value].core.payload == payload
  }

  /** The call fails: no earlier block left its post live, or an earlier call names the post. */
  predicate FailsAt(posts: map<PostId, PostRecord>, queue: seq<Tx>, calls: seq<Option<nat>>, height: nat, k: nat)
    requires Callable(calls, queue) && k < |calls|
  {
    calls[k].Some? && var core := queue[calls[k].value].core;
    && Withdraws(posts, core)
    && (ApplyWithdrawal(posts, core, height).None? || CalledBefore(queue, calls, k, core.payload))
  }

  lemma CalledLater(queue: seq<Tx>, calls: seq<Option<nat>>, k: nat, payload: Payload)
    requires Callable(calls, queue) && k < |calls|
    ensures CalledBefore(queue, calls, k + 1, payload) <==>
      (calls[0].Some? && queue[calls[0].value].core.payload == payload)
        || CalledBefore(queue, calls[1..], k, payload)
  {
    var rest := calls[1..];
    assert forall j | 0 <= j < |rest| :: rest[j] == calls[j + 1];
    if CalledBefore(queue, calls, k + 1, payload) {
      var j :| 0 <= j < k + 1 && calls[j].Some? && queue[calls[j].value].core.payload == payload;
      assert j > 0 ==> rest[j - 1] == calls[j];
    }
    if CalledBefore(queue, rest, k, payload) {
      var j :| 0 <= j < k && rest[j].Some? && queue[rest[j].value].core.payload == payload;
      assert calls[j + 1] == rest[j];
    }
  }

  lemma FailsLater(
    posts: map<PostId, PostRecord>, after: map<PostId, PostRecord>, queue: seq<Tx>, calls: seq<Option<nat>>,
    height: nat, k: nat)
    requires Callable(calls, queue) && k + 1 < |calls|
    requires after == if calls[0].None? then posts
      else match ApplyWithdrawal(posts, queue[calls[0].value].core, height) case None => posts case Some(a) => a
    ensures FailsAt(posts, queue, calls, height, k + 1) <==> FailsAt(after, queue, calls[1..], height, k)
  {
    assert calls[1..][k] == calls[k + 1];
    if calls[k + 1].Some? {
      CalledLater(queue, calls, k, queue[calls[k + 1].value].core.payload);
    }
  }

  /** An entry is refused exactly where a call for it fails. */
  lemma {:induction false} ArmRefuses(
    posts: map<PostId, PostRecord>, queue: seq<Tx>, calls: seq<Option<nat>>, height: nat, i: nat)
    requires Callable(calls, queue)
    ensures i in Arm(posts, queue, calls, height) <==>
      exists k :: 0 <= k < |calls| && calls[k] == Some(i) && FailsAt(posts, queue, calls, height, k)
    decreases |calls|
  {
    if calls != [] {
      var after := if calls[0].None? then posts
        else match ApplyWithdrawal(posts, queue[calls[0].value].core, height) case None => posts case Some(a) => a;
      var rest := calls[1..];
      ArmRefuses(after, queue, rest, height, i);
      assert FailsAt(posts, queue, calls, height, 0) <==>
        calls[0].Some? && ApplyWithdrawal(posts, queue[calls[0].value].core, height).None?;
      forall k | 0 <= k < |rest|
        ensures rest[k] == calls[k + 1]
        ensures FailsAt(posts, queue, calls, height, k + 1) <==> FailsAt(after, queue, rest, height, k)
      {
        FailsLater(posts, after, queue, calls, height, k);
      }
      if k :| 0 <= k < |calls| && calls[k] == Some(i) && FailsAt(posts, queue, calls, height, k) {
        if k > 0 {
          assert rest[k - 1] == Some(i) && FailsAt(after, queue, rest, height, k - 1);
        }
      }
      if k :| 0 <= k < |rest| && rest[k] == Some(i) && FailsAt(after, queue, rest, height, k) {
        assert calls[k + 1] == Some(i) && FailsAt(posts, queue, calls, height, k + 1);
      }
    }
  }

  // ---------------------------------------------------------------------------
  // Whom an entry calls for
  // ---------------------------------------------------------------------------

  predicate Applied(judged: seq<nat>, refused: set<nat>, i: nat) { i in judged && i !in refused }

  /** The last judged copy of the transaction, unless the queue refused that one. */
  function CallOf(queue: seq<Tx>, judged: seq<nat>, refused: set<nat>, core: TxCore): (call: Option<nat>)
    requires Indexes(judged, queue)
    ensures call.Some? ==>
      call.value < |queue| && queue[call.value].core == core && Applied(judged, refused, call.value)
  {
    var index := IndexOf(queue, judged, core);
    if index.Some? && index.value !in refused then index else None
  }

  function CallsOf(queue: seq<Tx>, judged: seq<nat>, refused: set<nat>, entries: seq<Tx>): (calls: seq<Option<nat>>)
    requires Indexes(judged, queue)
    ensures |calls| == |entries| && Callable(calls, queue)
    ensures forall k | 0 <= k < |calls| :: calls[k] == CallOf(queue, judged, refused, entries[k].core)
  {
    if entries == [] then []
    else [CallOf(queue, judged, refused, entries[0].core)] + CallsOf(queue, judged, refused, entries[1..])
  }

  lemma {:induction false} ArmIsScreened(
    posts: map<PostId, PostRecord>, queue: seq<Tx>, judged: seq<nat>, refused: set<nat>, entries: seq<Tx>, height: nat)
    requires Indexes(judged, queue)
    ensures ScreenWithdrawals(posts, queue, judged, refused, entries, height)
      == Arm(posts, queue, CallsOf(queue, judged, refused, entries), height)
    decreases |entries|
  {
    if entries != [] {
      var calls := CallsOf(queue, judged, refused, entries);
      assert calls[1..] == CallsOf(queue, judged, refused, entries[1..]);
      var after := ApplyWithdrawal(posts, entries[0].core, height);
      ArmIsScreened(if calls[0].Some? && after.Some? then after.value else posts, queue, judged, refused, entries[1..],
        height);
    }
  }

  /** Each applied entry calling for itself alone: what refusing a transaction alone asks of the arm. */
  function OwnCalls(items: seq<nat>, judged: seq<nat>, refused: set<nat>, count: nat): (calls: seq<Option<nat>>)
    ensures |calls| == count
    ensures forall k | 0 <= k < count ::
      calls[k] == if k < |items| && Applied(judged, refused, items[k]) then Some(items[k]) else None
  {
    seq(count, k requires 0 <= k =>
      if k < |items| && Applied(judged, refused, items[k]) then Some(items[k]) else None)
  }

  /** A judged entry after which no copy of it is judged. */
  predicate LastJudged(queue: seq<Tx>, judged: seq<nat>, i: nat)
    requires Indexes(judged, queue) && i < |queue|
  {
    exists k :: 0 <= k < |judged| && judged[k] == i && NoneAfter(queue, judged, k, queue[i].core)
  }

  predicate NoneAfter(queue: seq<Tx>, judged: seq<nat>, k: nat, core: TxCore)
    requires Indexes(judged, queue)
  {
    forall l | k < l < |judged| :: queue[judged[l]].core != core
  }

  lemma {:induction false} IndexIsLast(queue: seq<Tx>, judged: seq<nat>, i: nat)
    requires Indexes(judged, queue) && i < |queue|
    ensures IndexOf(queue, judged, queue[i].core) == Some(i) <==> LastJudged(queue, judged, i)
    decreases |judged|
  {
    if judged != [] {
      var core, rest := queue[i].core, judged[1..];
      assert forall l | 0 <= l < |rest| :: rest[l] == judged[l + 1];
      IndexIsLast(queue, rest, i);
      if LastJudged(queue, rest, i) {
        var k :| 0 <= k < |rest| && rest[k] == i && NoneAfter(queue, rest, k, core);
        assert judged[k + 1] == i && NoneAfter(queue, judged, k + 1, core);
      }
      if LastJudged(queue, judged, i) {
        var k :| 0 <= k < |judged| && judged[k] == i && NoneAfter(queue, judged, k, core);
        if k > 0 {
          assert rest[k - 1] == i && NoneAfter(queue, rest, k - 1, core);
        } else {
          assert forall l | 0 <= l < |rest| :: queue[rest[l]].core != core;
        }
      }
      if IndexOf(queue, judged, core) == Some(i) && IndexOf(queue, rest, core).None? {
        assert judged[0] == i && NoneAfter(queue, judged, 0, core);
      }
    }
  }

  // ---------------------------------------------------------------------------
  // Whom a pass refuses
  // ---------------------------------------------------------------------------

  /** A pass's run, over those of its entries the gate lets through. */
  ghost function PassRun(ctx: Ctx, s: State, block: Block, items: seq<nat>): (r: Outcome<(State, set<nat>)>)
    requires ValidCtx(ctx) && Indexes(items, block.queue)
  {
    JudgedRun(ctx, s, block, items, Gated(ctx, block.queue, items))
  }

  /** The run went through; `refused` is what it refused. */
  ghost predicate RanTo(ctx: Ctx, s: State, block: Block, items: seq<nat>, refused: set<nat>)
    requires ValidCtx(ctx) && Indexes(items, block.queue)
  {
    var run := PassRun(ctx, s, block, items);
    run.Done? && run.value.1 == refused
  }

  ghost function PassPosts(s: State, block: Block, items: seq<nat>): map<PostId, PostRecord>
    requires Indexes(items, block.queue)
  {
    Confirmed(s, Surviving(block, items)).posts
  }

  /** Another entry calls for the withdrawal of the same post: any copy of this one, or what stands before it. */
  predicate CalledBeside(block: Block, items: seq<nat>, judged: seq<nat>, refused: set<nat>, k: nat)
    requires Indexes(items, block.queue) && Indexes(judged, block.queue) && k < |items|
  {
    var entries, core := EntriesOf(Surviving(block, items)), block.queue[items[k]].core;
    exists p :: 0 <= p < |entries| && p != k && CallOf(block.queue, judged, refused, entries[p].core).Some?
      && entries[p].core.payload == core.payload && (p < k || entries[p].core == core)
  }

  /** The arm refuses an applied entry that is the last judged of its copies and fails, alone or for another call. */
  predicate ArmFails(
    posts: map<PostId, PostRecord>, block: Block, items: seq<nat>, judged: seq<nat>, refused: set<nat>, k: nat)
    requires Indexes(items, block.queue) && Indexes(judged, block.queue) && k < |items|
  {
    var i := items[k];
    && Applied(judged, refused, i) && LastJudged(block.queue, judged, i) && Withdraws(posts, block.queue[i].core)
    && (ApplyWithdrawal(posts, block.queue[i].core, block.height).None?
      || CalledBeside(block, items, judged, refused, k))
  }

  /** An applied entry's own withdrawal fails, the applied ones before it withdrawn. */
  predicate OwnFails(
    posts: map<PostId, PostRecord>, block: Block, items: seq<nat>, judged: seq<nat>, refused: set<nat>, k: nat)
    requires Indexes(items, block.queue) && k < |items|
  {
    var core := block.queue[items[k]].core;
    && Applied(judged, refused, items[k]) && Withdraws(posts, core)
    && (ApplyWithdrawal(posts, core, block.height).None? || (exists j ::
      0 <= j < k && Applied(judged, refused, items[j]) && block.queue[items[j]].core.payload == core.payload))
  }

  lemma EntryAt(block: Block, items: seq<nat>, k: nat)
    requires Indexes(items, block.queue) && k < |items|
    ensures k < |EntriesOf(Surviving(block, items))| && EntriesOf(Surviving(block, items))[k] == block.queue[items[k]]
  {
  }

  /** The arm's refusal of one entry, exactly. */
  lemma ArmExactly(
    posts: map<PostId, PostRecord>, block: Block, items: seq<nat>, judged: seq<nat>, refused: set<nat>, k: nat)
    requires Indexes(items, block.queue) && Indexes(judged, block.queue) && k < |items|
    ensures items[k] in ScreenWithdrawals(posts, block.queue, judged, refused, EntriesOf(Surviving(block, items)),
      block.height)
      <==> ArmFails(posts, block, items, judged, refused, k)
  {
    var entries, i := EntriesOf(Surviving(block, items)), items[k];
    var calls := CallsOf(block.queue, judged, refused, entries);
    EntryAt(block, items, k);
    ArmIsScreened(posts, block.queue, judged, refused, entries, block.height);
    ArmRefuses(posts, block.queue, calls, block.height, i);
    IndexIsLast(block.queue, judged, i);
    if i in Arm(posts, block.queue, calls, block.height) {
      var q :| 0 <= q < |calls| && calls[q] == Some(i) && FailsAt(posts, block.queue, calls, block.height, q);
      FailedCall(posts, block, items, judged, refused, k, q);
    }
    if ArmFails(posts, block, items, judged, refused, k) {
      var q := CallFails(posts, block, items, judged, refused, k);
      assert calls[q] == Some(i) && FailsAt(posts, block.queue, calls, block.height, q);
    }
  }

  lemma FailedCall(
    posts: map<PostId, PostRecord>, block: Block, items: seq<nat>, judged: seq<nat>, refused: set<nat>, k: nat, q: nat)
    requires Indexes(items, block.queue) && Indexes(judged, block.queue) && k < |items|
    requires var calls := CallsOf(block.queue, judged, refused, EntriesOf(Surviving(block, items)));
      q < |calls| && calls[q] == Some(items[k]) && FailsAt(posts, block.queue, calls, block.height, q)
    ensures ArmFails(posts, block, items, judged, refused, k)
  {
    var entries, i := EntriesOf(Surviving(block, items)), items[k];
    var core := block.queue[i].core;
    var calls := CallsOf(block.queue, judged, refused, entries);
    IndexIsLast(block.queue, judged, i);
    assert entries[q].core == core;
    if ApplyWithdrawal(posts, core, block.height).Some? {
      var j :| 0 <= j < q && calls[j].Some? && block.queue[calls[j].value].core.payload == core.payload;
      var p := if q != k then q else j;
      assert p != k && CallOf(block.queue, judged, refused, entries[p].core) == calls[p];
      assert entries[p].core.payload == core.payload && (p < k || entries[p].core == core);
    }
  }

  lemma CallFails(
    posts: map<PostId, PostRecord>, block: Block, items: seq<nat>, judged: seq<nat>, refused: set<nat>, k: nat)
    returns (q: nat)
    requires Indexes(items, block.queue) && Indexes(judged, block.queue) && k < |items|
    requires ArmFails(posts, block, items, judged, refused, k)
    ensures var calls := CallsOf(block.queue, judged, refused, EntriesOf(Surviving(block, items)));
      q < |calls| && calls[q] == Some(items[k]) && FailsAt(posts, block.queue, calls, block.height, q)
  {
    var entries, i := EntriesOf(Surviving(block, items)), items[k];
    var core := block.queue[i].core;
    var calls := CallsOf(block.queue, judged, refused, entries);
    EntryAt(block, items, k);
    IndexIsLast(block.queue, judged, i);
    assert calls[k] == Some(i);
    if ApplyWithdrawal(posts, core, block.height).None? {
      q := k;
    } else {
      var p :| 0 <= p < |entries| && p != k && CallOf(block.queue, judged, refused, entries[p].core).Some?
        && entries[p].core.payload == core.payload && (p < k || entries[p].core == core);
      assert calls[p].Some? && block.queue[calls[p].value].core.payload == core.payload;
      q := if p < k then k else p;
      assert calls[q] == Some(i);
      assert CalledBefore(block.queue, calls, q, core.payload);
    }
  }

  lemma RunPosts(ctx: Ctx, s: State, block: Block, items: seq<nat>)
    requires ValidCtx(ctx) && Indexes(items, block.queue) && PassRun(ctx, s, block, items).Done?
    ensures PassRun(ctx, s, block, items).value.0.posts == PassPosts(s, block, items)
  {
    var judged := Gated(ctx, block.queue, items);
    var start := Confirmed(s, Surviving(block, items));
    PostsStay(ctx, start, OwedAlone(ctx, start, Picked(block.queue, judged), block.height), block.queue, judged,
      block.height, EmptyAcc(start));
  }

  /**
   * Whom a pass refuses, exactly: an entry the gate stops, one the queue refuses, and an applied one, the last judged
   * of its copies, whose withdrawal fails or is called for beside it.
   */
  lemma PassRefuses(ctx: Ctx, s: State, block: Block, items: seq<nat>, refused: set<nat>, k: nat)
    requires ValidCtx(ctx) && Indexes(items, block.queue) && k < |items| && RanTo(ctx, s, block, items, refused)
    ensures RunPass(ctx, s, block, items).Done?
    ensures items[k] in RunPass(ctx, s, block, items).value <==>
      || !Gate(ctx, block.queue[items[k]])
      || items[k] in refused
      || ArmFails(PassPosts(s, block, items), block, items, Gated(ctx, block.queue, items), refused, k)
  {
    var judged := Gated(ctx, block.queue, items);
    RunPosts(ctx, s, block, items);
    ArmExactly(PassPosts(s, block, items), block, items, judged, refused, k);
    assert items[k] in Members(items);
    assert items[k] in Members(judged) <==> Gate(ctx, block.queue[items[k]]);
  }

  /**
   * An applied entry whose own withdrawal succeeds is refused exactly where it is the last judged of its copies and
   * its withdrawal is called for beside it.
   */
  lemma RefusedBeside(ctx: Ctx, s: State, block: Block, items: seq<nat>, refused: set<nat>, k: nat)
    requires ValidCtx(ctx) && Indexes(items, block.queue) && k < |items| && RanTo(ctx, s, block, items, refused)
    requires var judged := Gated(ctx, block.queue, items);
      && Applied(judged, refused, items[k])
      && Withdraws(PassPosts(s, block, items), block.queue[items[k]].core)
      && !OwnFails(PassPosts(s, block, items), block, items, judged, refused, k)
    ensures var judged := Gated(ctx, block.queue, items);
      items[k] in RunPass(ctx, s, block, items).value <==>
        LastJudged(block.queue, judged, items[k]) && CalledBeside(block, items, judged, refused, k)
  {
    PassRefuses(ctx, s, block, items, refused, k);
  }

  /** No two different transactions of the pass withdraw one post. */
  ghost predicate OneWithdrawalEach(entries: seq<Tx>) {
    forall p, q | 0 <= p < |entries| && 0 <= q < |entries| && entries[p].core.payload.PostWithdraw?
      && entries[p].core.payload == entries[q].core.payload :: entries[p].core == entries[q].core
  }

  /** So, where one transaction withdraws a post, an entry is refused beside exactly where another copy stands. */
  lemma RefusedWithACopy(ctx: Ctx, s: State, block: Block, items: seq<nat>, refused: set<nat>, k: nat)
    requires ValidCtx(ctx) && Indexes(items, block.queue) && k < |items| && RanTo(ctx, s, block, items, refused)
    requires var judged := Gated(ctx, block.queue, items);
      && Applied(judged, refused, items[k])
      && Withdraws(PassPosts(s, block, items), block.queue[items[k]].core)
      && !OwnFails(PassPosts(s, block, items), block, items, judged, refused, k)
    requires OneWithdrawalEach(EntriesOf(Surviving(block, items)))
    ensures var entries := EntriesOf(Surviving(block, items));
      items[k] in RunPass(ctx, s, block, items).value <==>
        && LastJudged(block.queue, Gated(ctx, block.queue, items), items[k])
        && exists p :: 0 <= p < |entries| && p != k && entries[p].core == block.queue[items[k]].core
  {
    var entries, core := EntriesOf(Surviving(block, items)), block.queue[items[k]].core;
    var judged := Gated(ctx, block.queue, items);
    RefusedBeside(ctx, s, block, items, refused, k);
    EntryAt(block, items, k);
    IndexIsLast(block.queue, judged, items[k]);
    if LastJudged(block.queue, judged, items[k]) {
      if p :| 0 <= p < |entries| && p != k && entries[p].core == core {
        assert CallOf(block.queue, judged, refused, entries[p].core) == Some(items[k]);
      }
    }
  }

  // ---------------------------------------------------------------------------
  // Refused alone
  // ---------------------------------------------------------------------------

  /** What a pass would refuse, each transaction for its own gate, its own verdict and its own withdrawal. */
  ghost function AlonePass(ctx: Ctx, s: State, block: Block, items: seq<nat>): (r: Outcome<set<nat>>)
    requires ValidCtx(ctx) && Indexes(items, block.queue)
    ensures !r.Rejected? && (r.Done? ==> r.value <= Members(items))
  {
    var judged := Gated(ctx, block.queue, items);
    match PassRun(ctx, s, block, items)
    case Done(run) =>
      var calls := OwnCalls(items, judged, run.1, |items|);
      var arm := Arm(PassPosts(s, block, items), block.queue, calls, block.height);
      assert arm <= Members(items);
      Done((Members(items) - Members(judged)) + run.1 + arm)
    case _ => Thrown
  }

  lemma AloneRefuses(ctx: Ctx, s: State, block: Block, items: seq<nat>, refused: set<nat>, k: nat)
    requires ValidCtx(ctx) && Indexes(items, block.queue) && k < |items| && RanTo(ctx, s, block, items, refused)
    requires Distinct(items)
    ensures AlonePass(ctx, s, block, items).Done?
    ensures items[k] in AlonePass(ctx, s, block, items).value <==>
      || !Gate(ctx, block.queue[items[k]])
      || items[k] in refused
      || OwnFails(PassPosts(s, block, items), block, items, Gated(ctx, block.queue, items), refused, k)
  {
    var posts, judged := PassPosts(s, block, items), Gated(ctx, block.queue, items);
    var calls := OwnCalls(items, judged, refused, |items|);
    ArmRefuses(posts, block.queue, calls, block.height, items[k]);
    OwnCallFails(posts, block, items, judged, refused, k);
    assert items[k] in Members(items);
    assert items[k] in Members(judged) <==> Gate(ctx, block.queue[items[k]]);
    forall q | 0 <= q < |calls| && calls[q] == Some(items[k]) ensures q == k {
      assert items[q] == items[k];
    }
  }

  lemma OwnCallFails(
    posts: map<PostId, PostRecord>, block: Block, items: seq<nat>, judged: seq<nat>, refused: set<nat>, k: nat)
    requires Indexes(items, block.queue) && Indexes(judged, block.queue) && k < |items|
    ensures var calls := OwnCalls(items, judged, refused, |items|);
      calls[k] == Some(items[k]) && FailsAt(posts, block.queue, calls, block.height, k) <==>
        OwnFails(posts, block, items, judged, refused, k)
  {
    var calls := OwnCalls(items, judged, refused, |items|);
    var payload := block.queue[items[k]].core.payload;
    if CalledBefore(block.queue, calls, k, payload) {
      var j :| 0 <= j < k && calls[j].Some? && block.queue[calls[j].value].core.payload == payload;
      assert calls[j] == Some(items[j]);
    }
    if j :| 0 <= j < k && Applied(judged, refused, items[j]) && block.queue[items[j]].core.payload == payload {
      assert calls[j] == Some(items[j]);
    }
  }

  /** The indexes of a pass: each once, all of the body's. */
  ghost predicate Stands(block: Block, items: seq<nat>) {
    Indexes(items, block.queue) && Distinct(items)
  }

  lemma {:induction false} KeptStands(block: Block, items: seq<nat>, refused: set<nat>)
    requires Stands(block, items)
    ensures Stands(block, Without(items, refused))
    decreases |items|
  {
    if items != [] {
      var rest := Without(items[1..], refused);
      KeptStands(block, items[1..], refused);
      forall k | 0 <= k < |rest| ensures rest[k] != items[0] {
        assert rest[k] in items[1..];
      }
    }
  }

  /** An applied entry whose own withdrawal succeeds is the last judged of its copies, and is called for beside. */
  ghost predicate Disturbed(ctx: Ctx, s: State, block: Block, items: seq<nat>, refused: set<nat>, k: nat)
    requires Indexes(items, block.queue) && k < |items|
  {
    var posts, judged := PassPosts(s, block, items), Gated(ctx, block.queue, items);
    && Applied(judged, refused, items[k]) && Withdraws(posts, block.queue[items[k]].core)
    && !OwnFails(posts, block, items, judged, refused, k)
    && LastJudged(block.queue, judged, items[k]) && CalledBeside(block, items, judged, refused, k)
  }

  ghost predicate Undisturbed(ctx: Ctx, s: State, block: Block, items: seq<nat>)
    requires ValidCtx(ctx) && Indexes(items, block.queue)
  {
    var run := PassRun(ctx, s, block, items);
    run.Done? ==> forall k | 0 <= k < |items| :: !Disturbed(ctx, s, block, items, run.value.1, k)
  }

  /** Each refusal of the pass is of that transaction alone. */
  ghost predicate RefusesAlone(ctx: Ctx, s: State, block: Block, items: seq<nat>)
    requires ValidCtx(ctx) && Indexes(items, block.queue)
  {
    RunPass(ctx, s, block, items).Done? && AlonePass(ctx, s, block, items).Done? ==>
      RunPass(ctx, s, block, items).value <= AlonePass(ctx, s, block, items).value
  }

  /** A pass refuses each transaction alone exactly where it holds no disturbed entry. */
  lemma RefusesAloneExactly(ctx: Ctx, s: State, block: Block, items: seq<nat>)
    requires ValidCtx(ctx) && Stands(block, items)
    ensures RefusesAlone(ctx, s, block, items) <==> Undisturbed(ctx, s, block, items)
  {
    var run := PassRun(ctx, s, block, items);
    if run.Done? {
      var pass, alone := RunPass(ctx, s, block, items).value, AlonePass(ctx, s, block, items).value;
      forall k | 0 <= k < |items|
        ensures Disturbed(ctx, s, block, items, run.value.1, k) <==> items[k] in pass && items[k] !in alone
      {
        PassRefuses(ctx, s, block, items, run.value.1, k);
        AloneRefuses(ctx, s, block, items, run.value.1, k);
      }
      forall i | i in pass ensures exists k :: 0 <= k < |items| && items[k] == i {
        assert i in Members(items);
      }
    }
  }

  /** What holds of every list of survivors the passes are given. */
  ghost predicate AtEveryPass(pass: seq<nat> -> Outcome<set<nat>>, items: seq<nat>, holds: seq<nat> -> bool)
    requires Narrows(pass)
    decreases |items|
  {
    && holds(items)
    && if pass(items).Done? && pass(items).value != {} then
        Shrinks(items, pass(items).value);
        AtEveryPass(pass, Without(items, pass(items).value), holds)
      else true
  }

  lemma {:induction false} SameAtEveryPass(
    block: Block, pass: seq<nat> -> Outcome<set<nat>>, items: seq<nat>, holds: seq<nat> -> bool,
    same: seq<nat> -> bool)
    requires Narrows(pass) && Stands(block, items) && forall some | Stands(block, some) :: holds(some) == same(some)
    ensures AtEveryPass(pass, items, holds) <==> AtEveryPass(pass, items, same)
    decreases |items|
  {
    if pass(items).Done? && pass(items).value != {} {
      Shrinks(items, pass(items).value);
      KeptStands(block, items, pass(items).value);
      SameAtEveryPass(block, pass, Without(items, pass(items).value), holds, same);
    }
  }

  /** A screen refuses each transaction alone exactly where none of its passes holds a disturbed entry. */
  lemma RefusedAloneExactly(ctx: Ctx, s: State, block: Block)
    requires ValidCtx(ctx)
    ensures var pass, all := PassOver(ctx, s, block), UpTo(|block.queue|);
      var alone := (items: seq<nat>) => Indexes(items, block.queue) && RefusesAlone(ctx, s, block, items);
      var undisturbed := (items: seq<nat>) => Indexes(items, block.queue) && Undisturbed(ctx, s, block, items);
      AtEveryPass(pass, all, alone) <==> AtEveryPass(pass, all, undisturbed)
  {
    forall items | Stands(block, items)
      ensures RefusesAlone(ctx, s, block, items) == Undisturbed(ctx, s, block, items)
    {
      RefusesAloneExactly(ctx, s, block, items);
    }
    SameAtEveryPass(block, PassOver(ctx, s, block), UpTo(|block.queue|),
      items => Indexes(items, block.queue) && RefusesAlone(ctx, s, block, items),
      items => Indexes(items, block.queue) && Undisturbed(ctx, s, block, items));
  }

  /** No transaction stands twice in the body, its settlement entry among them. */
  ghost predicate NoCopies(entries: seq<Tx>) {
    forall p, q | 0 <= p < |entries| && 0 <= q < |entries| && entries[p].core == entries[q].core :: p == q
  }

  lemma CallsAreOwn(block: Block, items: seq<nat>, judged: seq<nat>, refused: set<nat>)
    requires Stands(block, items) && NoCopies(EntriesOf(block))
    requires Indexes(judged, block.queue) && forall i | i in judged :: i in items
    ensures var entries := EntriesOf(Surviving(block, items));
      CallsOf(block.queue, judged, refused, entries) == OwnCalls(items, judged, refused, |entries|)
  {
    var entries := EntriesOf(Surviving(block, items));
    forall k | 0 <= k < |entries|
      ensures CallOf(block.queue, judged, refused, entries[k].core)
        == if k < |items| && Applied(judged, refused, items[k]) then Some(items[k]) else None
    {
      var at := if k < |items| then items[k] else |block.queue|;
      assert EntriesOf(block)[at].core == entries[k].core;
      forall i: nat | i < |block.queue| && block.queue[i].core == entries[k].core ensures i == at {
        assert EntriesOf(block)[i] == block.queue[i];
      }
      if at in judged {
        var l :| 0 <= l < |judged| && judged[l] == at;
        assert block.queue[judged[l]].core == entries[k].core;
      }
    }
  }

  /** The settlement calling for nothing, the calls end with the users'. */
  lemma {:induction false} EndsWithUsers(
    posts: map<PostId, PostRecord>, queue: seq<Tx>, calls: seq<Option<nat>>, height: nat)
    requires Callable(calls, queue)
    ensures Arm(posts, queue, calls + [None], height) == Arm(posts, queue, calls, height)
    decreases |calls|
  {
    var all := calls + [None];
    if calls == [] {
      assert all[1..] == [];
    } else {
      assert all[0] == calls[0] && all[1..] == calls[1..] + [None];
      var after := if calls[0].Some? then ApplyWithdrawal(posts, queue[calls[0].value].core, height) else None;
      EndsWithUsers(if after.Some? then after.value else posts, queue, calls[1..], height);
    }
  }

  lemma OwnArm(
    posts: map<PostId, PostRecord>, block: Block, items: seq<nat>, judged: seq<nat>, refused: set<nat>)
    requires Stands(block, items) && NoCopies(EntriesOf(block))
    requires Indexes(judged, block.queue) && forall i | i in judged :: i in items
    ensures ScreenWithdrawals(posts, block.queue, judged, refused, EntriesOf(Surviving(block, items)), block.height)
      == Arm(posts, block.queue, OwnCalls(items, judged, refused, |items|), block.height)
  {
    var entries := EntriesOf(Surviving(block, items));
    ArmIsScreened(posts, block.queue, judged, refused, entries, block.height);
    CallsAreOwn(block, items, judged, refused);
    var calls := OwnCalls(items, judged, refused, |items|);
    if block.settlement.Some? {
      assert OwnCalls(items, judged, refused, |entries|) == calls + [None];
      EndsWithUsers(posts, block.queue, calls, block.height);
    } else {
      assert OwnCalls(items, judged, refused, |entries|) == calls;
    }
  }

  lemma PassIsAlone(ctx: Ctx, s: State, block: Block, items: seq<nat>)
    requires ValidCtx(ctx) && Stands(block, items) && NoCopies(EntriesOf(block))
    ensures RunPass(ctx, s, block, items) == AlonePass(ctx, s, block, items)
  {
    var run := PassRun(ctx, s, block, items);
    if run.Done? {
      RunPosts(ctx, s, block, items);
      OwnArm(PassPosts(s, block, items), block, items, Gated(ctx, block.queue, items), run.value.1);
    }
  }

  ghost function AloneOver(ctx: Ctx, s: State, block: Block): (pass: seq<nat> -> Outcome<set<nat>>)
    requires ValidCtx(ctx)
    ensures Narrows(pass)
  {
    (items: seq<nat>) => if Indexes(items, block.queue) then AlonePass(ctx, s, block, items) else Done({})
  }

  lemma {:induction false} RepeatedAlone(ctx: Ctx, s: State, block: Block, items: seq<nat>)
    requires ValidCtx(ctx) && Stands(block, items) && NoCopies(EntriesOf(block))
    ensures Repeated(PassOver(ctx, s, block), items) == Repeated(AloneOver(ctx, s, block), items)
    decreases |items|
  {
    PassIsAlone(ctx, s, block, items);
    var pass := RunPass(ctx, s, block, items);
    assert PassOver(ctx, s, block)(items) == pass && AloneOver(ctx, s, block)(items) == pass;
    if pass.Done? && pass.value != {} {
      Shrinks(items, pass.value);
      KeptStands(block, items, pass.value);
      RepeatedAlone(ctx, s, block, Without(items, pass.value));
    }
  }

  /** A body in which no transaction stands twice is screened of each refused transaction alone. */
  lemma ScreenedAlone(ctx: Ctx, s: State, block: Block)
    requires ValidCtx(ctx) && NoCopies(EntriesOf(block))
    ensures Screened(ctx, s, block) == Repeated(AloneOver(ctx, s, block), UpTo(|block.queue|))
  {
    RepeatedAlone(ctx, s, block, UpTo(|block.queue|));
  }
}
