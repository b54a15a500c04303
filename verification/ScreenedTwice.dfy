/** Two bodies that carry one withdrawal twice, and are screened of both though it applies alone. */
module ScreenedTwice {
  import opened Wrappers
  import opened Sums
  import opened Ledger
  import opened Engine
  import opened Body
  import opened Applying
  import opened Invariant
  import opened Blocks
  import opened BlockStep
  import opened Screening
  import opened ScreenedCopies

  const OWNER: Key := 7
  const POST: PostId := UnknownPost(0)
  const KARMA: Box := Karma(10, 0, OWNER, false)

  /** The owner's karma spent into itself, to withdraw the owner's post. */
  const WITHDRAWAL: TxCore := TxCore([Seed(0)], [KARMA], PostWithdraw(POST))

  const SIGNED: Tx := Tx(WITHDRAWAL, map[OWNER := 1])
  const MISSIGNED: Tx := Tx(WITHDRAWAL, map[OWNER := 0])
  const UNSIGNED: Tx := Tx(WITHDRAWAL, map[])

  /** A profile under which the signature 1 verifies and no other does. */
  function Profile(): (ctx: Ctx)
    ensures ValidCtx(ctx)
  {
    Ctx(1, 1, 1, 1, 1, 1, 1, 1, 0, 1, 1, 1, (core, key, signature) => signature == 1, (id, box) => 0, (core, i) => 0,
      name => name, name => true, id => 0)
  }

  function Start(): State {
    State(map[Seed(0) := KARMA], map[OWNER := EMPTY_IDENTITY_RECORD], 0, map[], map[],
      map[POST := PostRecord(OWNER, 0, true)], {})
  }

  function Carrying(queue: seq<Tx>): Block {
    Block(1, OWNER, queue, Some(Tx(TxCore([], [], NoPayload), map[])))
  }

  lemma StartIsReachable()
    ensures Inv(Profile(), Start(), 0, {})
  {
    var s := Start();
    MapSumNothing(s.boxes, WeightOf());
    MapSumNothing(s.records, MemberWeight());
    MapSumNothing(s.boxes, VouchWeight(s.records, OWNER));
    assert BoxesOk(Profile(), s);
    assert StandingOk(s, 0);
    assert Historied(s.boxes, {});
  }

  /** The signed withdrawal is valid, whatever is owed. */
  lemma SignedIsValid(owed: Owed)
    ensures ValidateTx(Profile(), Start(), owed, SIGNED, 1) == Valid
  {
    var ctx, s := Profile(), Start();
    var bs := ValuesAt(s.boxes, WITHDRAWAL.inputs);
    assert bs == [KARMA];
    assert InputTypesOk(bs) && BoxesFit(ctx, SIGNED, bs, 1);
    assert WellFormed(ctx, s, SIGNED, 1);
    WithdrawalGoes(owed);
  }

  lemma WithdrawalGoes(owed: Owed)
    ensures InputTypesOk([KARMA]) && Transition(Profile(), Start(), owed, SIGNED, [KARMA], 1) == Valid
  {
    var ctx, s, bs := Profile(), Start(), [KARMA];
    assert bs[1..] == [];
    assert CountOf(bs, IsUsername) == 0 && CountOf(bs, IsKarma) == 1 && CountOf(bs, IsAccrual) == 0;
    assert SeqSum(bs[1..], SpendWeight()) == 0 && SpendWeight()(KARMA) == 0;
    assert SpendOf(bs) == 0;
    assert KarmaChangeOk(s, OWNER, WITHDRAWAL, bs);
    assert WithdrawShape(s, OWNER, bs, POST);
  }

  /** It is not refused, and a copy without a signature is. */
  lemma SignedApplies(owed: Owed)
    ensures !ApplyQueuedTx(Profile(), Start(), owed, SIGNED, 1, EmptyAcc(Start())).Rejected?
    ensures ApplyQueuedTx(Profile(), Start(), owed, UNSIGNED, 1, EmptyAcc(Start())).Rejected?
  {
    SignedIsValid(owed);
    assert CountOf(WITHDRAWAL.outputs, IsBond) == 0;
    var bs := ValuesAt(Start().boxes, WITHDRAWAL.inputs);
    assert bs == [KARMA] && KARMA in bs;
    assert SignerOf(Profile(), KARMA, UNSIGNED, 1) == By(OWNER);
    assert !Authorized(Profile(), UNSIGNED, bs, 1);
  }

  lemma {:induction false} NothingConfirmed(posts: map<PostId, PostRecord>, entries: seq<Tx>, height: nat)
    requires forall tx | tx in entries :: !tx.core.payload.Post?
    ensures ConfirmPosts(posts, entries, height) == posts
    decreases |entries|
  {
    if entries != [] {
      NothingConfirmed(posts, entries[1..], height);
    }
  }

  lemma ConfirmsNothing(queue: seq<Tx>, items: seq<nat>)
    requires Indexes(items, queue) && forall tx | tx in queue :: tx.core == WITHDRAWAL
    ensures Confirmed(Start(), Surviving(Carrying(queue), items)) == Start()
  {
    NothingConfirmed(Start().posts, EntriesOf(Surviving(Carrying(queue), items)), 1);
  }

  lemma RunAnswers(queue: seq<Tx>, items: seq<nat>, judged: seq<nat>)
    requires Indexes(items, queue) && Indexes(judged, queue) && forall i | i in judged :: i in items
    ensures JudgedRun(Profile(), Start(), Carrying(queue), items, judged).Done?
  {
    StartIsReachable();
    JudgedNeverThrows(Profile(), Start(), 0, {}, Carrying(queue), items, judged);
  }

  lemma QueueRuns(queue: seq<Tx>, owed: Owed)
    requires queue != []
    ensures var run := ScreenQueue(Profile(), Start(), owed, queue, [0], 1, EmptyAcc(Start()));
      queue[0] == SIGNED && run.Done? ==> run.value.1 == {}
    ensures queue == [UNSIGNED, SIGNED] ==>
      var run := ScreenQueue(Profile(), Start(), owed, queue, [0, 1], 1, EmptyAcc(Start()));
      run.Done? ==> run.value.1 == {0}
  {
    SignedApplies(owed);
    assert [0][1..] == [];
    if queue == [UNSIGNED, SIGNED] {
      assert [0, 1][1..] == [1] && [1][1..] == [];
      var first := ApplyQueuedTx(Profile(), Start(), owed, SIGNED, 1, EmptyAcc(Start()));
      assert first.Done? ==>
        ScreenQueue(Profile(), first.value.0, owed, queue, [], 1, first.value.1) == Done((first.value.0, {}));
    }
  }

  /** A run over the signed withdrawal alone refuses nothing; over an unsigned copy ahead of it, the copy. */
  lemma RunsTo(queue: seq<Tx>, items: seq<nat>, judged: seq<nat>)
    requires Indexes(items, queue) && queue != [] && forall i | i in judged :: i in items
    requires forall tx | tx in queue :: tx.core == WITHDRAWAL
    requires (judged == [0] && queue[0] == SIGNED) || (judged == [0, 1] && queue == [UNSIGNED, SIGNED])
    ensures var run := JudgedRun(Profile(), Start(), Carrying(queue), items, judged);
      run.Done? && run.value.1 == if judged == [0] then {} else {0}
  {
    RunAnswers(queue, items, judged);
    ConfirmsNothing(queue, items);
    QueueRuns(queue, OwedAlone(Profile(), Start(), Picked(queue, judged), 1));
  }

  // ---------------------------------------------------------------------------
  // The passes
  // ---------------------------------------------------------------------------

  /** The entry beside a judged withdrawal calls for it, its copy that it is. */
  lemma CopyCalls(queue: seq<Tx>, judged: seq<nat>, refused: set<nat>, k: nat)
    requires |queue| == 2 && queue[0].core == WITHDRAWAL && queue[1].core == WITHDRAWAL && k < 2
    requires (judged == [0] && refused == {} && k == 0) || (judged == [0, 1] && refused == {0} && k == 1)
    ensures ArmFails(Start().posts, Carrying(queue), [0, 1], judged, refused, k)
  {
    var items := [0, 1];
    assert NoneAfter(queue, judged, k, WITHDRAWAL) && judged[k] == k;
    IndexIsLast(queue, judged, k);
    EntryAt(Carrying(queue), items, 0);
    EntryAt(Carrying(queue), items, 1);
    var p := 1 - k;
    assert EntriesOf(Surviving(Carrying(queue), items))[p].core == WITHDRAWAL;
  }

  lemma CallsFail(queue: seq<Tx>, judged: seq<nat>, refused: set<nat>)
    requires |queue| == 2 && queue[0].core == WITHDRAWAL && queue[1].core == WITHDRAWAL
    requires (judged == [0] && refused == {}) || (judged == [0, 1] && refused == {0})
    ensures ArmFails(PassPosts(Start(), Carrying(queue), [0, 1]), Carrying(queue), [0, 1], judged, refused,
      |judged| - 1)
  {
    ConfirmsNothing(queue, [0, 1]);
    CopyCalls(queue, judged, refused, |judged| - 1);
  }

  lemma BothRefused(ctx: Ctx, s: State, block: Block, judged: seq<nat>, refused: set<nat>)
    requires ValidCtx(ctx) && |block.queue| == 2 && Gated(ctx, block.queue, [0, 1]) == judged
    requires RanTo(ctx, s, block, [0, 1], refused)
    requires (judged == [0] && refused == {}) || (judged == [0, 1] && refused == {0})
    requires ArmFails(PassPosts(s, block, [0, 1]), block, [0, 1], judged, refused, |judged| - 1)
    ensures PassOver(ctx, s, block)([0, 1]) == Done({0, 1})
  {
    PassRefuses(ctx, s, block, [0, 1], refused, 0);
    PassRefuses(ctx, s, block, [0, 1], refused, 1);
    assert 1 in judged <==> Gate(ctx, block.queue[1]);
    TwoMembers(RunPass(ctx, s, block, [0, 1]).value);
  }

  lemma TwoMembers(refused: set<nat>)
    requires refused <= Members([0, 1]) && 0 in refused && 1 in refused
    ensures refused == {0, 1}
  {
  }

  lemma NoneIsRefused(queue: seq<Tx>)
    ensures PassOver(Profile(), Start(), Carrying(queue))([]) == Done({})
  {
    RunAnswers(queue, [], []);
    var pass := PassOver(Profile(), Start(), Carrying(queue))([]);
    assert Gated(Profile(), queue, []) == [];
    assert pass.value <= Members([]);
    assert pass.value == {};
  }

  lemma TwoPasses(pass: seq<nat> -> Outcome<set<nat>>)
    requires Narrows(pass) && pass([0, 1]) == Done({0, 1}) && pass([]) == Done({})
    ensures Repeated(pass, [0, 1]) == Done([])
  {
    assert Without([0, 1], {0, 1}) == [];
    assert Repeated(pass, []) == Done([]);
  }

  lemma WhoIsGated()
    ensures Gated(Profile(), [SIGNED, MISSIGNED], [0, 1]) == [0]
    ensures Gated(Profile(), [UNSIGNED, SIGNED], [0, 1]) == [0, 1]
    ensures Gated(Profile(), [SIGNED], [0]) == [0]
  {
    assert UserOutputShape(KARMA);
    assert Gate(Profile(), SIGNED) && Gate(Profile(), UNSIGNED) && !Gate(Profile(), MISSIGNED) by {
      assert OWNER in MISSIGNED.signatures;
    }
    assert [0, 1][1..] == [1] && [1][1..] == [] && [0][1..] == [];
    assert Gated(Profile(), [SIGNED, MISSIGNED], [1]) == [];
    assert Gated(Profile(), [UNSIGNED, SIGNED], [1]) == [1];
  }

  /** A pass over one judged entry refuses nothing where no call for it fails. */
  lemma OneUnrefused(ctx: Ctx, s: State, block: Block)
    requires ValidCtx(ctx) && |block.queue| == 1 && Gated(ctx, block.queue, [0]) == [0]
    requires RanTo(ctx, s, block, [0], {}) && !ArmFails(PassPosts(s, block, [0]), block, [0], [0], {}, 0)
    ensures UsersApply(ctx, s, block)
  {
    PassRefuses(ctx, s, block, [0], {}, 0);
    assert 0 in [0];
    var pass := RunPass(ctx, s, block, [0]).value;
    assert pass <= Members([0]);
    assert pass == {};
    PassAgrees(ctx, s, block, [0]);
    assert Picked(block.queue, [0]) == block.queue;
    assert Surviving(block, [0]) == block;
  }

  lemma NotCalledBeside()
    ensures !CalledBeside(Carrying([SIGNED]), [0], [0], {}, 0)
  {
    var entries := EntriesOf(Surviving(Carrying([SIGNED]), [0]));
    assert |entries| == 2 && entries[1].core.payload == NoPayload;
  }

  /** Alone, the withdrawal applies. */
  lemma AppliesAlone()
    ensures UsersApply(Profile(), Start(), Carrying([SIGNED]))
  {
    WhoIsGated();
    RunsTo([SIGNED], [0], [0]);
    ConfirmsNothing([SIGNED], [0]);
    NotCalledBeside();
    assert ApplyWithdrawal(Start().posts, WITHDRAWAL, 1).Some?;
    OneUnrefused(Profile(), Start(), Carrying([SIGNED]));
  }

  lemma NothingSurvives(ctx: Ctx, s: State, block: Block)
    requires ValidCtx(ctx) && |block.queue| == 2
    requires PassOver(ctx, s, block)([0, 1]) == Done({0, 1}) && PassOver(ctx, s, block)([]) == Done({})
    ensures Screened(ctx, s, block) == Done([])
  {
    assert UpTo(2) == [0, 1];
    TwoPasses(PassOver(ctx, s, block));
  }

  lemma FirstPass(queue: seq<Tx>)
    requires queue == [SIGNED, MISSIGNED] || queue == [UNSIGNED, SIGNED]
    ensures PassOver(Profile(), Start(), Carrying(queue))([0, 1]) == Done({0, 1})
  {
    var judged: seq<nat> := if queue[0] == SIGNED then [0] else [0, 1];
    var refused := if queue[0] == SIGNED then {} else {0};
    WhoIsGated();
    RunsTo(queue, [0, 1], judged);
    CallsFail(queue, judged, refused);
    BothRefused(Profile(), Start(), Carrying(queue), judged, refused);
  }

  /**
   * The withdrawal beside its copy under a signature that does not verify, and behind its copy without one: both are
   * refused, over a state that meets every invariant, though the withdrawal applies alone.
   */
  lemma CopiesRefuseIt(queue: seq<Tx>)
    requires queue == [SIGNED, MISSIGNED] || queue == [UNSIGNED, SIGNED]
    ensures Inv(Profile(), Start(), 0, {}) && UsersApply(Profile(), Start(), Carrying([SIGNED]))
    ensures Screened(Profile(), Start(), Carrying(queue)) == Done([])
  {
    StartIsReachable();
    AppliesAlone();
    FirstPass(queue);
    NoneIsRefused(queue);
    NothingSurvives(Profile(), Start(), Carrying(queue));
  }
}
