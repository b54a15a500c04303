/** Blocks committed one after another: the state moves by the rules, the tree by the block's writes. */
module CommitRuns {
  import opened Wrappers
  import opened Ledger
  import opened Body
  import opened Blocks
  import opened Invariant
  import opened Runs
  import opened Effects
  import opened Tree
  import opened TreeUpdate
  import opened TreeRuns
  import opened Sorting
  import opened StateReads
  import opened ApplyBlocks
  import opened Sums
  import opened Coinbase
  import opened Queries
  import opened TreeSeed

  /** What committing a block came to: the rules' own state, and the tree of that state. */
  ghost predicate CommittedAs(out: Outcome<(State, AuthTree)>, spec: Outcome<State>) {
    match spec
    case Rejected => out.Rejected?
    case Thrown => false
    case Done(u) => out.Done? && out.value.0 == u && Represents(out.value.1, u)
  }

  /**
   * One block from any reachable state. Performing its writes takes the tree of the state before it to the tree
   * of the state after it; each write applies, and no key is written twice.
   */
  method CommitBlock(
    ctx: Ctx, view: State, tree: AuthTree, lists: Reads, block: Block, rank: TreeKey -> nat,
    ghost height: int, ghost applied: set<TxCore>) returns (out: Outcome<(State, AuthTree)>)
    requires ValidCtx(ctx) && RanksApart(ctx) && Answers(ctx, lists, view)
    requires Inv(ctx, view, height, applied) && 0 <= height < block.height
    requires Represents(tree, view) && PostsHistoried(view.posts, applied)
    ensures CommittedAs(out, Blocks.ApplyBlock(ctx, view, block))
    ensures out.Done? ==> block.settlement.Some? && PostsHistoried(out.value.0.posts, applied + BlockCores(block))
  {
    var applying := ApplyBlocks.ApplyBlock(ctx, view, lists, block, height, applied);
    if !applying.Done? {
      return Rejected;
    }
    var effects, after := applying.value.0, applying.value.1;
    BlockIndexable(ctx, view, height, applied, block);
    var writes := TreeWritesOf(tree, view, after, effects, block.height, rank);
    out := Done((after, PerformAll(tree, writes).value));
  }

  /** The reads of whatever state a block is applied over. */
  ghost predicate AnswersEvery(ctx: Ctx, listsOf: State -> Reads) {
    forall s :: Answers(ctx, listsOf(s), s)
  }

  lemma RunGoesOn(ctx: Ctx, s: State, height: int, blocks: seq<Block>, i: nat)
    requires ValidCtx(ctx) && i < |blocks|
    ensures Run(ctx, s, height, blocks[i..]) ==
      if blocks[i].height <= height then Rejected
      else RunOn(ctx, Blocks.ApplyBlock(ctx, s, blocks[i]), blocks[i].height, blocks[i + 1..])
  {
    assert blocks[i..][0] == blocks[i] && blocks[i..][1..] == blocks[i + 1..];
  }

  /** Over every run of blocks from a reachable state, the tree kept by each block's writes is the state's own. */
  method CommitRun(
    ctx: Ctx, view: State, tree: AuthTree, listsOf: State -> Reads, blocks: seq<Block>, rank: TreeKey -> nat,
    start: int, ghost before: set<TxCore>) returns (out: Outcome<(State, AuthTree)>)
    requires ValidCtx(ctx) && RanksApart(ctx) && AnswersEvery(ctx, listsOf)
    requires Inv(ctx, view, start, before) && start >= 0
    requires Represents(tree, view) && PostsHistoried(view.posts, before)
    ensures CommittedAs(out, Run(ctx, view, start, blocks))
  {
    var now, kept, height := view, tree, start;
    ghost var applied := before;
    assert blocks[0..] == blocks;
    for i := 0 to |blocks|
      invariant Inv(ctx, now, height, applied) && height >= 0
      invariant Represents(kept, now) && PostsHistoried(now.posts, applied)
      invariant Run(ctx, now, height, blocks[i..]) == Run(ctx, view, start, blocks)
    {
      RunGoesOn(ctx, now, height, blocks, i);
      if blocks[i].height <= height {
        return Rejected;
      }
      var next := CommitBlock(ctx, now, kept, listsOf(now), blocks[i], rank, height, applied);
      BlockKeeps(ctx, now, height, applied, blocks[i]);
      if !next.Done? {
        return Rejected;
      }
      applied := applied + BlockCores(blocks[i]);
      now, kept, height := next.value.0, next.value.1, blocks[i].height;
    }
    out := Done((now, kept));
  }

  /** A genesis state that meets the invariants seeds. */
  lemma GenesisSeeds(
    ctx: Ctx, boxes: seq<Live>, records: seq<SeedRecordEntry>, memberCount: int, height: int)
    requires Distinct(Ids(boxes)) && Distinct(RecordKeys(records))
    requires Inv(ctx, SeedState(boxes, records, memberCount), height, {})
    ensures Seedable(boxes, records)
  {
    BoxMapHolds(boxes);
    TreeRuns.PairsAreOnce(BoxMap(boxes));
    forall l | l in boxes ensures Recorded(RecordMap(records), l.box) {
      assert Registered(l.box, RecordMap(records));
    }
  }

  /** From genesis: the empty tree seeded, then every block's writes; the tree at the end is the state's own. */
  method CommitFromGenesis(
    ctx: Ctx, boxes: seq<Live>, records: seq<SeedRecordEntry>, memberCount: int, listsOf: State -> Reads,
    blocks: seq<Block>, rank: TreeKey -> nat, start: int) returns (out: Outcome<(State, AuthTree)>)
    requires ValidCtx(ctx) && RanksApart(ctx) && AnswersEvery(ctx, listsOf) && start >= 0
    requires Distinct(Ids(boxes)) && Distinct(RecordKeys(records))
    requires Inv(ctx, SeedState(boxes, records, memberCount), start, {})
    ensures CommittedAs(out, Run(ctx, SeedState(boxes, records, memberCount), start, blocks))
  {
    GenesisSeeds(ctx, boxes, records, memberCount, start);
    var seeded := SeedTreeWrites(boxes, records, memberCount, rank);
    var tree := PerformAll(map[], seeded.value).value;
    out := CommitRun(ctx, SeedState(boxes, records, memberCount), tree, listsOf, blocks, rank, start, {});
  }
}
