# Notis consensus: a verified model

This project models the consensus state machine of Notis, the NiPoPoW prover, verifier and comparator that its
light clients use, and the canonical check on its AVL+ proofs, and proves what they keep.

`dafny verify dfyconfig.toml` checks the whole of it.

## What is modelled

**The ledger** (`Ledger`, `Engine`, `Body`, `Coinbase`, `Queries`, `Decay`, `Settlement`, `Block`). A state holds the
live boxes, the identity records, the member count, the name and holder records, the posts and the likes. Keys are
numbers whose order is the order of their hex. An id is collision-free, so it is modelled as what it digests: a
transaction id is the transaction without its signatures, a box id is its creating transaction and its output index
(or a seed number at genesis), a post id is its transaction. `Engine` holds the rules a user transaction passes,
`Body` applies a body in committed order, `Settlement` derives the block's one settlement transaction and checks a
given one against the derivation, and `Block` puts a block together: posts, the body's own checks, the captures, the
queue, the withdrawals, the settlement, the grants, the like counters, the membership pass, the decay clocks. A rule's
refusal is `Rejected`; a defect the source throws for is `Thrown`.

The specification is written as functions over states. The code the source writes step by step is also given step by
step and proved against them. The overlay is a class (`Overlay`); `ValidateOver` is validation over it, rule by rule;
`ApplyOver`, `ApplyBody`, `ApplyPosts`, `ApplyCaptures` and `ApplySettlement` are the box writes, the queue, the posts
and withdrawals, the captures ahead of the body, and the settlement gathered, derived leg by leg, checked and applied;
`ApplyBlock` is the whole block over one overlay. The tree writes, the tree view, the actor count, the backer leg, the
prover, the verifier, the comparator and the canonical check are methods with loops too.

**What is proved of it** (`Applying` to `Runs`). `Invariant.Inv` is what every reachable state keeps: no fee, price or
unstake marker outlives its block; one unmarked and one marked karma box an identity, one carry an author, one vouch a
pair, one box of each protocol type; every identity a box names has a record; each record's vouch count is the number
of live vouches that count toward it; the member count is the number of members; the backer pool counts every live
stake and can pay what each accrued; what an applied transaction spent never comes back. `Runs.BlockKeeps` is the block
theorem and `Runs.RunKeeps` its induction over runs: from any state that meets the invariants no block can reach a
throw, an accepted block keeps all of them, the karma ledger and the credit ledger are each conserved, and no
transaction applies twice. The proof goes over the body transaction by transaction (`Lawful`, `BodyRun`, `BodyKeeps`,
`BodyOutcome`), then over the settlement leg by leg (`AfterBody`, `SettleInputs`, `SettleSums`, `SettleBalance`,
`SettleShape`, `SettlePlaces`, `SettledBoxes`, `SettledState`, `SettledBackers`, `SettledPeople`), then over the
records (`Closing`, `Closed`). `Producer` shows that the settlement built over the state before the body is the one
the applier accepts after it, `LikeRuns` that like payouts depend on totals and not on how they are split over blocks,
`LikePays` that what a block pays and pools stands on the author's marked karma box and the pool's successor,
`Backable` exactly when a block's settlement cannot be derived. `Tripwires` shows that none of the overlay's limited
queries meets a write of the block when the settlement reads them, and that no owner has a third karma box;
`ApplyBlocks.ApplyBlock` uses it, so that the whole block over the overlay comes to what the rules say and throws
nowhere. `Screening` is the producer's screen: it answers from every reachable state, its survivors apply, and it
refuses nothing exactly where the users' transactions apply and the settlement entry is no copy of a withdrawal among
them. `ScreenedCopies` says exactly whom a pass refuses, and when each refusal is of that transaction alone;
`ScreenedTwice` holds two bodies where it is not.

**The tree** (`Effects`, `Tree`, `TreeWrites`, `TreeBlock`, `TreeUpdate`, `VouchOrder`, `TreeRuns`, `TreeSeed`,
`CommitRuns`). The authenticated tree is a map; `Tree.TreeAt` says what it must hold for a state, every index a function
of the state. The block's netted and ordered writes are proved to take the tree of one state to the tree of the next,
from the effects the overlay collects (`CommitRuns.CommitBlock`), and so over every run of blocks
(`CommitRuns.CommitRun`), from the empty tree where the run starts with the genesis seed
(`CommitRuns.CommitFromGenesis`).

**The view of the tree** (`TreeView`, `TreeReads`, `TreeQueries`, `TreeLapses`, `TreeHoldings`, `OwnReads`). A
session answers one key at a time; a walk checks each answer's order, ends against any session, and against an honest
one yields the range's leaves in key order; pages chain to the whole range. Over a tree that represents a state every
list read is that state's own query and a holdings page is a page of what the owner holds; a block applied over the
tree's own reads comes to what the rules say (`OwnReads.CommitOverTree`). Keys are laid out by a `TreeReads.Layout`:
keys whose fields fit their widths are told apart, a prefix is an interval, and inside it the order is that of the
fields.

**NiPoPoW and the canonical proof** (`Headers` to `Compare`, `CanonicalProof`).

Hypotheses are stated where they are used. The genesis state is one that meets `Inv` at a height below the first
block's with no transaction applied, and its posts are of no transaction. The network profile's decay interval and
emission epoch are at least 1 (`Ledger.ValidCtx`), and box ids have one place each in the id order
(`Sorting.RanksApart`). The signature check, the record-length charges, the name rules and the order of box ids are
parameters of `Ledger.Ctx`; the digest, the proof-of-work level and the interlink rule's block hash are parameters of
`Headers.Rules`. The list reads of the state before a block are `StateReads.Reads`, held to the state's queries;
`OwnReads.OwnReadsAnswer` proves that a session over the tree of a reachable state answers them.

Where the code differs from what its documentation or a first reading says:

- `contracts/CONSENSUS_INTERFACE.md:139-141` says a transaction `applyBlock` would refuse is refused alone. The
  withdrawal arm looks an entry up by its transaction id, so each entry calls for the last judged copy of itself. An
  applied transaction whose own withdrawal succeeds is refused exactly where it is the last judged of its copies and
  its withdrawal is called for beside it: by another copy of it anywhere in the pass, or ahead of it by the copy of a
  later withdrawal of the same post (`ScreenedCopies.RefusedBeside`). Where no two transactions withdraw one post that
  is: where another copy stands (`ScreenedCopies.RefusedWithACopy`). A screen refuses each transaction alone exactly
  where none of its passes holds such an entry (`ScreenedCopies.RefusedAloneExactly`), and so for every body in which
  no transaction stands twice, its settlement entry among them (`ScreenedCopies.ScreenedAlone`). Two bodies over one
  reachable state fail: a signed withdrawal beside its copy under a signature that does not verify, and the same
  behind its copy without a signature; both copies are refused, though the signed one applies alone
  (`ScreenedTwice.CopiesRefuseIt`).
- The screen does not judge a withdrawal that the settlement entry carries, but where it is the copy of a user's, and
  then refuses the user's for it. `applyBlock` judges it with the others (`Screening.SurvivorsApply`,
  `Screening.SettlementUnscreened`); it refuses such a block in any case, for a settlement carries no payload.
- The overlay's limited bond query has a limit of its own: its answer is the view's list while no write moves its set,
  but its order is by grant height. A write that moves a set grant height past another's leaves the tripwire down and
  the order wrong (`GrantOrder.MovedHeightReorders`, and one such state in `GrantOrder.MoveHeight`). No body makes such
  a write: the answer is the state's own while set heights are kept, and a body over a reachable state keeps them
  (`Tripwires.BodyTripsNothing`).
- The settlement's conservation clause is implied by the others at every reachable state (`Producer.ConservationImplied`),
  as its own comment says; it is kept in the modelled check because the code keeps it.

## Model

| member | source | states |
|---|---|---|
| Runs.RunKeeps | packages/consensus/src/apply-block.ts:528-975 | Over every run of blocks from a state that meets the invariants no defect the rules throw for is reached (nor any throw of the overlay's: ApplyBlocks.ApplyBlock); where every block is accepted the invariants hold at the end, the karma ledger and the credit ledger each hold what they held, and no transaction is carried twice |
| Runs.BlockKeeps | packages/consensus/src/apply-block.ts:528-975 | Any block at a later height is refused or applied, and no defect the rules throw for is reached (nor any throw of the overlay's: ApplyBlocks.ApplyBlock); applied, every invariant stands, both ledgers are unchanged, and nothing the block carries was applied before |
| Runs.SettledStep | packages/consensus/src/apply-block.ts:752-954 | Once a settlement checks, applying it and closing the records cannot throw and leaves every invariant standing |
| Runs.SettlementCounts | packages/consensus/src/apply-block.ts:796-812 | Applying the settlement never throws; every vouch count stays exact, and only the targets of lapsed vouches move |
| BodyOutcome.QueueOutcome | packages/consensus/src/apply-block.ts:720-727 | From the middle of any block, the rest of the body refuses or keeps the body's whole invariant; no defect is reachable |
| BodyOutcome.MidStep | packages/consensus/src/apply-block.ts:256-469 | One valid transaction keeps boxes traced to their origins, places unshared, identities registered, counts exact, captures right and both ledgers' totals |
| BodyOutcome.NeverThrows | packages/consensus/src/apply-block.ts:1056-1079 | The owed capture holds every owner the body's karma can belong to, and the vouch counts' records and fresh ids are always there: a queued transaction never throws |
| Lawful.ValidIsLawful | packages/consensus/src/utxo-engine.ts:2368-2542 | What validation accepts spends only user types, keeps value inside its family and staked weight inside the staked, and makes at most one change box, vouch and bond, each of a lawful shape |
| Lawful.DefectIsUnowed | packages/consensus/src/apply-block.ts:1056-1070 | Validation throws only for karma whose owner the capture lacks |
| Lawful.KarmaArmOutputs | packages/consensus/src/utxo-engine.ts:360-960 | Every branch of the karma arm: one unmarked change box of an owner whose unmarked karma is all spent, one vouch from a member for a pair's first, one bond for an identity without a record, markers only for recorded authors |
| Lawful.StakeArm | packages/consensus/src/utxo-engine.ts:1179-1240 | A partial unstake splits its stake's weight exactly between the stake that stays and the marker |
| Applying.ApplyTxEffect | packages/consensus/src/utxo-engine.ts:2582-2619 | Applying a transaction over counted vouches never throws, moves exactly its inputs and outputs, and leaves every record's count the number of vouches that count toward it |
| Applying.AdjustedCount | packages/consensus/src/utxo-engine.ts:2625-2652 | A vouch moves its target's count by its weight, and no record's age |
| Applying.AppliedStaysHistoried | packages/consensus/src/overlay.ts:382-401 | What an applied transaction spent is not live and cannot be made again: ids name their creators, and a creator is applied once |
| Applying.LiveInputsAreNew | packages/consensus/src/utxo-engine.ts:2382-2401 | A transaction whose first input is live was never applied, so its outputs' ids are free |
| BodyRun.StaysTraced | packages/consensus/src/overlay.ts:188-198 | After any part of a body a box is live exactly when it was live or created and is no transaction's input |
| BodyRun.StaysUnrivalled | packages/consensus/src/utxo-engine.ts:415-455 | A user transaction leaves at most one unmarked and one marked karma box an identity and one vouch a pair |
| AfterBody.BodyListIsLive | packages/consensus/src/settlement.ts:1224-1243 | The body's fees, prices, markers, bonds and unstakes are live after it, listed once each, and all of them are listed |
| AfterBody.ProjectedIsLive | packages/consensus/src/decay.ts:104-168 | The post-body projection of an owner is exactly the owner's live karma once the body has applied |
| SettleInputs.DerivedInputsAreLive | packages/consensus/src/settlement.ts:370-655 | The derived inputs are pairwise distinct and all live over the state the body leaves |
| SettleSums.LikesBalance | packages/consensus/src/settlement.ts:263-295 | What the markers and the authors' carries hold is paid, pooled or carried on, to the last unit |
| SettleSums.IncomeBalance | packages/consensus/src/settlement.ts:573-613 | The income leg pays out every amount settling to an owner over the boxes it takes in |
| SettleSums.DecayBalance | packages/consensus/src/settlement.ts:555-571 | What decay consumes is its replacements and its burns |
| SettleSums.PlansBalanced | packages/consensus/src/decay.ts:191-236 | A plan's boxes are worth its replacement and its burn, and a plan that burns nothing names none |
| SettleSums.BondsBalance | packages/consensus/src/settlement.ts:303-307 | Each settling bond is its vested part and its forfeit |
| SettleBalance.DerivedBalances | packages/consensus/src/settlement.ts:360-738 | The derivation's legs cancel ledger by ledger, the miner's slice closes the credit side and is at least the rent, and the staked weight falls by what unstakes |
| SettleBalance.MinerSlice | packages/consensus/src/coinbase-split.ts:155-179 | Remaining emission, treasury, draw and the miner's slice add up with fees and rent exactly |
| SettledBoxes.SettledApart | packages/consensus/src/settlement.ts:573-713 | After the settlement no two live boxes take one place: one unmarked and one marked karma box an owner, one carry an author, one box of each protocol type |
| SettledState.TransientsGone | packages/consensus/src/settlement.ts:440-655 | No fee, price or unstake marker outlives its block |
| Backable.BackersAlwaysBacked | packages/consensus/src/settlement.ts:389-417 | The exceeds-staked error is unreachable and the pool's successor is never negative, for every body over a reachable state |
| Backable.DerivesExactlyWhere | packages/consensus/src/settlement.ts:360-738 | A settlement derives exactly where, before the body, the chain holds an emission box and its karma pool covers what the block will draw from it |
| SettledBackers.BackersStaySound | packages/consensus/src/settlement.ts:384-417 | After every settlement the backer pool's staked is the weight of the live stakes and the pool is solvent |
| SettledBackers.SettlementConserves | packages/consensus/src/settlement.ts:1001-1022 | The settlement leaves the karma total and the credit total as they were |
| SettledPeople.AllSettledRegistered | packages/consensus/src/settlement.ts:656-729 | Every identity a box names after the settlement has a record or is one of the block's invitees |
| Coinbase.SlicesAddUp | packages/consensus/src/coinbase-split.ts:155-179 | Treasury, miner, unearned and draw are the income exactly, and the miner's slice is at least the rent |
| Coinbase.DrawBounded | packages/consensus/src/coinbase-split.ts:205-222 | The draw is at most the backers' percentage of the base, rounded up, for every stake and supply |
| Coinbase.LegKeepsSolvency | packages/consensus/src/coinbase-split.ts:188-225 | The block's draw and releases keep value times supply at least staked times accrual, and the pool's value never below zero |
| Coinbase.ComputeBackerLeg | packages/consensus/src/coinbase-split.ts:188-225 | The marker by marker loop computes the specified releases, stake, accrual and draw |
| Coinbase.CountKarmaActors | packages/consensus/src/coinbase-split.ts:96-110 | The count is the number of distinct actors but the validator |
| Decay.SquaringSettlesWholePeriods | packages/types/src/karma-valuation.ts:62-102 | A squaring leaves nothing owed at its height, and at any later height exactly the periods it did not settle |
| Decay.DecayPlansApart | packages/consensus/src/decay.ts:191-236 | A block's plans name each owner once |
| Decay.CommitDecayClocks | packages/consensus/src/decay.ts:253-264 | Each planned owner's clock ends at their plan's settled height over the record as it was, and every other record is untouched |
| Closing.GrantsExtend | packages/consensus/src/apply-block.ts:832-862 | The grants never throw, keep every earlier record's standing, and write each invitee at this height |
| Closing.PassCounts | packages/consensus/src/apply-block.ts:894-954 | The membership pass's running count is at every step the number of members among those it has judged |
| Closing.JoiningKeepsCounts | packages/consensus/src/apply-block.ts:925-933 | A vouch counted at its cast stays counted when its target becomes a member |
| Closed.PassIsExact | packages/consensus/src/apply-block.ts:894-954 | The pass leaves the count at the number of members and moves no record but a newcomer's age and bar |
| Closed.BlockCloses | packages/consensus/src/apply-block.ts:814-963 | Grants, counters, pass and clocks never throw and leave every vouch count and the member count exact |
| Producer.ProducerAndApplierAgree | packages/consensus/src/settlement.ts:1388-1488 | For a body that applies, a settlement passes the applier's check over the state after the body exactly when the producer builds it over the state before |
| Producer.DerivesSame | packages/consensus/src/settlement.ts:1306-1368 | Every read of the derivation answers the same before the body and after it, the body's spends and markers set aside |
| Producer.PredictionHolds | packages/consensus/src/settlement.ts:1388-1414 | The predicted body, its actors included, is the one the applier gathers |
| Producer.ConservationImplied | packages/consensus/src/settlement.ts:1001-1022 | A settlement that matches the derivation conserves, so the conservation clause never refuses on its own |
| LikeRuns.LikesDoNotDependOnSplit | packages/consensus/src/settlement.ts:263-295 | Over any run an author's total alone decides what the blocks' derivations pay and pool and what the carry box holds; LikePays.LotsReachTheirBoxes ties what is paid and pooled to boxes |
| LikeRuns.LotsByTotal | packages/consensus/src/settlement.ts:508-517 | Those figures are the whole lots of five in the total, four paid and one pooled a lot, and the rest carried |
| LikePays.BlockPaysAuthor | packages/consensus/src/settlement.ts:582-613 | After an accepted block what it paid the author, with the bonds vested and escrows returned, stands on one marked karma box of the author's over what that box held |
| LikePays.BlockPoolsLots | packages/consensus/src/settlement.ts:615-648 | After an accepted block the pool's successor is what the pool held, less the grants, and the author's pooled lots with everything else the block sinks |
| LikePays.LotsReachTheirBoxes | packages/consensus/src/settlement.ts:573-648 | So at each block of any run |
| LikeRuns.BlockCarry | packages/consensus/src/settlement.ts:672-676 | After a block an author's one carry box holds what is left of the markers and the earlier carry |
| VouchOrder.StaysCooling | packages/consensus/src/utxo-engine.ts:2582-2619 | A vouch withdrawn in a body leaves its voucher an escrow, so no pair's vouch is both spent and cast in one block |
| CommitRuns.CommitRun | packages/consensus/src/tree-writes.ts:74-204 | Over every run of blocks from a reachable state, the tree kept by performing each accepted block's writes is the tree of the state the rules leave |
| CommitRuns.CommitFromGenesis | packages/consensus/src/tree-writes.ts:74-284 | From a genesis seed that meets the invariants, the empty tree seeded and then written block by block is the tree of the state the rules leave |
| TreeSeed.SeedTreeWrites | packages/consensus/src/tree-writes.ts:246-307 | Seeding is refused exactly for a bond whose invitee holds no record and for a box, identity or vouched pair named twice; else its inserts, in key order, make the empty tree the genesis state's own |
| CommitRuns.CommitBlock | packages/consensus/src/tree-writes.ts:74-204 | A block from a reachable state comes to what the rules say, and its writes take the tree of the state before to the tree of the state after |
| TreeUpdate.TreeWritesOf | packages/consensus/src/tree-writes.ts:74-204 | The writes take the tree of the state before the block to the tree of the state after it: inserts hit absent keys, removals and updates present ones, no key twice, in the consensus order |
| TreeUpdate.BlockSection | packages/consensus/src/tree-writes.ts:74-204 | Over every key there is, the writes are right and miss nothing |
| TreeUpdate.Ordered | packages/consensus/src/tree-writes.ts:289-306 | The order is removals, inserts, updates, the rest, each by key, and a permutation of the writes |
| TreeUpdate.ReorderedSection | packages/consensus/src/tree-writes.ts:289-306 | Ordering the writes changes nothing of what they do |
| TreeWrites.BoxSection | packages/consensus/src/tree-writes.ts:85-99 | Every box entry and every index entry is netted to exactly what the next state gives it |
| TreeWrites.EntryHeld | packages/consensus/src/tree-index.ts:28-69 | Each index entry of a live box is what the state's tree holds under its key |
| TreeBlock.CastSection | packages/consensus/src/tree-writes.ts:134-167 | The cast counts and the lapsed entries come out as the next state's, each written only where it moves |
| TreeBlock.NameSection | packages/consensus/src/tree-writes.ts:171-179 | The name records net by whether the key stood before the block |
| Effects.NetBoxes | packages/consensus/src/tree-writes.ts:211-220 | A box both inserted and spent is on neither list; the others are created or spent, once each |
| Effects.LastWrites | packages/consensus/src/tree-writes.ts:101-131 | The last write to each record, name and holder stands, and the first says whether its key stood before |
| TreeRuns.BlockIndexable | packages/consensus/src/tree-writes.ts:80-99 | Every accepted block meets what the tree writes rest on: unique pairs, stable contents, and bonds due at their invitees' grants |
| Overlays.BlockOverlay.GetBox | packages/consensus/src/overlay.ts:188-192 | A box read answers the state as the block has left it |
| Overlays.BlockOverlay.GetIdentityRecord | packages/consensus/src/overlay.ts:200-203 | A record read answers the block's own write first |
| Overlays.BlockOverlay.GetTopologyAuthor | packages/consensus/src/overlay.ts:225-230 | A post's first confirmation answers ahead of the block's own |
| Overlays.BlockOverlay.GetPostStanding | packages/consensus/src/overlay.ts:241-245 | Live exactly for a post on record and not withdrawn; none exactly for an id neither on record nor withdrawn |
| Overlays.BlockOverlay.Compose | packages/consensus/src/overlay.ts:276-286 | A composed query is the same query on the materialised state, in its order |
| Overlays.BlockOverlay.GetKarmaBoxes | packages/consensus/src/overlay.ts:255-257 | The owner's karma boxes, highest value first, as the block has left them |
| Overlays.BlockOverlay.GetProtocolBox | packages/consensus/src/overlay.ts:292-310 | A protocol box read throws exactly when the block wrote that type, and otherwise answers the state's own |
| Overlays.BlockOverlay.GetBondsInvitedAt | packages/consensus/src/overlay.ts:318-329 | The due bonds throw exactly when the block wrote into their set, and otherwise answer the state's own while no grant height already set has moved |
| Overlays.BlockOverlay.GetVouchEscrowsReleasableAt | packages/consensus/src/overlay.ts:331-339 | The releasable escrows throw exactly when the block wrote into their set, and otherwise answer the state's own |
| Overlays.BlockOverlay.GetLapsedVouches | packages/consensus/src/overlay.ts:347-356 | The lapsed vouches throw exactly when the block wrote into their set, and otherwise answer the state's own |
| Overlays.BlockOverlay.InsertBox | packages/consensus/src/overlay.ts:382-393 | An insert is refused exactly for an id live before the block or inserted by it, and else adds that box alone |
| Overlays.BlockOverlay.ConsumeBox | packages/consensus/src/overlay.ts:395-401 | A spend is refused exactly for a box that is not live, and else removes that box alone |
| Overlays.BlockOverlay.DeleteUsernameRow | packages/consensus/src/overlay.ts:436-445 | A burn removes the name record and its owner's, or nothing where no record holds the name |
| Overlays.BlockOverlay.WithdrawPost | packages/consensus/src/overlay.ts:456-459 | A withdrawal makes the post not live and nothing else, and is remembered for an id no record holds too |
| ApplyBlocks.ApplyBlock | packages/consensus/src/apply-block.ts:528-975 | Over the overlay a block from a reachable state comes to exactly what the rules say, no read or write throws, and an accepted block's effects account for the state it leaves |
| ApplyBlocks.RunBody | packages/consensus/src/apply-block.ts:723-737 | The queue and the withdrawals over the overlay come to what they come to over the state, posts, withdrawals and likes noted once each |
| ApplyBody.ApplyQueued | packages/consensus/src/apply-block.ts:256-469 | One queued transaction over the overlay is refused, thrown for or applied as specified, and a refusal writes nothing |
| ValidateOver.Validate | packages/consensus/src/utxo-engine.ts:2368-2542 | The verdict over the overlay's reads is the verdict on the state the block has left |
| ValidateOver.ValidateKarma | packages/consensus/src/utxo-engine.ts:360-960 | Every branch of the karma arm, read by read, is the specified transition |
| ValidateOver.FaceIsHeld | packages/consensus/src/apply-block.ts:1046-1050 | What an owner's listed karma boxes hold is all the karma the owner holds |
| ApplyPosts.ConfirmBody | packages/consensus/src/apply-block.ts:552-572 | Each post is confirmed once at the block's height, and an earlier confirmation stands |
| ApplyPosts.WithdrawBody | packages/consensus/src/apply-block.ts:476-506 | The withdrawals are the specified ones, each of a post of an earlier block, once |
| ApplyCaptures.Capture | packages/consensus/src/apply-block.ts:678-720 | The escrows, lapses, pool, owed map and plans taken ahead of the body are the specified captures |
| ApplyCaptures.ComputeLikePayouts | packages/consensus/src/settlement.ts:263-295 | The author by author loop computes the specified payouts over the carry boxes the overlay answers |
| ApplyCaptures.DeriveKarmaDecay | packages/consensus/src/decay.ts:191-236 | The owner by owner loop computes the specified plans |
| ApplySettlement.GatherBody | packages/consensus/src/settlement.ts:1224-1243 | The transaction by transaction gathering is what the body contributes |
| ApplySettlement.DeriveOver | packages/consensus/src/settlement.ts:360-738 | The derivation over the overlay's reads is the specified one, and is thrown for only where a limited query meets a write |
| ApplySettlement.CheckOver | packages/consensus/src/settlement.ts:841-1025 | The check over the overlay answers the specified check |
| Tripwires.BodyTripsNothing | packages/consensus/src/overlay.ts:292-329 | After any body over a reachable state no limited query the settlement makes meets a write of the block, and no set grant height has moved |
| Tripwires.NoThirdKarmaBox | packages/consensus/src/tree-view.ts:396-404 | Where no two boxes rival an owner has two karma boxes at most, so the view's tripwire never fires |
| Tripwires.BodyLeavesTwo | packages/consensus/src/overlay.ts:255-257 | So it is in the middle of every body |
| GrantOrder.MovedHeightReorders | packages/consensus/src/overlay.ts:318-329 | A write that moves a set grant height past another's leaves the tripwire down and the view's order wrong |
| GrantOrder.MoveHeight | packages/consensus/src/overlay.ts:318-329 | Such a write over two due bonds: the overlay answers the old order, the state the new |
| Screening.SurvivorsApply | packages/consensus/src/screen-body.ts:40-61 | The survivors' user transactions pass every phase of a block ahead of its settlement, the cost aside; so does the whole body, but where its settlement entry carries a withdrawal that fails |
| Screening.ScreenAnswers | packages/consensus/src/screen-body.ts:40-61 | Screening any body over a reachable state ends with an answer; no defect is in its way |
| Screening.ScreenedOfNothing | packages/consensus/src/screen-body.ts:40-61 | From a reachable state a body is refused nothing exactly where its user transactions apply up to the settlement and the settlement entry is no copy of a withdrawal among them |
| Screening.PassAgrees | packages/consensus/src/screen-body.ts:64-190 | A pass refuses nothing exactly where the survivors' user transactions apply, though it captures no payee, and the settlement entry is no copy of a withdrawal among them |
| Screening.SettlementUnscreened | packages/consensus/src/screen-body.ts:173-187 | A body of a settlement alone whose withdrawal fails is screened of nothing and does not apply |
| Screening.AppliesToItsSettlement | packages/consensus/src/apply-block.ts:609-775 | Applying a body that is screened of nothing comes down to its settlement |
| Screening.ScreenBody | packages/consensus/src/screen-body.ts:56-58 | The passes repeat over strictly fewer survivors until one refuses nothing |
| ScreenedCopies.PassRefuses | packages/consensus/src/screen-body.ts:64-190 | A pass refuses exactly an entry the gate stops, one the queue refuses, and an applied one, the last judged of its copies, whose withdrawal fails or is called for beside it |
| ScreenedCopies.RefusedBeside | packages/consensus/src/screen-body.ts:155-187 | An applied entry whose own withdrawal succeeds is refused exactly where it is the last judged of its copies and another entry calls for the post: a copy of it, or one ahead of it |
| ScreenedCopies.RefusedWithACopy | packages/consensus/src/screen-body.ts:155-187 | Where no two transactions withdraw one post, exactly where it is the last judged of its copies and another copy stands |
| ScreenedCopies.RefusedAloneExactly | packages/consensus/src/screen-body.ts:23-61 | A screen refuses each transaction for its own gate, verdict or withdrawal alone exactly where none of its passes holds such an entry |
| ScreenedCopies.ScreenedAlone | packages/consensus/src/screen-body.ts:23-61 | A body in which no transaction stands twice is screened as if each were refused for its own gate, verdict or withdrawal alone |
| ScreenedTwice.CopiesRefuseIt | packages/consensus/src/screen-body.ts:155-187 | Two bodies over a state that meets every invariant: a signed withdrawal beside a missigned copy, and behind an unsigned one, both copies refused, though it applies alone |
| TreeViews.TreeView.Look | packages/consensus/src/tree-view.ts:163-181 | A key is asked once, and an answer that contradicts the order is refused as it arrives |
| TreeViews.TreeView.Walk | packages/consensus/src/tree-view.ts:197-217 | A walk ends against any session with rising keys; over an honest one it is the first `limit` of the range's leaves in key order |
| TreeViews.TreeView.PageRange | packages/consensus/src/tree-view.ts:236-256 | A page is the first `limit` leaves from its start and the first key not taken, within `1 + limit` lookups, refused for a zero limit or a start outside |
| TreeViews.ReadRange | packages/consensus/src/tree-view.ts:219-256 | Pages chained by `next` concatenate to the whole range, each leaf once |
| TreeHoldings.HoldingsPage | packages/consensus/src/holdings.ts:69-100 | A page is refused exactly for a zero limit, a start outside the range and an entry that names no live box of the kind; over the tree of a state it is the first `limit` of the owner's boxes of the kind from the start, in order, and the next one's key, within `1 + 2 * limit` lookups |
| TreeReads.ReadKey | packages/consensus/src/tree-view.ts:289-367 | A keyed read answers what the state gives the key |
| TreeReads.IndexedBoxes | packages/consensus/src/tree-view.ts:269-279 | The boxes a range's entries name are the live boxes of its family, in the family's order, at most the limit |
| TreeReads.ListingIsQuery | packages/consensus/src/tree-view.ts:269-279 | A family's whole listing is the state's query in its order |
| TreeQueries.FirstOfType | packages/consensus/src/tree-view.ts:281-283 | A protocol type's read is the state's first box of the type |
| TreeQueries.GetKarmaBoxes | packages/consensus/src/tree-view.ts:396-404 | The owner's karma boxes by value and id, thrown for exactly where there are three |
| TreeQueries.GetVouchEscrowsFor | packages/consensus/src/tree-view.ts:406-408 | The voucher's escrows, as the state's query |
| TreeQueries.GetLikeAccrualBoxes | packages/consensus/src/tree-view.ts:410-412 | The author's accrual boxes, as the state's query |
| TreeQueries.GetBondsInvitedAt | packages/consensus/src/tree-view.ts:421-423 | The due bonds by grant height and id, as the state's query |
| TreeQueries.GetVouchEscrowsReleasableAt | packages/consensus/src/tree-view.ts:425-427 | The releasable escrows by height and id, as the state's query |
| TreeLapses.GetVouchBoxes | packages/consensus/src/tree-view.ts:414-418 | A pair's vouch, as the state's query |
| TreeLapses.GetLapsedVouches | packages/consensus/src/tree-view.ts:436-452 | The first `limit` of the lapsed vouchers' ranges joined, which are the state's lapsed vouches in the order of the pairs |
| OwnReads.OwnReadsAnswer | packages/consensus/src/tree-view.ts:386-452 | Over a session that serves a reachable state each list read, as a function of the session, is that state's query |
| OwnReads.CommitOverTree | packages/consensus/src/apply-block.ts:528-975 | A block applied over the tree's own reads comes to what the rules say, and its writes leave the tree of the state it leaves |
| TreeLapses.ReachableIsReadable | packages/consensus/src/tree-view.ts:386-404 | At every reachable state pairs are unique, bonds granted and karma boxes two at most, as the reads need |
| ApplyOver.ApplyTransaction | packages/consensus/src/utxo-engine.ts:2582-2619 | Over the overlay, inputs out and outputs in with their counts is the specified step, and fails exactly where it has none |
| ApplyOver.AdjustCount | packages/consensus/src/utxo-engine.ts:2633-2652 | The target's count moves iff the vouch counts, and the write fails exactly for a missing record |
| ApplyOver.GrantStep | packages/consensus/src/apply-block.ts:832-862 | The grants, ascending by invitee, are the specified records and captures |
| ApplyOver.MembershipStep | packages/consensus/src/apply-block.ts:894-954 | The pass over the overlay is the specified one, the count written once where it moved |
| ApplyOver.Close | packages/consensus/src/apply-block.ts:814-963 | Everything after the settlement's boxes, over the overlay, is the specified closing |
| Headers.InterlinksNameLatest | packages/types/src/interlinks.ts:71-113 | In a valid chain slot i of a header's vector names the latest earlier header of level at least i, and slot 0 genesis |
| Prover.WalkLevel | packages/nipopow/src/prover.ts:72-101 | The walk back collects exactly the level's headers down to the anchor, or fails for a header the reader lacks |
| Prover.ProveWithReader | packages/nipopow/src/prover.ts:35-121 | The proof's prefix is exactly the headers the level walks and the sweep keep, ascending; each error answers its own condition |
| ProofAcceptance.BuiltProofAccepted | packages/nipopow/src/verify.ts:52-223 | Every proof built over a valid chain passes every rule of the verifier |
| ProofAcceptance.KeptConnects | packages/nipopow/src/verify.ts:183-214 | Of two kept headers next to each other, the later names the earlier in its interlinks or as its parent |
| ProofAcceptance.WalkNeighbours | packages/nipopow/src/prover.ts:86-110 | Between successive anchors, headers kept one after the other are neighbours on some level |
| ProofAcceptance.ProveAndVerify | packages/nipopow/src/prover.ts:35-121 | Proving and then verifying answers accepted |
| ProofVerifier.VerifyProof | packages/nipopow/src/verify.ts:52-223 | Accepted exactly when every rule holds, and a refusal names a rule that breaks |
| ProofVerifier.CheckConnections | packages/nipopow/src/verify.ts:183-200 | Each element of the prefix after the first names the one before it, or the first that does not is refused at its index |
| Compare.BestArg | packages/nipopow/src/compare.ts:40-55 | The early break loses nothing: the answer is the maximum over every level that qualifies, up to the cap |
| Compare.CountAntitone | packages/nipopow/src/compare.ts:40-55 | A higher level is reached by no more headers |
| Compare.LowestCommonAncestor | packages/nipopow/src/compare.ts:21-33 | The answer is the last header of the left chain that the right chain shares |
| Compare.LcaSymmetric | packages/nipopow/src/compare.ts:21-33 | On rising collision-free chains the common ancestor is the same from either side |
| Compare.CompareProofs | packages/nipopow/src/compare.ts:60-90 | The verdict, the ancestor and both scores are decided by the proofs alone: invalid or without an ancestor exactly where they are, else the best scores above the ancestor, compared |
| Compare.PinnedProofsShareBlockOne | packages/nipopow/src/compare.ts:60-90 | Two accepted proofs under one block 1 always have a common ancestor |
| Compare.ComparisonAntisymmetric | packages/nipopow/src/compare.ts:60-90 | Swapping two accepted proofs swaps the verdict and the scores and keeps the ancestor |
| Compare.ExtensionNeverLowers | packages/nipopow/src/compare.ts:40-55 | Appending headers never lowers a score |
| CanonicalProof.MatchesCanonicalProof | packages/avltree/src/canonical-proof.ts:42-138 | The stack walk answers true exactly for the bytes of the recursive serialisation, the end token and the zero-padded direction bits |
| CanonicalProof.CompareTree | packages/avltree/src/canonical-proof.ts:60-113 | The explicit stack refines the recursive post-order, leaf-key chaining included |
| CanonicalProof.CanonicalUpToDirections | packages/avltree/src/canonical-proof.ts:42-138 | Two accepted proofs of one cycle have one length and one tree part, zero padding, and are equal exactly where their direction bits are |
| CanonicalProof.RegeneratedIsCanonical | packages/avltree/src/canonical-proof.ts:42-138 | The regenerated bytes are accepted |

## Left out

- Encodings, hashes and key layouts: ids are what they digest and tree keys are a datatype; the `types`, `wire` and `validation` packages' byte layouts are not part of this model.
- The envelope, field-type and closed-key-set checks on untrusted values: the datatypes give what they establish; the accepted value domain is kept.
- Protocol versions and eras: a transaction carries none, and the settlement's version clause is absent.
- Error strings: a refusal is `Rejected` and carries no reason; the over-budget refusal is not told apart from the others.
- The record-length charge of storage rent and the per-byte credit floor: parameters of the context, because they come from the encoder.
- Safe-integer range errors of the membership bar and the other counters: numbers are unbounded.
- A pending post's author, which only a node's admission reads, and the mempool around it.
- Byte-cost probes (`settlementMarginalBytes`, `decayLegMaxBytes`).
- A walk as a generator: its entries are collected before the boxes they name are looked up, so the order of a read's
  lookups is not modelled, and neither is which of them a failing read made.
- The name and holder reads' row, rebuilt from a record and its box: the keyed read answers the record.
- `screenBody`'s reasons and positions: a refusal is the entry's index.
- The AVL+ engine itself; the tree writes are operations on a map.
- Box provenance reads: an id is its provenance.
- The overlay's per-type and per-key lists: the inserted and spent boxes are read with a filter instead, and the copies a read answers are values here.
- Direction-bit counts of 2^31 and more in the canonical proof check.
- The `net` package and the node's storage, journal and metrics.
