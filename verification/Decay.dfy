/** Karma decay: the valuation, the squared set's projection, the plans and the clocks. */
module Decay {
  import opened Wrappers
  import opened Sums
  import opened Orders
  import opened Ledger
  import opened Engine
  import opened Coinbase
  import opened Queries

  // ---------------------------------------------------------------------------
  // The valuation
  // ---------------------------------------------------------------------------

  function Clock(record: Option<IdentityRecord>): IdentityRecord {
    if record.Some? then record.value else EMPTY_IDENTITY_RECORD
  }

  function ClockStart(ctx: Ctx, record: Option<IdentityRecord>): int {
    var windowEnd := Clock(record).lastActivityBlock + ctx.staleThresholdBlocks;
    if windowEnd >= Clock(record).lastDecayBlock then windowEnd else Clock(record).lastDecayBlock
  }

  /** A floored division: at most zero through the grace window. */
  function OwedPeriods(ctx: Ctx, record: Option<IdentityRecord>, height: int): int
    requires ValidCtx(ctx)
  {
    (height - ClockStart(ctx, record)) / ctx.decayIntervalBlocks
  }

  function SettledThrough(ctx: Ctx, record: Option<IdentityRecord>, height: int): int
    requires ValidCtx(ctx)
  {
    ClockStart(ctx, record) + OwedPeriods(ctx, record, height) * ctx.decayIntervalBlocks
  }

  function EffectiveKarma(ctx: Ctx, face: nat, record: Option<IdentityRecord>, height: int): (effective: nat)
    requires ValidCtx(ctx)
    ensures effective <= face
  {
    var periods := OwedPeriods(ctx, record, height);
    if periods <= 0 then face
    else
      var least := if face < KARMA_MINIMUM then face else KARMA_MINIMUM;
      var decayed := face - periods * KARMA_DECAY_AMOUNT;
      if decayed > least then decayed else least
  }

  function FaceOf(ls: seq<Live>): nat {
    if ls == [] then 0 else ls[0].box.value + FaceOf(ls[1..])
  }

  /**
   * A squaring settles whole periods and forgives none that has only begun: squared at `height`,
   * the identity owes nothing at `height`, and at any later height owes what it would have owed
   * less what was settled.
   */
  lemma SquaringSettlesWholePeriods(ctx: Ctx, r: IdentityRecord, height: int, later: int)
    requires ValidCtx(ctx) && OwedPeriods(ctx, Some(r), height) > 0 && later >= height
    ensures var after := r.(lastDecayBlock := SettledThrough(ctx, Some(r), height));
      && OwedPeriods(ctx, Some(after), height) == 0
      && OwedPeriods(ctx, Some(after), later) == OwedPeriods(ctx, Some(r), later) - OwedPeriods(ctx, Some(r), height)
  {
    var start := ClockStart(ctx, Some(r));
    var n, d := OwedPeriods(ctx, Some(r), height), ctx.decayIntervalBlocks;
    var after := r.(lastDecayBlock := start + n * d);
    FloorBelow(height - start, d);
    assert n * d >= d by { MulMonotone(1, n, d); }
    assert ClockStart(ctx, Some(after)) == start + n * d;
    DivideLess(height - start, n, d);
    DivideLess(later - start, n, d);
  }

  lemma DivideLess(x: int, n: int, d: int)
    requires d > 0
    ensures (x - n * d) / d == x / d - n
  {
    var q, p := x / d, (x - n * d) / d;
    assert q * d <= x < q * d + d;
    assert p * d <= x - n * d < p * d + d;
    Distribute(q, -n, d);
    DividesOnce(x - n * d, d, p, q - n);
  }

  lemma DividesOnce(y: int, d: int, p: int, q: int)
    requires d > 0 && p * d <= y < p * d + d && q * d <= y < q * d + d
    ensures p == q
  {
    if p > q {
      StepApart(q, p, d);
    } else if q > p {
      StepApart(p, q, d);
    }
  }

  lemma StepApart(p: int, q: int, d: nat)
    requires p < q
    ensures p * d + d <= q * d
  {
    MulMonotone(p + 1, q, d);
    Distribute(p, 1, d);
  }

  // ---------------------------------------------------------------------------
  // The projection
  // ---------------------------------------------------------------------------

  ghost function InputsOf(cores: seq<TxCore>): set<BoxId> {
    if cores == [] then {} else Members(cores[0].inputs) + InputsOf(cores[1..])
  }

  predicate IsListed(core: TxCore, i: nat, p: Box -> bool, l: Live) {
    && l.id.Out? && l.id.creator == core
    && i <= l.id.index < |core.outputs|
    && l.box == core.outputs[l.id.index] && p(l.box)
  }

  /** The outputs from index `i` on that `p` admits, each under its id. */
  function Listed(core: TxCore, i: nat, p: Box -> bool): (ls: seq<Live>)
    requires i <= |core.outputs|
    ensures forall l :: l in ls <==> IsListed(core, i, p, l)
    decreases |core.outputs| - i
  {
    if i == |core.outputs| then []
    else (if p(core.outputs[i]) then [Live(Out(core, i), core.outputs[i])] else []) + Listed(core, i + 1, p)
  }

  /** The body's outputs that `p` admits, in committed order. */
  function BodyListed(cores: seq<TxCore>, p: Box -> bool): seq<Live> {
    if cores == [] then [] else Listed(cores[0], 0, p) + BodyListed(cores[1..], p)
  }

  /** The owners whose karma boxes, live before the body, the body spends. */
  ghost function TouchedOwners(boxes: Boxes, inputs: set<BoxId>): set<Key> {
    set id | id in inputs && id in boxes && boxes[id].Karma? :: boxes[id].owner
  }

  datatype Squared = Squared(owner: Key, boxes: seq<Live>)

  /** What the owner is left with: a touched owner's boxes after the body, a payee's as they stood. */
  ghost function Projected(ctx: Ctx, boxes: Boxes, cores: seq<TxCore>, owner: Key): seq<Live> {
    var inputs := InputsOf(cores);
    var before := KarmaBoxes(ctx, boxes, owner);
    if owner in TouchedOwners(boxes, inputs)
    then LessSpent(before, inputs) + LessSpent(BodyListed(cores, KarmaOf(owner)), inputs)
    else before
  }

  ghost function SquaredSet(boxes: Boxes, cores: seq<TxCore>, payees: set<Key>): set<Key> {
    TouchedOwners(boxes, InputsOf(cores)) + payees
  }

  ghost function OwedBy(ctx: Ctx, s: State, owner: Key, height: int): int
    requires ValidCtx(ctx)
  {
    var face := FaceOf(KarmaBoxes(ctx, s.boxes, owner));
    face - EffectiveKarma(ctx, face, RecordOf(s.records, owner), height)
  }

  /** What each identity the block touches or pays owes, before the block writes. */
  ghost function OwedBefore(ctx: Ctx, s: State, cores: seq<TxCore>, payees: set<Key>, height: int): Owed
    requires ValidCtx(ctx)
  {
    map owner | owner in SquaredSet(s.boxes, cores, payees) :: OwedBy(ctx, s, owner, height)
  }

  // ---------------------------------------------------------------------------
  // The plans
  // ---------------------------------------------------------------------------

  /** A plan whose burn is zero names no box. */
  datatype Plan = Plan(owner: Key, consumed: seq<Live>, newValue: nat, burn: nat, settledThrough: int)

  ghost function PlanOf(ctx: Ctx, records: Records, owner: Key, boxes: seq<Live>, height: int): Plan
    requires ValidCtx(ctx)
  {
    PlanWith(ctx, RecordOf(records, owner), owner, boxes, height)
  }

  function PlanWith(ctx: Ctx, record: Option<IdentityRecord>, owner: Key, boxes: seq<Live>, height: int): Plan
    requires ValidCtx(ctx)
  {
    var face := FaceOf(boxes);
    var effective := EffectiveKarma(ctx, face, record, height);
    var through := SettledThrough(ctx, record, height);
    if face > effective then Plan(owner, boxes, effective, face - effective, through)
    else Plan(owner, [], face, 0, through)
  }

  /** One plan for each owner that owes a period, in the owners' order. */
  ghost function PlansFor(ctx: Ctx, s: State, cores: seq<TxCore>, owners: seq<Key>, height: int): seq<Plan>
    requires ValidCtx(ctx)
  {
    if owners == [] then []
    else
      (if OwedPeriods(ctx, RecordOf(s.records, owners[0]), height) <= 0 then []
       else [PlanOf(ctx, s.records, owners[0], Projected(ctx, s.boxes, cores, owners[0]), height)])
      + PlansFor(ctx, s, cores, owners[1..], height)
  }

  ghost function DecayPlans(ctx: Ctx, s: State, cores: seq<TxCore>, payees: set<Key>, height: int): seq<Plan>
    requires ValidCtx(ctx)
  {
    PlansFor(ctx, s, cores, Ascending(SquaredSet(s.boxes, cores, payees)), height)
  }

  function CommitClock(records: Records, plan: Plan): Records {
    records[plan.owner := RecordOrEmpty(records, plan.owner).(lastDecayBlock := plan.settledThrough)]
  }

  function CommitClocks(records: Records, plans: seq<Plan>): Records
    decreases |plans|
  {
    if plans == [] then records else CommitClocks(CommitClock(records, plans[0]), plans[1..])
  }

  /** The plans name each owner once. */
  ghost predicate OwnersApart(plans: seq<Plan>) {
    forall i, j | 0 <= i < j < |plans| :: plans[i].owner != plans[j].owner
  }

  /** An owner's plan, if there is one. */
  ghost function PlanFor(plans: seq<Plan>, owner: Key): (plan: Option<Plan>)
    ensures plan.Some? ==> plan.value in plans && plan.value.owner == owner
    ensures plan.None? ==> forall p | p in plans :: p.owner != owner
  {
    if plans == [] then None else if plans[0].owner == owner then Some(plans[0]) else PlanFor(plans[1..], owner)
  }

  /** A planned owner's clock stands at the plan's height, over the record as it was; the others' are untouched. */
  ghost predicate ClockCommitted(before: Records, plans: seq<Plan>, after: Records, owner: Key) {
    var plan := PlanFor(plans, owner);
    RecordOf(after, owner) ==
      if plan.Some? then Some(RecordOrEmpty(before, owner).(lastDecayBlock := plan.value.settledThrough))
      else RecordOf(before, owner)
  }

  lemma {:induction false} CommittedAt(records: Records, plans: seq<Plan>, owner: Key)
    requires OwnersApart(plans)
    ensures ClockCommitted(records, plans, CommitClocks(records, plans), owner)
    decreases |plans|
  {
    if plans != [] {
      var next := CommitClock(records, plans[0]);
      CommittedAt(next, plans[1..], owner);
      if plans[0].owner == owner {
        assert forall i | 0 <= i < |plans[1..]| :: plans[1..][i] == plans[i + 1] && plans[i + 1].owner != owner;
        assert PlanFor(plans[1..], owner).None?;
      }
    }
  }

  /** The plans of ascending owners name each once. */
  lemma {:induction false} PlansApart(ctx: Ctx, s: State, cores: seq<TxCore>, owners: seq<Key>, height: int)
    requires ValidCtx(ctx) && Distinct(owners)
    ensures OwnersApart(PlansFor(ctx, s, cores, owners, height))
    ensures forall p | p in PlansFor(ctx, s, cores, owners, height) :: p.owner in owners
  {
    if owners != [] {
      DistinctTail(owners);
      PlansApart(ctx, s, cores, owners[1..], height);
      var rest := PlansFor(ctx, s, cores, owners[1..], height);
      assert forall i | 0 <= i < |rest| :: rest[i] in rest && rest[i].owner != owners[0];
    }
  }

  /** A block's plans name each owner once, so the clocks it commits are each owner's own. */
  lemma DecayPlansApart(ctx: Ctx, s: State, cores: seq<TxCore>, payees: set<Key>, height: int)
    requires ValidCtx(ctx)
    ensures OwnersApart(DecayPlans(ctx, s, cores, payees, height))
  {
    AscendingLists(SquaredSet(s.boxes, cores, payees));
    PlansApart(ctx, s, cores, Ascending(SquaredSet(s.boxes, cores, payees)), height);
  }

  method CommitDecayClocks(records: Records, plans: seq<Plan>) returns (after: Records)
    ensures after == CommitClocks(records, plans)
    ensures OwnersApart(plans) ==> forall owner :: ClockCommitted(records, plans, after, owner)
  {
    after := records;
    for i := 0 to |plans|
      invariant CommitClocks(after, plans[i..]) == CommitClocks(records, plans)
    {
      assert plans[i..][1..] == plans[i + 1..];
      after := CommitClock(after, plans[i]);
    }
    if OwnersApart(plans) {
      forall owner ensures ClockCommitted(records, plans, after, owner) {
        CommittedAt(records, plans, owner);
      }
    }
  }
}
