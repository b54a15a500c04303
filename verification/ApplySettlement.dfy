/** The settlement over the overlay: gathered, derived, checked and applied. */
module ApplySettlement {
  import opened Wrappers
  import opened Sums
  import opened Orders
  import opened Sorting
  import opened Ledger
  import opened Engine
  import opened Body
  import opened Coinbase
  import opened Queries
  import opened Decay
  import opened Settlement
  import opened Blocks
  import opened StateReads
  import opened Overlays
  import opened ApplyOver
  import opened ApplyBody
  import opened ApplyCaptures
  import opened ValidateOver
  import opened Tripwires

  // ---------------------------------------------------------------------------
  // What the body contributes
  // ---------------------------------------------------------------------------

  function Joined(a: SettlementBody, b: SettlementBody): SettlementBody {
    SettlementBody(a.fees + b.fees, a.rent + b.rent, a.actors, a.feeBoxes + b.feeBoxes, a.bonds + b.bonds,
      a.markers + b.markers, a.prices + b.prices, a.unstakes + b.unstakes)
  }

  /** One transaction's outputs, each kind under its own head. */
  function Contribution(core: TxCore, inRent: bool): SettlementBody {
    var fee := FaceOf(Listed(core, 0, IsFee));
    SettlementBody(if inRent then 0 else fee, if inRent then fee else 0, 0,
      Listed(core, 0, IsFee), Listed(core, 0, IsBond), Listed(core, 0, IsAccrual), Listed(core, 0, IsPrice),
          Listed(core, 0, IsUnstake))
  }

  lemma {:induction false} ListedSnoc(cores: seq<TxCore>, core: TxCore, p: Box -> bool)
    ensures BodyListed(cores + [core], p) == BodyListed(cores, p) + Listed(core, 0, p)
  {
    if cores == [] {
      assert cores + [core] == [core];
      assert BodyListed([core][1..], p) == [];
    } else {
      assert (cores + [core])[1..] == cores[1..] + [core];
      ListedSnoc(cores[1..], core, p);
    }
  }

  lemma {:induction false} FeesSnoc(cores: seq<TxCore>, core: TxCore, rent: set<TxCore>, inRent: bool)
    ensures FeesOf(cores + [core], rent, inRent)
      == FeesOf(cores, rent, inRent) + if (core in rent) == inRent then FaceOf(Listed(core, 0, IsFee)) else 0
  {
    if cores == [] {
      assert cores + [core] == [core];
      assert FeesOf([core][1..], rent, inRent) == 0;
    } else {
      assert (cores + [core])[1..] == cores[1..] + [core];
      FeesSnoc(cores[1..], core, rent, inRent);
    }
  }

  lemma OneMoreContributes(cores: seq<TxCore>, core: TxCore, rent: set<TxCore>, actors: nat)
    ensures BodyOf(cores + [core], rent, actors) == Joined(BodyOf(cores, rent, actors),
      Contribution(core, core in rent))
  {
    FeesSnoc(cores, core, rent, false);
    FeesSnoc(cores, core, rent, true);
    ListedSnoc(cores, core, IsFee);
    ListedSnoc(cores, core, IsBond);
    ListedSnoc(cores, core, IsAccrual);
    ListedSnoc(cores, core, IsPrice);
    ListedSnoc(cores, core, IsUnstake);
  }

  /** The body's contributions, transaction by transaction in committed order. */
  method GatherBody(cores: seq<TxCore>, rent: set<TxCore>, actors: nat) returns (body: SettlementBody)
    ensures body == BodyOf(cores, rent, actors)
  {
    body := SettlementBody(0, 0, actors, [], [], [], [], []);
    for i := 0 to |cores|
      invariant body == BodyOf(cores[..i], rent, actors)
    {
      assert cores[..i + 1] == cores[..i] + [cores[i]];
      OneMoreContributes(cores[..i], cores[i], rent, actors);
      body := Joined(body, Contribution(cores[i], cores[i] in rent));
    }
    assert cores[..|cores|] == cores;
  }

  // ---------------------------------------------------------------------------
  // The legs
  // ---------------------------------------------------------------------------

  method IncomeOver(state: BlockOverlay, lists: Reads, es: seq<Earning>, spent: set<BoxId>,
    owner: Key) returns (income: Income)
    requires InUse(state, lists)
    ensures income == IncomeFor(state.ctx, state.Now().boxes, es, spent, owner)
  {
    var boxes := state.GetKarmaBoxes(owner, KarmaRead(state.ctx, lists, state.view, owner));
    income := Income(owner, Earned(es, owner), FirstNotIn(Marked(boxes), spent));
  }

  ghost function IncomeFor(ctx: Ctx, boxes: Boxes, es: seq<Earning>, spent: set<BoxId>, owner: Key): Income {
    Income(owner, Earned(es, owner), IncomeBox(ctx, boxes, owner, spent))
  }

  lemma {:induction false} IncomesSnoc(ctx: Ctx, boxes: Boxes, es: seq<Earning>, spent: set<BoxId>, owners: seq<Key>,
    owner: Key)
    ensures IncomesFor(ctx, boxes, es, spent, owners + [owner])
      == IncomesFor(ctx, boxes, es, spent, owners) + [IncomeFor(ctx, boxes, es, spent, owner)]
  {
    if owners == [] {
      assert owners + [owner] == [owner];
      assert IncomesFor(ctx, boxes, es, spent, [owner][1..]) == [];
    } else {
      assert (owners + [owner])[1..] == owners[1..] + [owner];
      IncomesSnoc(ctx, boxes, es, spent, owners[1..], owner);
    }
  }

  /** One income an earning owner, ascending, over the marked box they hold. */
  method IncomesOver(state: BlockOverlay, lists: Reads, es: seq<Earning>,
    spent: set<BoxId>) returns (incomes: seq<Income>)
    requires InUse(state, lists)
    ensures incomes == IncomesFor(state.ctx, state.Now().boxes, es, spent, Ascending(Earners(es)))
  {
    var owners := SortedKeys(Earners(es));
    ghost var boxes := state.Now().boxes;
    incomes := [];
    for i := 0 to |owners|
      invariant incomes == IncomesFor(state.ctx, boxes, es, spent, owners[..i])
    {
      assert owners[..i + 1] == owners[..i] + [owners[i]];
      IncomesSnoc(state.ctx, boxes, es, spent, owners[..i], owners[i]);
      var income := IncomeOver(state, lists, es, spent, owners[i]);
      incomes := incomes + [income];
    }
    assert owners[..|owners|] == owners;
  }

  ghost function DueAt(ctx: Ctx, s: State, invitedAt: int): seq<Live> {
    if invitedAt <= 0 then [] else BondsInvitedAt(ctx, s, invitedAt)
  }

  /** The karma legs, the bonds granted by `invitedAt` among them. None: the tripwire. */
  method LegsOver(state: BlockOverlay, lists: Reads, cap: Captured, body: SettlementBody,
    invitedAt: int) returns (legs: Option<Legs>)
    requires InUse(state, lists)
    ensures !state.BondsTouched(invitedAt) ==> legs.Some?
    ensures legs.Some? && state.GrantHeightsKept() ==>
      legs.value == LegsFrom(state.ctx, state.Now(), cap, body, DueAt(state.ctx, state.Now(), invitedAt))
  {
    var bonds := BondsSettling(state, lists, invitedAt);
    if bonds.None? {
      return None;
    }
    var found := LegsWith(state, lists, cap, body, bonds.value);
    legs := Some(found);
  }

  method LegsWith(state: BlockOverlay, lists: Reads, cap: Captured, body: SettlementBody,
    bonds: seq<Live>) returns (legs: Legs)
    requires InUse(state, lists)
    ensures legs == LegsFrom(state.ctx, state.Now(), cap, body, bonds)
  {
    var payouts := ComputeLikePayouts(state, lists, body.markers);
    var earnings := FromLikes(payouts) + BondEarnings(state, bonds) + FromEscrows(cap.escrows);
    var incomes := IncomesOver(state, lists, earnings, cap.spent + IdSet(Consumed(cap.plans)));
    legs := Legs(payouts, bonds, earnings, incomes);
  }

  ghost function LegsFrom(ctx: Ctx, s: State, cap: Captured, body: SettlementBody, bonds: seq<Live>): Legs {
    var payouts := LikePayouts(ctx, s.boxes, body.markers);
    var earnings := Earnings(s.records, payouts, bonds, cap.escrows);
    Legs(payouts, bonds, earnings,
      IncomesFor(ctx, s.boxes, earnings, cap.spent + IdSet(Consumed(cap.plans)), Ascending(Earners(earnings))))
  }

  lemma LegsAre(ctx: Ctx, s: State, cap: Captured, height: int, body: SettlementBody)
    ensures LegsFrom(ctx, s, cap, body, DueAt(ctx, s, WindowStart(ctx, height))) == LegsOf(ctx, s, cap, height, body)
  {
    SettlingAt(ctx, s, height, DueAt(ctx, s, WindowStart(ctx, height)));
  }

  // ---------------------------------------------------------------------------
  // The derivation
  // ---------------------------------------------------------------------------

  function SinkOver(state: BlockOverlay, cap: Captured, body: SettlementBody, legs: Legs): (sink: nat)
    reads state
    ensures sink == PoolSink(state.Now().records, cap, body, legs)
  {
    FaceOf(body.prices) + Pooled(legs.payouts) + ForfeitedOver(state, legs.bonds) + Burned(cap.plans)
  }

  /** The treasury's move; the box is read where there is a slice to add. None: the tripwire. */
  method TreasuryOver(state: BlockOverlay, lists: Reads, slice: nat, height: nat) returns (move: Option<Move>)
    requires InUse(state, lists)
    ensures !state.Touched(IsTreasury) ==> move.Some?
    ensures move.Some? ==> move.value == TreasuryMove(state.ctx, state.Now().boxes, slice, height)
  {
    if slice == 0 {
      return Some(Move([], []));
    }
    ProtocolReads(state.ctx, lists, state.view);
    var box := state.GetProtocolBox(IsTreasury, lists.treasuryBox);
    if box.None? {
      return None;
    }
    move := Some(MoveTreasury(box.value, slice, height));
  }

  /** The karma pool's move; the box is read where anything moves. Thrown: the tripwire. */
  method PoolOver(state: BlockOverlay, lists: Reads, draw: nat, sink: nat,
    height: nat) returns (move: Outcome<Option<Move>>)
    requires InUse(state, lists)
    ensures !state.Touched(IsKarmaPool) ==> move.Done?
    ensures move.Done? ==> move.value == PoolMove(state.ctx, state.Now().boxes, draw, sink, height)
  {
    if draw == 0 && sink == 0 {
      return Done(Some(Move([], [])));
    }
    ProtocolReads(state.ctx, lists, state.view);
    var box := state.GetProtocolBox(IsKarmaPool, lists.karmaPoolBox);
    if box.None? {
      return Thrown;
    }
    move := Done(MovePool(box.value, draw, sink, height));
  }

  method EmissionOver(state: BlockOverlay, lists: Reads) returns (box: Option<Option<Live>>)
    requires InUse(state, lists)
    ensures !state.Touched(IsEmission) ==> box.Some?
    ensures box.Some? ==> box.value == FirstLive(state.ctx, state.Now().boxes, IsEmission)
  {
    ProtocolReads(state.ctx, lists, state.view);
    box := state.GetProtocolBox(IsEmission, lists.emissionBox);
  }

  /** The derivation, its legs given. */
  ghost function DeriveWith(
    ctx: Ctx, boxes: Boxes, records: Records, cap: Captured, height: nat, body: SettlementBody, slices: Slices,
    legs: Legs)
    : Option<Derived>
    requires slices.backer.Active? ==> |slices.backer.leg.releases| == |body.unstakes|
  {
    var backer := BackerMove(slices.backer, body.unstakes, height);
    var pool := PoolMove(ctx, boxes, PoolDraw(body), PoolSink(records, cap, body, legs), height);
    if backer.None? || pool.None? then None
    else
      Some(Assemble(ctx, cap, height, body, slices,
        TreasuryMove(ctx, boxes, slices.split.treasury, height), backer.value, legs, pool.value))
  }

  lemma SlicesRelease(ctx: Ctx, boxes: Boxes, cap: Captured, height: int, body: SettlementBody)
    requires ValidCtx(ctx) && SlicesOf(ctx, boxes, cap, height, body).Some?
    ensures var slices := SlicesOf(ctx, boxes, cap, height, body).value;
      slices.backer.Active? ==> |slices.backer.leg.releases| == |body.unstakes|
  {
  }

  lemma DerivedWith(ctx: Ctx, s: State, cap: Captured, height: nat, body: SettlementBody, slices: Slices,
    bonds: seq<Live>)
    requires ValidCtx(ctx) && SlicesOf(ctx, s.boxes, cap, height, body) == Some(slices)
    requires bonds == DueAt(ctx, s, WindowStart(ctx, height))
    ensures slices.backer.Active? ==> |slices.backer.leg.releases| == |body.unstakes|
    ensures Derive(ctx, s, cap, height, body)
      == DeriveWith(ctx, s.boxes, s.records, cap, height, body, slices, LegsFrom(ctx, s, cap, body, bonds))
  {
    SlicesRelease(ctx, s.boxes, cap, height, body);
    LegsAre(ctx, s, cap, height, body);
    DerivedFrom(ctx, s, cap, height, body, slices, LegsFrom(ctx, s, cap, body, bonds));
  }

  lemma DerivedFrom(ctx: Ctx, s: State, cap: Captured, height: nat, body: SettlementBody, slices: Slices, legs: Legs)
    requires ValidCtx(ctx) && SlicesOf(ctx, s.boxes, cap, height, body) == Some(slices)
    requires slices.backer.Active? ==> |slices.backer.leg.releases| == |body.unstakes|
    requires legs == LegsOf(ctx, s, cap, height, body)
    ensures Derive(ctx, s, cap, height, body) == DeriveWith(ctx, s.boxes, s.records, cap, height, body, slices, legs)
  {
  }

  /** The moves, once the credit side's figures and the legs stand. */
  method MovesOver(state: BlockOverlay, lists: Reads, cap: Captured, height: nat, body: SettlementBody, slices: Slices,
    legs: Legs)
    returns (d: Outcome<Option<Derived>>)
    requires InUse(state, lists)
    requires slices.backer.Active? ==> |slices.backer.leg.releases| == |body.unstakes|
    ensures !state.Touched(IsTreasury) && !state.Touched(IsKarmaPool) ==> d.Done?
    ensures d.Done? ==>
      d.value == DeriveWith(state.ctx, state.Now().boxes, state.Now().records, cap, height, body, slices, legs)
  {
    var treasury := TreasuryOver(state, lists, slices.split.treasury, height);
    if treasury.None? {
      return Thrown;
    }
    var backer := BackerMove(slices.backer, body.unstakes, height);
    var pool := PoolOver(state, lists, PoolDraw(body), SinkOver(state, cap, body, legs), height);
    if !pool.Done? {
      return Thrown;
    }
    d := if backer.None? || pool.value.None? then Done(None)
         else Done(Some(Assemble(state.ctx, cap, height, body, slices, treasury.value, backer.value, legs,
             pool.value.value)));
  }

  /** The legs and the moves, the bonds granted by `invitedAt` among them. */
  method DeriveRest(
    state: BlockOverlay, lists: Reads, cap: Captured, height: nat, body: SettlementBody, slices: Slices, invitedAt: int)
    returns (d: Outcome<Option<Derived>>)
    requires InUse(state, lists)
    requires slices.backer.Active? ==> |slices.backer.leg.releases| == |body.unstakes|
    ensures Untripped(state, invitedAt) ==> d.Done?
    ensures d.Done? && state.GrantHeightsKept() ==>
      d.value == DeriveWith(state.ctx, state.Now().boxes, state.Now().records, cap, height, body, slices,
        LegsFrom(state.ctx, state.Now(), cap, body, DueAt(state.ctx, state.Now(), invitedAt)))
  {
    var legs := LegsOver(state, lists, cap, body, invitedAt);
    if legs.None? {
      return Thrown;
    }
    d := MovesOver(state, lists, cap, height, body, slices, legs.value);
  }

  /** The derivation, its bonds those granted by `invitedAt`. */
  ghost function DeriveAt(ctx: Ctx, s: State, cap: Captured, height: nat, body: SettlementBody,
    invitedAt: int): Option<Derived>
    requires ValidCtx(ctx)
  {
    var slices := SlicesOf(ctx, s.boxes, cap, height, body);
    if slices.None? then None
    else
      SlicesRelease(ctx, s.boxes, cap, height, body);
      DeriveWith(ctx, s.boxes, s.records, cap, height, body, slices.value,
          LegsFrom(ctx, s, cap, body, DueAt(ctx, s, invitedAt)))
  }

  lemma DeriveIsAt(ctx: Ctx, s: State, cap: Captured, height: nat, body: SettlementBody)
    requires ValidCtx(ctx)
    ensures Derive(ctx, s, cap, height, body) == DeriveAt(ctx, s, cap, height, body, WindowStart(ctx, height))
  {
    var slices := SlicesOf(ctx, s.boxes, cap, height, body);
    if slices.Some? {
      DerivedWith(ctx, s, cap, height, body, slices.value, DueAt(ctx, s, WindowStart(ctx, height)));
    }
  }

  /** Everything the body decides, over the overlay; thrown where a limited query meets a write of the block. */
  method DeriveOver(state: BlockOverlay, lists: Reads, cap: Captured, height: nat, body: SettlementBody, invitedAt: int)
    returns (d: Outcome<Option<Derived>>)
    requires InUse(state, lists) && ValidCtx(state.ctx)
    ensures Untripped(state, invitedAt) ==> d.Done?
    ensures d.Done? && state.GrantHeightsKept() ==>
      d.value == DeriveAt(state.ctx, state.Now(), cap, height, body, invitedAt)
  {
    var emission := EmissionOver(state, lists);
    if emission.None? {
      return Thrown;
    }
    var slices := Slice(state.ctx, emission.value, cap, height, body);
    if slices.None? {
      return Done(None);
    }
    SlicesRelease(state.ctx, state.Now().boxes, cap, height, body);
    d := DeriveRest(state, lists, cap, height, body, slices.value, invitedAt);
  }

  // ---------------------------------------------------------------------------
  // The check
  // ---------------------------------------------------------------------------

  method ConservesOver(state: BlockOverlay, core: TxCore) returns (ok: bool)
    requires state.Valid()
    ensures ok <==> Conserves(state.Now().boxes, core)
  {
    var bs := InputBoxes(state, core.inputs);
    ok := bs.Some? && SeqSum(bs.value, ValueWeight()) == SeqSum(core.outputs, ValueWeight());
  }

  ghost predicate ChecksAt(
    ctx: Ctx, s: State, cap: Captured, height: nat, body: SettlementBody, settlement: Tx, invitedAt: int)
    requires ValidCtx(ctx)
  {
    var d := DeriveAt(ctx, s, cap, height, body, invitedAt);
    d.Some? && MatchesDerived(d.value, height, settlement) && Conserves(s.boxes, settlement.core)
  }

  /** The given settlement against the derivation, and the axiom over the whole of it. */
  method CheckOver(
    state: BlockOverlay, lists: Reads, cap: Captured, height: nat, body: SettlementBody, settlement: Tx, invitedAt: int)
    returns (checks: Outcome<bool>)
    requires InUse(state, lists) && ValidCtx(state.ctx)
    ensures Untripped(state, invitedAt) ==>
      checks == Done(ChecksAt(state.ctx, state.Now(), cap, height, body, settlement, invitedAt))
  {
    var d := DeriveOver(state, lists, cap, height, body, invitedAt);
    if !d.Done? {
      return Thrown;
    }
    var conserves := ConservesOver(state, settlement.core);
    checks := Done(d.value.Some? && MatchesDerived(d.value.value, height, settlement) && conserves);
  }

  // ---------------------------------------------------------------------------
  // Applied
  // ---------------------------------------------------------------------------

  method CaptureLapsed(state: BlockOverlay, acc: Acc, lapsed: seq<Live>) returns (captured: Acc)
    ensures captured == CaptureLapses(acc, state.Now().records, lapsed)
  {
    var targets := set l | l in lapsed :: TargetOf(l.box);
    captured := acc.(touched := acc.touched + targets, pre := CaptureOver(state, acc.pre, targets));
  }

  /** A checked settlement applied like any other transaction, and the records closed over it. False: a defect. */
  method ApplyChecked(state: BlockOverlay, acc: Acc, cap: Captured, core: TxCore, height: nat) returns (ok: bool)
    requires state.Valid() && acc.taken == state.Taken()
    modifies state`records, state`network, state`mutations, state`inserted, state`spent
    ensures state.Valid() && state.Kept()
    ensures ok <==> ClosedOver(state.ctx, old(state.Now()), acc, cap, core, height).Done?
    ensures ok ==> ClosedOver(state.ctx, old(state.Now()), acc, cap, core, height) == Done(state.Now())
  {
    var captured := CaptureLapsed(state, acc, cap.lapsed);
    ok := ApplyTransaction(state, core);
    if ok {
      ok := Close(state, state.ctx, captured, cap.plans, height);
    }
  }

  ghost function ClosedOver(ctx: Ctx, s: State, acc: Acc, cap: Captured, core: TxCore, height: nat): Outcome<State> {
    var applied := ApplyTx(s, acc.taken, core);
    if applied.None? then Thrown
    else CloseBlock(ctx, applied.value, CaptureLapses(acc, s.records, cap.lapsed), cap.plans, height)
  }

  ghost function CheckedAndClosed(
    ctx: Ctx, s: State, acc: Acc, cap: Captured, body: SettlementBody, settlement: Tx, height: nat, invitedAt: int)
    : Outcome<State>
    requires ValidCtx(ctx)
  {
    if ChecksAt(ctx, s, cap, height, body, settlement, invitedAt)
        then ClosedOver(ctx, s, acc, cap, settlement.core, height)
    else Rejected
  }

  /** The settlement's step, its bonds those granted by `invitedAt`. */
  ghost function SettledAt(ctx: Ctx, s: State, acc: Acc, cap: Captured, block: Block, invitedAt: int): Outcome<State>
    requires ValidCtx(ctx) && block.settlement.Some?
  {
    CheckedAndClosed(ctx, s, acc, cap, BodyOf(CoresOf(block.queue), acc.rent, ActorCount(acc, block.validator)),
      block.settlement.value, block.height, invitedAt)
  }

  lemma SettlesAtWindow(ctx: Ctx, s: State, acc: Acc, cap: Captured, block: Block)
    requires ValidCtx(ctx) && block.settlement.Some?
    ensures SettleBlock(ctx, s, acc, cap, block)
      == SettledAt(ctx, s, acc, cap, block, WindowStart(ctx, block.height))
  {
    DeriveIsAt(ctx, s, cap, block.height, BodyOf(CoresOf(block.queue), acc.rent, ActorCount(acc, block.validator)));
  }

  /** What a whole block comes to over the overlay is what it comes to over the state. */
  ghost predicate LeftAs(out: Outcome<()>, now: State, spec: Outcome<State>) {
    match spec
    case Done(after) => out.Done? && now == after
    case Rejected => out.Rejected?
    case Thrown => out.Thrown?
  }

  method SettleWith(
    state: BlockOverlay, lists: Reads, acc: Acc, cap: Captured, body: SettlementBody, settlement: Tx, height: nat,
    invitedAt: int)
    returns (out: Outcome<()>)
    requires InUse(state, lists) && ValidCtx(state.ctx) && acc.taken == state.Taken() && Untripped(state, invitedAt)
    modifies state`records, state`network, state`mutations, state`inserted, state`spent
    ensures state.Valid() && state.Kept()
    ensures LeftAs(out, state.Now(), CheckedAndClosed(state.ctx, old(state.Now()), acc, cap, body, settlement, height,
      invitedAt))
  {
    var checks := CheckOver(state, lists, cap, height, body, settlement, invitedAt);
    if !checks.value {
      return Rejected;
    }
    var ok := ApplyChecked(state, acc, cap, settlement.core, height);
    ClosedNeverRejects(state.ctx, old(state.Now()), acc, cap, settlement.core, height);
    out := if ok then Done(()) else Thrown;
  }

  lemma ClosedNeverRejects(ctx: Ctx, s: State, acc: Acc, cap: Captured, core: TxCore, height: nat)
    ensures !ClosedOver(ctx, s, acc, cap, core, height).Rejected?
  {
  }

  /** The settlement's whole step over what the body left. */
  method SettleOver(state: BlockOverlay, lists: Reads, acc: Acc, cap: Captured, block: Block, invitedAt: int)
    returns (out: Outcome<()>)
    requires InUse(state, lists) && ValidCtx(state.ctx) && block.settlement.Some? && acc.taken == state.Taken()
    requires Untripped(state, invitedAt)
    modifies state`records, state`network, state`mutations, state`inserted, state`spent
    ensures state.Valid() && state.Kept()
    ensures LeftAs(out, state.Now(), SettledAt(state.ctx, old(state.Now()), acc, cap, block, invitedAt))
  {
    var actors := CountKarmaActors(acc.applied, block.validator);
    var body := GatherBody(CoresOf(block.queue), acc.rent, actors);
    out := SettleWith(state, lists, acc, cap, body, block.settlement.value, block.height, invitedAt);
  }
}
