/** What a block captures before its body, read over the overlay. */
module ApplyCaptures {
  import opened Wrappers
  import opened Sums
  import opened Orders
  import opened Sorting
  import opened Ledger
  import opened Engine
  import opened Body
  import opened Coinbase
  import opened Queries
  import opened Decay
  import opened Settlement
  import opened Blocks
  import opened StateReads
  import opened Overlays
  import opened ValidateOver

  // ---------------------------------------------------------------------------
  // The like leg
  // ---------------------------------------------------------------------------

  /** The author's carry box: the first accrual box that is no marker of the block. */
  method CarryOver(state: BlockOverlay, lists: Reads, markers: seq<Live>, author: Key) returns (carried: Option<Live>)
    requires InUse(state, lists)
    ensures carried == CarryOf(state.ctx, state.Now().boxes, markers, author)
  {
    var boxes := state.GetLikeAccrualBoxes(author, AccrualRead(state.ctx, lists, state.view, author));
    carried := FirstNotIn(boxes, IdSet(markers));
  }

  method PayoutOver(state: BlockOverlay, lists: Reads, markers: seq<Live>, author: Key) returns (payout: Payout)
    requires InUse(state, lists)
    ensures payout == PayoutFor(state.ctx, state.Now().boxes, markers, author)
  {
    var carried := CarryOver(state, lists, markers, author);
    payout := PayoutOf(author, Credited(markers, author) + CarriedValue(carried), carried);
  }

  ghost function PayoutFor(ctx: Ctx, boxes: Boxes, markers: seq<Live>, author: Key): Payout {
    var carried := CarryOf(ctx, boxes, markers, author);
    PayoutOf(author, Credited(markers, author) + CarriedValue(carried), carried)
  }

  lemma {:induction false} PayoutsSnoc(ctx: Ctx, boxes: Boxes, markers: seq<Live>, authors: seq<Key>, author: Key)
    ensures PayoutsFor(ctx, boxes, markers, authors + [author])
      == PayoutsFor(ctx, boxes, markers, authors) + [PayoutFor(ctx, boxes, markers, author)]
  {
    if authors == [] {
      assert authors + [author] == [author];
      assert PayoutsFor(ctx, boxes, markers, [author][1..]) == [];
    } else {
      assert (authors + [author])[1..] == authors[1..] + [author];
      PayoutsSnoc(ctx, boxes, markers, authors[1..], author);
    }
  }

  method PayoutsOver(state: BlockOverlay, lists: Reads, markers: seq<Live>, authors: seq<Key>)
    returns (payouts: seq<Payout>)
    requires InUse(state, lists)
    ensures payouts == PayoutsFor(state.ctx, state.Now().boxes, markers, authors)
  {
    ghost var boxes := state.Now().boxes;
    payouts := [];
    for i := 0 to |authors|
      invariant payouts == PayoutsFor(state.ctx, boxes, markers, authors[..i])
    {
      assert authors[..i + 1] == authors[..i] + [authors[i]];
      PayoutsSnoc(state.ctx, boxes, markers, authors[..i], authors[i]);
      var payout := PayoutOver(state, lists, markers, authors[i]);
      payouts := payouts + [payout];
    }
    assert authors[..|authors|] == authors;
  }

  /** One payout a credited author, ascending. */
  method ComputeLikePayouts(state: BlockOverlay, lists: Reads, markers: seq<Live>) returns (payouts: seq<Payout>)
    requires InUse(state, lists)
    ensures payouts == LikePayouts(state.ctx, state.Now().boxes, markers)
  {
    var authors := SortedKeys(Authors(markers));
    payouts := PayoutsOver(state, lists, markers, authors);
  }

  // ---------------------------------------------------------------------------
  // Bonds and earnings
  // ---------------------------------------------------------------------------

  function VestedOver(state: BlockOverlay, bond: Live): (vested: nat)
    reads state
    ensures vested == Vested(state.Now().records, bond)
  {
    var record := state.GetIdentityRecord(InviteeOf(bond.box));
    VestedPart(bond.box, if record.Some? then record.value.lifetimeLikesReceived else 0)
  }

  function BondEarnings(state: BlockOverlay, bonds: seq<Live>): (es: seq<Earning>)
    reads state
    ensures es == FromBonds(state.Now().records, bonds)
  {
    if bonds == [] then []
    else [Earning(InviterOf(bonds[0].box), VestedOver(state, bonds[0]))] + BondEarnings(state, bonds[1..])
  }

  function ForfeitedOver(state: BlockOverlay, bonds: seq<Live>): (forfeited: nat)
    reads state
    ensures forfeited == Forfeited(state.Now().records, bonds)
  {
    if bonds == [] then 0
    else bonds[0].box.value - VestedOver(state, bonds[0]) + ForfeitedOver(state, bonds[1..])
  }

  /** The bonds whose invitees were granted by `invitedAt`, or none where the block has written into their set. */
  method BondsSettling(state: BlockOverlay, lists: Reads, invitedAt: int) returns (bonds: Option<seq<Live>>)
    requires InUse(state, lists)
    ensures !state.BondsTouched(invitedAt) ==> bonds.Some?
    ensures bonds.Some? && state.GrantHeightsKept() ==>
      bonds.value == if invitedAt <= 0 then [] else BondsInvitedAt(state.ctx, state.Now(), invitedAt)
  {
    if invitedAt <= 0 {
      bonds := Some([]);
    } else {
      bonds := state.GetBondsInvitedAt(invitedAt, BondRead(state.ctx, lists, state.view, invitedAt));
    }
  }

  // ---------------------------------------------------------------------------
  // Before any write
  // ---------------------------------------------------------------------------

  /** Nothing but posts has been written. */
  predicate Unwritten(state: BlockOverlay)
    reads state
  {
    state.inserted == map[] && state.spent == map[] && state.records == map[]
  }

  lemma UnwrittenAnswers(state: BlockOverlay, height: int)
    requires state.Valid() && Unwritten(state)
    ensures !state.BondsTouched(height) && state.GrantHeightsKept() && !state.EscrowsTouched(height)
      && !state.LapsesTouched()
    ensures !state.Touched(IsBackerPool)
  {
  }

  lemma SettlingAt(ctx: Ctx, s: State, height: int, bonds: seq<Live>)
    requires var invitedAt := WindowStart(ctx, height);
      bonds == if invitedAt <= 0 then [] else BondsInvitedAt(ctx, s, invitedAt)
    ensures bonds == BondsSettlingAt(ctx, s, height)
  {
  }

  method EarnersOver(state: BlockOverlay, payouts: seq<Payout>, bonds: seq<Live>,
    escrows: seq<Live>) returns (earners: set<Key>)
    ensures earners == EarnersOf(state.Now().records, payouts, bonds, escrows)
  {
    earners := Earners(FromLikes(payouts) + BondEarnings(state, bonds) + FromEscrows(escrows));
  }

  /** The identities the income leg will pay, from the body's markers and the state before it. */
  method PayeesOver(state: BlockOverlay, lists: Reads, markers: seq<Live>, escrows: seq<Live>,
    height: int) returns (payees: set<Key>)
    requires InUse(state, lists) && Unwritten(state)
    ensures payees == Payees(state.ctx, state.Now(), markers, escrows, height)
  {
    var invitedAt := WindowStart(state.ctx, height);
    UnwrittenAnswers(state, invitedAt);
    var payouts := ComputeLikePayouts(state, lists, markers);
    var bonds := BondsSettling(state, lists, invitedAt);
    SettlingAt(state.ctx, state.Now(), height, bonds.value);
    payees := EarnersOver(state, payouts, bonds.value, escrows);
  }

  // ---------------------------------------------------------------------------
  // The squared set
  // ---------------------------------------------------------------------------

  function InputSet(cores: seq<TxCore>): (ids: set<BoxId>)
    ensures ids == InputsOf(cores)
  {
    if cores == [] then {} else (set id | id in cores[0].inputs) + InputSet(cores[1..])
  }

  function KarmaOwner(state: BlockOverlay, id: BoxId): (owner: Option<Key>)
    reads state
    requires state.Valid()
  {
    var box := state.GetBox(id);
    if box.Some? && box.value.Karma? then Some(box.value.owner) else None
  }

  function TouchedOver(state: BlockOverlay, inputs: set<BoxId>): (owners: set<Key>)
    reads state
    requires state.Valid()
    ensures owners == TouchedOwners(state.Now().boxes, inputs)
  {
    set id | id in inputs && KarmaOwner(state, id).Some? :: KarmaOwner(state, id).value
  }

  method OwedOf(state: BlockOverlay, lists: Reads, owner: Key, height: int) returns (owed: int)
    requires InUse(state, lists) && ValidCtx(state.ctx)
    ensures owed == OwedBy(state.ctx, state.Now(), owner, height)
  {
    var boxes := state.GetKarmaBoxes(owner, KarmaRead(state.ctx, lists, state.view, owner));
    var face := FaceOf(boxes);
    owed := face - EffectiveKarma(state.ctx, face, state.GetIdentityRecord(owner), height);
  }

  ghost predicate OwedSoFar(ctx: Ctx, s: State, owed: Owed, owners: seq<Key>, height: int)
    requires ValidCtx(ctx)
  {
    owed.Keys == Members(owners) && forall k | k in owed :: owed[k] == OwedBy(ctx, s, k, height)
  }

  lemma OneMoreOwed(ctx: Ctx, s: State, owed: Owed, owners: seq<Key>, i: nat, height: int)
    requires ValidCtx(ctx) && i < |owners| && OwedSoFar(ctx, s, owed, owners[..i], height)
    ensures OwedSoFar(ctx, s, owed[owners[i] := OwedBy(ctx, s, owners[i], height)], owners[..i + 1], height)
  {
    assert owners[..i + 1] == owners[..i] + [owners[i]];
  }

  lemma OwedIsWhole(ctx: Ctx, s: State, owed: Owed, owners: seq<Key>, cores: seq<TxCore>, payees: set<Key>, height: int)
    requires ValidCtx(ctx) && OwedSoFar(ctx, s, owed, owners, height) && Members(owners)
      == SquaredSet(s.boxes, cores, payees)
    ensures owed == OwedBefore(ctx, s, cores, payees, height)
  {
  }

  /** What each touched or paid identity owes, before the block writes. */
  method OwedOver(state: BlockOverlay, lists: Reads, cores: seq<TxCore>, payees: set<Key>,
    height: int) returns (owed: Owed)
    requires InUse(state, lists) && ValidCtx(state.ctx)
    ensures owed == OwedBefore(state.ctx, state.Now(), cores, payees, height)
  {
    var owners := ListOf(TouchedOver(state, InputSet(cores)) + payees);
    owed := map[];
    for i := 0 to |owners|
      invariant OwedSoFar(state.ctx, state.Now(), owed, owners[..i], height)
    {
      var one := OwedOf(state, lists, owners[i], height);
      OneMoreOwed(state.ctx, state.Now(), owed, owners, i, height);
      owed := owed[owners[i] := one];
    }
    assert owners[..|owners|] == owners;
    OwedIsWhole(state.ctx, state.Now(), owed, owners, cores, payees, height);
  }

  // ---------------------------------------------------------------------------
  // The plans
  // ---------------------------------------------------------------------------

  method ProjectedOver(state: BlockOverlay, lists: Reads, cores: seq<TxCore>, owner: Key) returns (boxes: seq<Live>)
    requires InUse(state, lists)
    ensures boxes == Projected(state.ctx, state.Now().boxes, cores, owner)
  {
    var before := state.GetKarmaBoxes(owner, KarmaRead(state.ctx, lists, state.view, owner));
    var inputs := InputSet(cores);
    if owner in TouchedOver(state, inputs) {
      boxes := LessSpent(before, inputs) + LessSpent(BodyListed(cores, KarmaOf(owner)), inputs);
    } else {
      boxes := before;
    }
  }

  /** An owner's plan, or none where no period is owed. */
  method PlanOver(state: BlockOverlay, lists: Reads, cores: seq<TxCore>, owner: Key,
    height: int) returns (plan: seq<Plan>)
    requires InUse(state, lists) && ValidCtx(state.ctx)
    ensures plan == PlansFor(state.ctx, state.Now(), cores, [owner], height)
  {
    PlansOfOne(state.ctx, state.Now(), cores, owner, height);
    var record := state.GetIdentityRecord(owner);
    if OwedPeriods(state.ctx, record, height) <= 0 {
      return [];
    }
    var boxes := ProjectedOver(state, lists, cores, owner);
    plan := [PlanWith(state.ctx, record, owner, boxes, height)];
  }

  lemma PlansOfOne(ctx: Ctx, s: State, cores: seq<TxCore>, owner: Key, height: int)
    requires ValidCtx(ctx)
    ensures PlansFor(ctx, s, cores, [owner], height) ==
      if OwedPeriods(ctx, RecordOf(s.records, owner), height) <= 0 then []
      else [PlanWith(ctx, RecordOf(s.records, owner), owner, Projected(ctx, s.boxes, cores, owner), height)]
  {
    assert PlansFor(ctx, s, cores, [owner][1..], height) == [];
  }

  lemma {:induction false} PlansSnoc(ctx: Ctx, s: State, cores: seq<TxCore>, owners: seq<Key>, owner: Key, height: int)
    requires ValidCtx(ctx)
    ensures PlansFor(ctx, s, cores, owners + [owner], height)
      == PlansFor(ctx, s, cores, owners, height) + PlansFor(ctx, s, cores, [owner], height)
  {
    if owners == [] {
      assert owners + [owner] == [owner];
    } else {
      assert (owners + [owner])[1..] == owners[1..] + [owner];
      PlansSnoc(ctx, s, cores, owners[1..], owner, height);
    }
  }

  method PlansOver(state: BlockOverlay, lists: Reads, cores: seq<TxCore>, owners: seq<Key>, height: int)
    returns (plans: seq<Plan>)
    requires InUse(state, lists) && ValidCtx(state.ctx)
    ensures plans == PlansFor(state.ctx, state.Now(), cores, owners, height)
  {
    ghost var s := state.Now();
    plans := [];
    for i := 0 to |owners|
      invariant plans == PlansFor(state.ctx, s, cores, owners[..i], height)
    {
      assert owners[..i + 1] == owners[..i] + [owners[i]];
      PlansSnoc(state.ctx, s, cores, owners[..i], owners[i], height);
      var plan := PlanOver(state, lists, cores, owners[i], height);
      plans := plans + plan;
    }
    assert owners[..|owners|] == owners;
  }

  /** One plan an owner of the squared set that owes a period, ascending. */
  method DeriveKarmaDecay(state: BlockOverlay, lists: Reads, cores: seq<TxCore>, payees: set<Key>, height: int)
    returns (plans: seq<Plan>)
    requires InUse(state, lists) && ValidCtx(state.ctx)
    ensures plans == DecayPlans(state.ctx, state.Now(), cores, payees, height)
  {
    var owners := SortedKeys(TouchedOver(state, InputSet(cores)) + payees);
    plans := PlansOver(state, lists, cores, owners, height);
  }

  // ---------------------------------------------------------------------------
  // The captures
  // ---------------------------------------------------------------------------

  /** The captures ahead of the body: escrows, lapses, the backer pool, the owed map and the plans. */
  method Capture(state: BlockOverlay, lists: Reads, cores: seq<TxCore>, height: nat) returns (cap: Captured, owed: Owed)
    requires InUse(state, lists) && Unwritten(state) && ValidCtx(state.ctx)
    ensures cap == CapturedOf(state.ctx, state.Now(), cores, height)
    ensures owed == OwedBefore(state.ctx, state.Now(), cores, PayeesOf(state.ctx, state.Now(), cores, height), height)
  {
    UnwrittenAnswers(state, height);
    var escrows := state.GetVouchEscrowsReleasableAt(height, DueEscrowRead(state.ctx, lists, state.view, height));
    var lapsed := state.GetLapsedVouches(LapseRead(state.ctx, lists, state.view));
    ProtocolReads(state.ctx, lists, state.view);
    var backerPool := state.GetProtocolBox(IsBackerPool, lists.backerPoolBox);
    var inputs := InputSet(cores);
    var payees := PayeesOver(state, lists, BodyListed(cores, IsAccrual), escrows.value, height);
    owed := OwedOver(state, lists, cores, payees, height);
    var plans := DeriveKarmaDecay(state, lists, cores, payees, height);
    cap := Captured(escrows.value, LessSpent(lapsed.value, inputs), backerPool.value, plans, inputs);
  }
}
