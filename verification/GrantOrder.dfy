/** Why the limited bond query needs grant heights kept: its order is by height, its tripwire by set alone. */
module GrantOrder {
  import opened Wrappers
  import opened Sums
  import opened Orders
  import opened Sorting
  import opened Ledger
  import opened Coinbase
  import opened Queries
  import opened Overlays

  /** Two due bonds are listed by height. */
  lemma TwoDue(ctx: Ctx, s: State, maxInvitedAt: int, x: Due, y: Due)
    requires DueBonds(s, maxInvitedAt) == {x, y} && x.invitedAt < y.invitedAt
    ensures BondsInvitedAt(ctx, s, maxInvitedAt) == [x.bond, y.bond]
  {
    var ds := [x, y];
    assert ByGrant(ctx)(x).0 == x.invitedAt && ByGrant(ctx)(y).0 == y.invitedAt;
    SortedIsUnique({x, y}, ByGrant(ctx), ds);
    assert BondsOf(ds)[0] == x.bond && BondsOf(ds)[1] == y.bond;
  }

  /** A view whose only boxes are two bonds, due at two heights. */
  ghost predicate TwoBonds(s: State, a: Live, b: Live, maxInvitedAt: int) {
    && a.id != b.id && s.boxes == map[a.id := a.box, b.id := b.box]
    && a.box.Bond? && b.box.Bond? && a.box.inviteePublicKey != b.box.inviteePublicKey
    && InvitedBy(s.records, a.box, maxInvitedAt) && InvitedBy(s.records, b.box, maxInvitedAt)
  }

  ghost function HeightOf(s: State, l: Live): int
    requires l.box.Bond? && l.box.inviteePublicKey in s.records
  {
    s.records[l.box.inviteePublicKey].invitedAtBlock
  }

  lemma TwoBondsListed(ctx: Ctx, s: State, a: Live, b: Live, maxInvitedAt: int)
    requires TwoBonds(s, a, b, maxInvitedAt) && HeightOf(s, a) < HeightOf(s, b)
    ensures BondsInvitedAt(ctx, s, maxInvitedAt) == [a, b]
  {
    var x, y := Due(a, HeightOf(s, a)), Due(b, HeightOf(s, b));
    forall d ensures d in DueBonds(s, maxInvitedAt) <==> d == x || d == y {
      assert a == Live(a.id, s.boxes[a.id]) && b == Live(b.id, s.boxes[b.id]);
    }
    TwoDue(ctx, s, maxInvitedAt, x, y);
  }

  /**
   * A write that moves a set grant height past another's, both still due: the tripwire stays down, since the set
   * is the same, and the view's answer is in the old order while the state's own is in the new one.
   */
  lemma MovedHeightReorders(state: BlockOverlay, a: Live, b: Live, moved: IdentityRecord, maxInvitedAt: int)
    requires state.Valid() && TwoBonds(state.view, a, b, maxInvitedAt)
      && HeightOf(state.view, a) < HeightOf(state.view, b)
    requires state.inserted == map[] && state.spent == map[] && state.records == map[a.box.inviteePublicKey := moved]
    requires HeightOf(state.view, b) < moved.invitedAtBlock <= maxInvitedAt
    ensures state.GetBondsInvitedAt(maxInvitedAt, BondsInvitedAt(state.ctx, state.view, maxInvitedAt)) == Some([a, b])
    ensures BondsInvitedAt(state.ctx, state.Now(), maxInvitedAt) == [b, a]
    ensures !state.GrantHeightsKept()
  {
    TwoBondsListed(state.ctx, state.view, a, b, maxInvitedAt);
    var now := state.Now();
    assert now.boxes == map[b.id := b.box, a.id := a.box];
    assert now.records[a.box.inviteePublicKey] == moved;
    TwoBondsListed(state.ctx, now, b, a, maxInvitedAt);
  }

  function GrantedAt(height: int): IdentityRecord {
    EMPTY_IDENTITY_RECORD.(invitedAtBlock := height)
  }

  /** Two bonds of one inviter, their invitees granted at heights 1 and 2. */
  function TwoInvited(): State {
    State(map[Seed(0) := Bond(1, 0, 1, 2), Seed(1) := Bond(1, 0, 1, 3)], map[2 := GrantedAt(1), 3 := GrantedAt(2)], 0,
      map[], map[], map[], {})
  }

  /** Such a write: the first invitee granted again at 3, and the due bonds read to that height. */
  method MoveHeight(ctx: Ctx) returns (state: BlockOverlay)
    ensures fresh(state) && state.Valid() && state.view == TwoInvited()
    ensures var a, b := Live(Seed(0), Bond(1, 0, 1, 2)), Live(Seed(1), Bond(1, 0, 1, 3));
      && state.GetBondsInvitedAt(3, BondsInvitedAt(state.ctx, state.view, 3)) == Some([a, b])
      && BondsInvitedAt(state.ctx, state.Now(), 3) == [b, a]
  {
    state := new BlockOverlay(ctx, TwoInvited());
    state.PutIdentityRecord(2, GrantedAt(3));
    MovedHeightReorders(state, Live(Seed(0), Bond(1, 0, 1, 2)), Live(Seed(1), Bond(1, 0, 1, 3)), GrantedAt(3), 3);
  }
}
