/** Every identity the settled boxes name is known, or granted in the same block. */
module SettledPeople {
  import opened Wrappers
  import opened Sums
  import opened Orders
  import opened Ledger
  import opened Engine
  import opened Body
  import opened Coinbase
  import opened Queries
  import opened Decay
  import opened Settlement
  import opened Blocks
  import opened Applying
  import opened Lawful
  import opened Invariant
  import opened BodyRun
  import opened BodyKeeps
  import opened BodyOutcome
  import opened AfterBody
  import opened SettleInputs
  import opened SettleSums
  import opened SettleBalance
  import opened SettleShape
  import opened SettlePlaces
  import opened SettledBoxes
  import opened SettledState

  /** As at a block's end, counting the block's invitees as known. */
  predicate SettledRegistered(b: Box, records: Records, invited: set<Key>) {
    match b
    case Karma(_, _, owner, _) => owner in records || owner in invited
    case Bond(_, _, inviter, invitee) =>
      inviter in records && (invitee in invited || (invitee in records && records[invitee].invitedAtBlock >= 1))
    case _ => Registered(b, records)
  }

  // ---------------------------------------------------------------------------
  // Who is paid
  // ---------------------------------------------------------------------------

  lemma AccrualAuthorKnown(ctx: Ctx, o: Origin, cores: seq<TxCore>, s: State, acc: Acc, id: BoxId)
    requires Ready(ctx, o, cores, s, acc) && AuthorsKnown(o.start.posts, o.start.records)
    requires id in s.boxes && s.boxes[id].LikeAccrual?
    ensures s.boxes[id].author in o.start.records
  {
    assert MidRegistered(s.boxes[id], s.records, o.start.posts);
  }

  lemma MarkerAuthorKnown(ctx: Ctx, o: Origin, cores: seq<TxCore>, s: State, acc: Acc, author: Key)
    requires Ready(ctx, o, cores, s, acc) && AuthorsKnown(o.start.posts, o.start.records)
    requires author in Authors(BodyListed(cores, IsAccrual))
    ensures author in o.start.records
  {
    MarkerIsLive(ctx, o, cores, s, acc, author);
    var id :| id in s.boxes && s.boxes[id].LikeAccrual? && s.boxes[id].author == author;
    AccrualAuthorKnown(ctx, o, cores, s, acc, id);
  }

  lemma MarkerIsLive(ctx: Ctx, o: Origin, cores: seq<TxCore>, s: State, acc: Acc, author: Key)
    requires Ready(ctx, o, cores, s, acc) && author in Authors(BodyListed(cores, IsAccrual))
    ensures exists id :: id in s.boxes && s.boxes[id].LikeAccrual? && s.boxes[id].author == author
  {
    BodyListIsLive(ctx, o, cores, s, acc, IsAccrual);
    var m :| m in BodyListed(cores, IsAccrual) && AuthorOf(m.box) == author;
    assert m.id in s.boxes;
  }

  lemma {:induction false} LikeEarners(ctx: Ctx, boxes: Boxes, markers: seq<Live>, authors: seq<Key>)
    ensures forall e | e in FromLikes(PayoutsFor(ctx, boxes, markers, authors)) :: e.owner in authors
  {
    if authors != [] {
      LikeEarners(ctx, boxes, markers, authors[1..]);
      var ps := PayoutsFor(ctx, boxes, markers, authors);
      assert ps[1..] == PayoutsFor(ctx, boxes, markers, authors[1..]);
    }
  }

  lemma {:induction false} BondEarners(records: Records, bonds: seq<Live>)
    ensures forall e | e in FromBonds(records, bonds) :: exists l :: l in bonds && e.owner == InviterOf(l.box)
  {
    if bonds != [] {
      BondEarners(records, bonds[1..]);
      assert bonds[0] in bonds;
      forall e | e in FromBonds(records, bonds) ensures exists l :: l in bonds && e.owner == InviterOf(l.box) {
        if e in FromBonds(records, bonds[1..]) {
          var l :| l in bonds[1..] && e.owner == InviterOf(l.box);
          assert l in bonds;
        }
      }
    }
  }

  lemma {:induction false} EscrowEarners(escrows: seq<Live>)
    ensures forall e | e in FromEscrows(escrows) :: exists l :: l in escrows && e.owner == EscrowOwner(l.box)
  {
    if escrows != [] {
      EscrowEarners(escrows[1..]);
      assert escrows[0] in escrows;
      forall e | e in FromEscrows(escrows) ensures exists l :: l in escrows && e.owner == EscrowOwner(l.box) {
        if e in FromEscrows(escrows[1..]) {
          var l :| l in escrows[1..] && e.owner == EscrowOwner(l.box);
          assert l in escrows;
        }
      }
    }
  }

  lemma SettlingBond(ctx: Ctx, s: State, height: nat, l: Live)
    requires l in BondsSettlingAt(ctx, s, height)
    ensures l.box.Bond? && l.id in s.boxes && s.boxes[l.id] == l.box
  {
    BondsAreBonds(ctx, s, WindowStart(ctx, height));
  }

  lemma InviterKnown(ctx: Ctx, o: Origin, cores: seq<TxCore>, s: State, acc: Acc, id: BoxId)
    requires Ready(ctx, o, cores, s, acc) && id in s.boxes && s.boxes[id].Bond?
    ensures s.boxes[id].inviterId in o.start.records
  {
    assert MidRegistered(s.boxes[id], s.records, o.start.posts);
  }

  lemma BondInviterKnown(ctx: Ctx, o: Origin, cores: seq<TxCore>, s: State, acc: Acc, height: nat, l: Live)
    requires Ready(ctx, o, cores, s, acc) && l in BondsSettlingAt(ctx, s, height)
    ensures InviterOf(l.box) in o.start.records
  {
    SettlingBond(ctx, s, height, l);
    InviterKnown(ctx, o, cores, s, acc, l.id);
  }

  lemma EscrowOwnerKnown(ctx: Ctx, o: Origin, cores: seq<TxCore>, s: State, acc: Acc, height: nat, l: Live)
    requires Ready(ctx, o, cores, s, acc) && l in EscrowsReleasableAt(ctx, o.start.boxes, height)
    ensures EscrowOwner(l.box) in o.start.records
  {
    EscrowsHold(ctx, o.start.boxes, height);
    assert Registered(o.start.boxes[l.id], o.start.records);
  }

  lemma EarnerKnown(ctx: Ctx, o: Origin, cores: seq<TxCore>, s: State, acc: Acc, height: nat, owner: Key)
    requires Ready(ctx, o, cores, s, acc) && AuthorsKnown(o.start.posts, o.start.records)
    requires var ps := LikePayouts(ctx, s.boxes, BodyListed(cores, IsAccrual));
      owner in Earners(Earnings(s.records, ps, BondsSettlingAt(ctx, s, height),
          EscrowsReleasableAt(ctx, o.start.boxes, height)))
    ensures owner in o.start.records
  {
    var markers := BodyListed(cores, IsAccrual);
    var ps := LikePayouts(ctx, s.boxes, markers);
    var bonds, escrows := BondsSettlingAt(ctx, s, height), EscrowsReleasableAt(ctx, o.start.boxes, height);
    var e :| e in FromLikes(ps) + FromBonds(s.records, bonds) + FromEscrows(escrows) && e.owner == owner;
    if e in FromLikes(ps) {
      AscendingLists(Authors(markers));
      LikeEarners(ctx, s.boxes, markers, Ascending(Authors(markers)));
      assert owner in Members(Ascending(Authors(markers)));
      MarkerAuthorKnown(ctx, o, cores, s, acc, owner);
    } else if e in FromBonds(s.records, bonds) {
      BondEarners(s.records, bonds);
      var l :| l in bonds && owner == InviterOf(l.box);
      BondInviterKnown(ctx, o, cores, s, acc, height, l);
    } else {
      EscrowEarners(escrows);
      var l :| l in escrows && owner == EscrowOwner(l.box);
      EscrowOwnerKnown(ctx, o, cores, s, acc, height, l);
    }
  }

  // ---------------------------------------------------------------------------
  // The outputs
  // ---------------------------------------------------------------------------

  lemma GrantRegistered(ctx: Ctx, o: Origin, cores: seq<TxCore>, s: State, acc: Acc, height: nat, b: Box)
    requires Ready(ctx, o, cores, s, acc) && b in Grants(height, BodyListed(cores, IsBond))
    ensures b.Karma? && b.owner in acc.invited
  {
    InviteesAreFresh(ctx, o, cores, s, acc);
    GrantsOut(o.start.records.Keys, height, BodyListed(cores, IsBond));
    var l :| l in BodyListed(cores, IsBond) && b == GrantOf(height, l.box);
    BondIsInvite(ctx, o, cores, s, acc, l);
  }

  lemma BurnRegistered(ctx: Ctx, o: Origin, cores: seq<TxCore>, s: State, acc: Acc, payees: set<Key>, height: nat,
    b: Box)
    requires ValidCtx(ctx) && Ready(ctx, o, cores, s, acc)
      && b in DecayOutputs(height, DecayPlans(ctx, o.start, cores, payees, height))
    ensures b.Karma? && b.owner in o.start.records
  {
    var owners := Ascending(SquaredSet(o.start.boxes, cores, payees));
    BurnersKnown(ctx, o, cores, s, acc, owners, height);
    BurnsNameTheirOwner(height, PlansFor(ctx, o.start, cores, owners, height), b);
  }

  lemma IncomeRegistered(ctx: Ctx, o: Origin, cores: seq<TxCore>, s: State, acc: Acc, height: nat, cap: Captured,
    body: SettlementBody, b: Box)
    requires Deriving(ctx, o, cores, s, acc, height, cap, body) && AuthorsKnown(o.start.posts, o.start.records)
    requires b in IncomeOutputs(height, LegsOf(ctx, s, cap, height, body).incomes)
    ensures b.Karma? && b.owner in o.start.records
  {
    var es := LegsOf(ctx, s, cap, height, body).earnings;
    AscendingLists(Earners(es));
    IncomesOut({}, ctx, s.boxes, es, cap.spent + IdSet(Consumed(cap.plans)), Ascending(Earners(es)), height);
    assert b.owner in Members(Ascending(Earners(es)));
    EarnerKnown(ctx, o, cores, s, acc, height, b.owner);
  }

  lemma CarryRegistered(ctx: Ctx, o: Origin, cores: seq<TxCore>, s: State, acc: Acc, height: nat, b: Box)
    requires Ready(ctx, o, cores, s, acc) && AuthorsKnown(o.start.posts, o.start.records)
    requires b in CarryOutputs(height, LikePayouts(ctx, s.boxes, BodyListed(cores, IsAccrual)))
    ensures b.LikeAccrual? && b.author in o.start.records
  {
    var markers := BodyListed(cores, IsAccrual);
    AscendingLists(Authors(markers));
    CarriesOut({}, ctx, s.boxes, markers, Ascending(Authors(markers)), height);
    assert b.author in Members(Ascending(Authors(markers)));
    MarkerAuthorKnown(ctx, o, cores, s, acc, b.author);
  }

  lemma {:induction false} LapseOwners(ctx: Ctx, height: nat, lapsed: seq<Live>, b: Box)
    requires b in LapseOutputs(ctx, height, lapsed)
    ensures b.VouchEscrow? && exists l :: l in lapsed && b.owner == VoucherOf(l.box)
  {
    if b in LapseOutputs(ctx, height, lapsed[1..]) {
      LapseOwners(ctx, height, lapsed[1..], b);
      var l :| l in lapsed[1..] && b.owner == VoucherOf(l.box);
      assert l in lapsed;
    } else {
      assert lapsed[0] in lapsed;
    }
  }

  lemma LapsedVoucher(s: State, spent: set<BoxId>, l: Live)
    requires AllRegistered(s.boxes, s.records) && l in LessSpent(LapsedVouches(s), spent)
    ensures VoucherOf(l.box) in s.records
  {
    LapsesHold(s);
    assert Registered(s.boxes[l.id], s.records);
  }

  lemma LapseRegistered(ctx: Ctx, s: State, spent: set<BoxId>, height: nat, b: Box)
    requires AllRegistered(s.boxes, s.records) && b in LapseOutputs(ctx, height, LessSpent(LapsedVouches(s), spent))
    ensures b.VouchEscrow? && b.owner in s.records
  {
    LapseOwners(ctx, height, LessSpent(LapsedVouches(s), spent), b);
    var l :| l in LessSpent(LapsedVouches(s), spent) && b.owner == VoucherOf(l.box);
    LapsedVoucher(s, spent, l);
  }

  lemma OutputRegistered(
    ctx: Ctx, o: Origin, cores: seq<TxCore>, s: State, acc: Acc, height: nat, cap: Captured, body: SettlementBody,
    d: Derived, slices: Slices, treasury: Move, backer: Move, legs: Legs, pool: Move, tail: seq<Box>, b: Box)
    requires Deriving(ctx, o, cores, s, acc, height, cap, body) && AuthorsKnown(o.start.posts, o.start.records)
    requires Parts(ctx, s, cap, height, body, d, slices, treasury, backer, legs, pool)
    requires CoinbaseOk(d, height, tail) && b in d.outputs + tail
    ensures SettledRegistered(b, o.start.records, acc.invited.Keys)
  {
    OutputOrigin(ctx, s, cap, height, body, d, slices, treasury, backer, legs, pool, tail, b);
    if b.Karma? && b.income {
      IncomeRegistered(ctx, o, cores, s, acc, height, cap, body, b);
    } else if b.Karma? && b in Grants(height, body.bonds) {
      GrantRegistered(ctx, o, cores, s, acc, height, b);
    } else if b.Karma? {
      BurnRegistered(ctx, o, cores, s, acc, PayeesOf(ctx, o.start, cores, height), height, b);
    } else if b.LikeAccrual? {
      CarryRegistered(ctx, o, cores, s, acc, height, b);
    } else if b.VouchEscrow? {
      LapseRegistered(ctx, o.start, o.inputs, height, b);
    }
  }

  // ---------------------------------------------------------------------------
  // The survivors
  // ---------------------------------------------------------------------------

  lemma SurvivorRegistered(ctx: Ctx, o: Origin, cores: seq<TxCore>, s: State, acc: Acc, id: BoxId)
    requires Ready(ctx, o, cores, s, acc) && AuthorsKnown(o.start.posts, o.start.records) && id in s.boxes
    ensures SettledRegistered(s.boxes[id], o.start.records, acc.invited.Keys)
  {
    var b := s.boxes[id];
    NewIsUserMade(ctx, o, cores, s, acc, id);
    assert MidRegistered(b, s.records, o.start.posts);
    if id in o.start.boxes {
      assert Registered(o.start.boxes[id], o.start.records);
    } else if b.Bond? {
      assert CreatesBond(cores, id, b.inviteePublicKey);
    } else if b.Vouch? {
      assert SameStanding(o.start.records[b.voucherId], s.records[b.voucherId]);
    }
  }

  /** Every identity a box names after the settlement has a record, or is one of the block's invitees. */
  lemma AllSettledRegistered(
    ctx: Ctx, o: Origin, cores: seq<TxCore>, s: State, acc: Acc, height: nat, cap: Captured, body: SettlementBody,
    d: Derived, core: TxCore, tail: seq<Box>)
    requires Deriving(ctx, o, cores, s, acc, height, cap, body) && AuthorsKnown(o.start.posts, o.start.records)
    requires Derive(ctx, s, cap, height, body) == Some(d) && CoinbaseOk(d, height, tail)
    requires core.inputs == Ids(d.inputs) && core.outputs == d.outputs + tail
    ensures forall id | id in AfterTx(s.boxes, core) ::
      SettledRegistered(AfterTx(s.boxes, core)[id], o.start.records, acc.invited.Keys)
  {
    var slices, treasury, backer, legs, pool := PartsOf(ctx, s, cap, height, body);
    forall b | b in core.outputs ensures SettledRegistered(b, o.start.records, acc.invited.Keys) {
      OutputRegistered(ctx, o, cores, s, acc, height, cap, body, d, slices, treasury, backer, legs, pool, tail, b);
    }
    forall id | id in s.boxes ensures SettledRegistered(s.boxes[id], o.start.records, acc.invited.Keys) {
      SurvivorRegistered(ctx, o, cores, s, acc, id);
    }
    AfterTxAll(s.boxes, core, b => SettledRegistered(b, o.start.records, acc.invited.Keys));
  }
}
