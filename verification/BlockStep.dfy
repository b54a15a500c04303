/** One accepted block: it never throws, and everything a reachable state keeps is kept. */
module BlockStep {
  import opened Wrappers
  import opened Sums
  import opened Orders
  import opened Ledger
  import opened Engine
  import opened Body
  import opened Coinbase
  import opened Queries
  import opened Decay
  import opened Settlement
  import opened Blocks
  import opened Applying
  import opened Lawful
  import opened Invariant
  import opened BodyRun
  import opened BodyKeeps
  import opened BodyOutcome
  import opened AfterBody
  import opened SettleInputs
  import opened SettleBalance
  import opened SettleShape
  import opened SettlePlaces
  import opened SettledBoxes
  import opened SettledState
  import opened SettledBackers
  import opened SettledPeople
  import opened Closing
  import opened Closed

  // ---------------------------------------------------------------------------
  // Posts
  // ---------------------------------------------------------------------------

  ghost predicate EntryAuthor(entries: seq<Tx>, k: Key) {
    exists tx :: tx in entries && tx.core.payload.Post? && tx.core.payload.author == k
  }

  /** A confirmed post's author is an earlier post's, or one of the block's own posters'. */
  lemma {:induction false} ConfirmedAuthors(posts: map<PostId, PostRecord>, entries: seq<Tx>, height: nat)
    ensures forall p | p in ConfirmPosts(posts, entries, height) ::
      (p in posts && posts[p].author == ConfirmPosts(posts, entries, height)[p].author)
      || EntryAuthor(entries, ConfirmPosts(posts, entries, height)[p].author)
    decreases |entries|
  {
    if entries != [] {
      var next := ConfirmPost(posts, entries[0].core, height);
      var all := ConfirmPosts(posts, entries, height);
      ConfirmedAuthors(next, entries[1..], height);
      forall p | p in all
        ensures (p in posts && posts[p].author == all[p].author) || EntryAuthor(entries, all[p].author)
      {
        if p in next && next[p].author == all[p].author {
          assert entries[0] in entries;
        } else {
          var tx :| tx in entries[1..] && tx.core.payload.Post? && tx.core.payload.author == all[p].author;
          assert tx in entries;
        }
      }
    }
  }

  lemma {:induction false} WithdrawnAuthors(posts: map<PostId, PostRecord>, entries: seq<Tx>, height: nat)
    requires ApplyWithdrawals(posts, entries, height).Some?
    ensures var after := ApplyWithdrawals(posts, entries, height).value;
      after.Keys == posts.Keys && forall p | p in posts :: after[p].author == posts[p].author
    decreases |entries|
  {
    if entries != [] {
      WithdrawnAuthors(ApplyWithdrawal(posts, entries[0].core, height).value, entries[1..], height);
    }
  }

  /** Once its settlement checks, every author a block's posts name is known. */
  lemma PostersKnown(o: Origin, posts: map<PostId, PostRecord>, block: Block, cores: seq<TxCore>)
    requires block.settlement.Some? && block.settlement.value.core.payload.NoPayload?
    requires cores == CoresOf(block.queue) && MidPosters(o, cores)
    requires AuthorsKnown(posts, o.start.records)
    requires o.start.posts == ConfirmPosts(posts, EntriesOf(block), block.height)
    ensures AuthorsKnown(o.start.posts, o.start.records)
  {
    var entries := EntriesOf(block);
    ConfirmedAuthors(posts, entries, block.height);
    forall p | p in o.start.posts ensures o.start.posts[p].author in o.start.records {
      var author := o.start.posts[p].author;
      if EntryAuthor(entries, author) {
        var tx :| tx in entries && tx.core.payload.Post? && tx.core.payload.author == author;
        assert tx in block.queue;
        var i :| 0 <= i < |block.queue| && block.queue[i] == tx;
        assert cores[i] == tx.core && cores[i] in cores && PosterKnown(tx.core, o.start.records);
      }
    }
  }

  // ---------------------------------------------------------------------------
  // The body
  // ---------------------------------------------------------------------------

  ghost function Confirmed(s: State, block: Block): State {
    s.(posts := ConfirmPosts(s.posts, EntriesOf(block), block.height))
  }

  ghost function OriginOf(s: State, block: Block, applied: set<TxCore>): Origin {
    Origin(Confirmed(s, block), applied, InputsOf(CoresOf(block.queue)))
  }

  ghost function BodyOutcomeOf(ctx: Ctx, s: State, block: Block): Outcome<(State, Acc)>
    requires ValidCtx(ctx)
  {
    var start := Confirmed(s, block);
    var cores := CoresOf(block.queue);
    ApplyQueue(ctx, start, OwedBefore(ctx, start, cores, PayeesOf(ctx, start, cores, block.height), block.height),
      block.queue, block.height, EmptyAcc(start))
  }

  lemma OwedCovers(ctx: Ctx, s: State, cores: seq<TxCore>, payees: set<Key>, height: int)
    requires ValidCtx(ctx)
    ensures TouchedOwners(s.boxes, InputsOf(cores)) <= OwedBefore(ctx, s, cores, payees, height).Keys
  {
  }

  /** The body never throws, and leaves what the settlement needs. */
  lemma BodyRuns(ctx: Ctx, s: State, height: int, applied: set<TxCore>, block: Block)
    requires ValidCtx(ctx) && Inv(ctx, s, height, applied)
    ensures !BodyOutcomeOf(ctx, s, block).Thrown?
    ensures var body := BodyOutcomeOf(ctx, s, block);
      body.Done? ==> Mid(OriginOf(s, block, applied), CoresOf(block.queue), body.value.0, body.value.1)
  {
    var o := OriginOf(s, block, applied);
    var cores := CoresOf(block.queue);
    var owed := OwedBefore(ctx, o.start, cores, PayeesOf(ctx, o.start, cores, block.height), block.height);
    BodyOpens(ctx, o.start, applied, o.inputs);
    OwedCovers(ctx, o.start, cores, PayeesOf(ctx, o.start, cores, block.height), block.height);
    QueueOutcome(ctx, o, [], o.start, EmptyAcc(o.start), owed, block.queue, block.height);
    assert [] + cores == cores;
  }

  // ---------------------------------------------------------------------------
  // The settlement
  // ---------------------------------------------------------------------------

  /** A settlement that checks, over the state its body leaves. */
  ghost predicate Settling(
    ctx: Ctx, o: Origin, cores: seq<TxCore>, s: State, acc: Acc, height: nat, cap: Captured, body: SettlementBody,
    d: Derived, core: TxCore, tail: seq<Box>)
  {
    && Deriving(ctx, o, cores, s, acc, height, cap, body)
    && Derive(ctx, s, cap, height, body) == Some(d)
    && CoinbaseOk(d, height, tail)
    && core.inputs == Ids(d.inputs)
    && core.outputs == d.outputs + tail
  }

  lemma EmissionIsFirst(ctx: Ctx, s: State, cap: Captured, height: nat, body: SettlementBody, d: Derived)
    requires ValidCtx(ctx) && Derive(ctx, s, cap, height, body) == Some(d)
    ensures d.inputs != [] && d.inputs[0].id in s.boxes && Ids(d.inputs)[0] == d.inputs[0].id
  {
    FirstLiveIs(ctx, s.boxes, IsEmission);
    var slices, treasury, backer, legs, pool := PartsOf(ctx, s, cap, height, body);
    assert d.inputs[0] == slices.emission;
  }

  /** Every settlement spends the emission box, so it is no earlier transaction and its outputs are new. */
  lemma SettlementIsNew(
    ctx: Ctx, o: Origin, cores: seq<TxCore>, s: State, acc: Acc, height: nat, cap: Captured, body: SettlementBody,
    d: Derived, core: TxCore, tail: seq<Box>)
    requires Settling(ctx, o, cores, s, acc, height, cap, body, d, core, tail)
    ensures core.inputs != [] && core !in o.applied && core !in cores
    ensures FreshFrom(core, 0, acc.taken) && FreshFrom(core, 0, s.boxes.Keys)
  {
    EmissionIsFirst(ctx, s, cap, height, body, d);
    NewCore(o.start.boxes, o.applied, cores, s.boxes, acc.taken, core);
  }

  lemma NoVouchOut(
    ctx: Ctx, s: State, cap: Captured, height: nat, body: SettlementBody, d: Derived, core: TxCore, tail: seq<Box>)
    requires ValidCtx(ctx) && Derive(ctx, s, cap, height, body) == Some(d) && CoinbaseOk(d, height, tail)
    requires core.outputs == d.outputs + tail
    ensures forall b | b in core.outputs :: !b.Vouch?
  {
    var slices, treasury, backer, legs, pool := PartsOf(ctx, s, cap, height, body);
    forall b | b in core.outputs ensures !b.Vouch? {
      OutputOrigin(ctx, s, cap, height, body, d, slices, treasury, backer, legs, pool, tail, b);
    }
  }

  lemma InputsDistinctAndLive(boxes: Boxes, inputs: seq<Live>)
    requires LiveList(boxes, inputs)
    ensures Distinct(Ids(inputs)) && forall id | id in Ids(inputs) :: id in boxes
  {
    forall id | id in Ids(inputs) ensures id in boxes {
      var i :| 0 <= i < |Ids(inputs)| && Ids(inputs)[i] == id;
      assert inputs[i] in inputs;
    }
  }

  lemma SettlementAppliable(
    ctx: Ctx, o: Origin, cores: seq<TxCore>, s: State, acc: Acc, height: nat, cap: Captured, body: SettlementBody,
    d: Derived, core: TxCore, tail: seq<Box>)
    requires Settling(ctx, o, cores, s, acc, height, cap, body, d, core, tail)
    ensures Appliable(s, acc.taken, core)
  {
    SettlementIsNew(ctx, o, cores, s, acc, height, cap, body, d, core, tail);
    SettlementInputsLive(ctx, o, cores, s, acc, height, cap, body, d, core, tail);
    NoVouchOut(ctx, s, cap, height, body, d, core, tail);
    MakesAppliable(s, acc.taken, core);
  }

  lemma SettlementInputsLive(
    ctx: Ctx, o: Origin, cores: seq<TxCore>, s: State, acc: Acc, height: nat, cap: Captured, body: SettlementBody,
    d: Derived, core: TxCore, tail: seq<Box>)
    requires Settling(ctx, o, cores, s, acc, height, cap, body, d, core, tail)
    ensures Distinct(core.inputs) && forall id | id in core.inputs :: id in s.boxes
  {
    DerivedInputsAreLive(ctx, o, cores, s, acc, height, cap, body);
    InputsDistinctAndLive(s.boxes, d.inputs);
  }

  lemma MakesAppliable(s: State, taken: set<BoxId>, core: TxCore)
    requires Distinct(core.inputs) && forall id | id in core.inputs :: id in s.boxes
    requires FreshFrom(core, 0, taken) && FreshFrom(core, 0, s.boxes.Keys)
    requires forall b | b in core.outputs :: !b.Vouch?
    ensures Appliable(s, taken, core)
  {
  }

  lemma ReadyCounted(ctx: Ctx, o: Origin, cores: seq<TxCore>, s: State, acc: Acc)
    requires Ready(ctx, o, cores, s, acc)
    ensures VouchParties(s.boxes, s.records) && VouchesCounted(s.boxes, s.records)
    ensures Aged(o.start.records, s.records) && s.memberCount == o.start.memberCount
    ensures MidTouched(o, s, acc)
  {
    MidHasParties(s.boxes, s.records, o.start.posts);
    SameTouched(o, s.(posts := o.start.posts), acc, s, acc);
  }

  // ---------------------------------------------------------------------------
  // The lapse captures
  // ---------------------------------------------------------------------------

  ghost function LapseTargets(lapsed: seq<Live>): set<Key> {
    set l | l in lapsed :: TargetOf(l.box)
  }

  lemma VouchesOnlyLapse(
    ctx: Ctx, o: Origin, cores: seq<TxCore>, s: State, acc: Acc, height: nat, cap: Captured, body: SettlementBody,
    d: Derived)
    requires Deriving(ctx, o, cores, s, acc, height, cap, body) && Derive(ctx, s, cap, height, body) == Some(d)
    ensures forall l | l in d.inputs && l.box.Vouch? :: l in cap.lapsed
  {
    var before, charged := o.start.boxes.Keys, Charged(cap);
    var slices, treasury, backer, legs, pool := PartsOf(ctx, s, cap, height, body);
    SingleLegs(ctx, s.boxes, before, charged, height, cap, body);
    NoVouchInLeg(s.boxes, before, charged, [slices.emission], 0, 1);
    NoVouchInLeg(s.boxes, before, charged, treasury.consumed, 1, 2);
    BackerIn(ctx, o, cores, s, acc, height, cap, body);
    NoVouchInLeg(s.boxes, before, charged, backer.consumed, 2, 4);
    NoVouchInBody(ctx, o, cores, s, acc, height, charged);
    SettleInputs.KarmaLegs(ctx, o, cores, s, acc, height, cap, body);
    NoVouchInLeg(s.boxes, before, charged, Consumed(cap.plans), 10, 11);
    NoVouchInLeg(s.boxes, before, charged, BaseBoxes(legs.incomes), 11, 12);
    PoolLeg(ctx, before, charged, s.boxes, PoolDraw(body), PoolSink(s.records, cap, body, legs), height);
    NoVouchInLeg(s.boxes, before, charged, pool.consumed, 12, 13);
    forall l | l in d.inputs && l.box.Vouch? ensures l in cap.lapsed {
      OneOfThirteen([slices.emission], treasury.consumed, backer.consumed, body.markers, body.prices,
        CarriedBoxes(legs.payouts), legs.bonds, cap.escrows, cap.lapsed, Consumed(cap.plans), BaseBoxes(legs.incomes),
        pool.consumed, body.feeBoxes, l);
    }
  }

  lemma NoVouchInLeg(boxes: Boxes, before: set<BoxId>, charged: set<BoxId>, ls: seq<Live>, lo: nat, hi: nat)
    requires LegLive(boxes, before, charged, ls, lo, hi) && (hi <= 9 || lo >= 10)
    ensures forall l | l in ls :: !l.box.Vouch?
  {
    forall l | l in ls ensures !l.box.Vouch? {
      assert lo <= KindOf(before, charged, l) < hi;
    }
  }

  lemma NoVouchInBody(ctx: Ctx, o: Origin, cores: seq<TxCore>, s: State, acc: Acc, height: nat, charged: set<BoxId>)
    requires Ready(ctx, o, cores, s, acc)
    ensures forall l | l in BodyListed(cores, IsPrice) :: !l.box.Vouch?
    ensures forall l | l in BodyListed(cores, IsFee) :: !l.box.Vouch?
    ensures forall l | l in BodyListed(cores, IsAccrual) :: !l.box.Vouch?
    ensures forall l | l in CarriedBoxes(LikePayouts(ctx, s.boxes, BodyListed(cores, IsAccrual))) :: !l.box.Vouch?
    ensures forall l | l in BondsSettlingAt(ctx, s, height) :: !l.box.Vouch?
    ensures forall l | l in EscrowsReleasableAt(ctx, o.start.boxes, height) :: !l.box.Vouch?
  {
    var before := o.start.boxes.Keys;
    BodyLegs(ctx, o, cores, s, acc, charged);
    LikeLegs(ctx, o, cores, s, acc, charged);
    BondLeg(ctx, s, before, charged, height);
    EscrowsHold(ctx, o.start.boxes, height);
    NoVouchInLeg(s.boxes, before, charged, BodyListed(cores, IsPrice), 5, 6);
    NoVouchInLeg(s.boxes, before, charged, BodyListed(cores, IsFee), 13, 14);
    NoVouchInLeg(s.boxes, before, charged, BodyListed(cores, IsAccrual), 4, 5);
    NoVouchInLeg(s.boxes, before, charged, CarriedBoxes(LikePayouts(ctx, s.boxes, BodyListed(cores, IsAccrual))), 6, 7);
    NoVouchInLeg(s.boxes, before, charged, BondsSettlingAt(ctx, s, height), 7, 8);
  }

  lemma LapsesSpareOthers(boxes: Boxes, core: TxCore, inputs: seq<Live>, lapsed: seq<Live>, k: Key)
    requires core.inputs == Ids(inputs) && LiveList(boxes, inputs)
    requires forall l | l in inputs && l.box.Vouch? :: l in lapsed
    requires k !in LapseTargets(lapsed)
    ensures SparesTarget(boxes, core.inputs, k)
  {
    forall id | id in core.inputs && id in boxes ensures !(boxes[id].Vouch? && boxes[id].targetId == k) {
      var i :| 0 <= i < |core.inputs| && core.inputs[i] == id;
      var l := inputs[i];
      assert l in inputs && boxes[l.id] == l.box && l.id == id;
      assert l in lapsed ==> TargetOf(l.box) in LapseTargets(lapsed);
    }
  }

  lemma LapsesCaptured(o: Origin, s: State, acc: Acc, lapsed: seq<Live>, records: Records)
    requires MidTouched(o, s, acc) && Aged(o.start.records, s.records) && VouchParties(s.boxes, s.records)
    requires forall l | l in lapsed :: l.box.Vouch? && l.id in s.boxes && s.boxes[l.id] == l.box
    requires forall k | k !in LapseTargets(lapsed) :: Unmoved(s.records, records, k)
    ensures MidTouched(o, s.(records := records), CaptureLapses(acc, s.records, lapsed))
  {
    var targets := LapseTargets(lapsed);
    var after := CaptureLapses(acc, s.records, lapsed);
    forall k | k in acc.touched + targets ensures CapturedRight(o, after.pre, k) {
      if k in acc.touched {
        assert CapturedRight(o, acc.pre, k);
      } else {
        var l :| l in lapsed && TargetOf(l.box) == k;
        assert PartiesIn(s.boxes[l.id], s.records);
        assert SameStanding(o.start.records[k], s.records[k]) && Unmoved(o.start.records, s.records, k);
      }
    }
    forall k | k in o.start.records && k !in acc.touched + targets ensures Unmoved(o.start.records, records, k) {
      assert Unmoved(o.start.records, s.records, k) && Unmoved(s.records, records, k);
    }
  }
}
