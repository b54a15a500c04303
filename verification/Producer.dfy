/** The producer's settlement, built over the state before its body, is the one the applier checks. */
module Producer {
  import opened Wrappers
  import opened Sums
  import opened Orders
  import opened Ledger
  import opened Engine
  import opened Body
  import opened Coinbase
  import opened Queries
  import opened Decay
  import opened Settlement
  import opened Blocks
  import opened Applying
  import opened Lawful
  import opened Invariant
  import opened BodyRun
  import opened BodyKeeps
  import opened BodyOutcome
  import opened AfterBody
  import opened SettleInputs
  import opened SettleSums
  import opened SettleBalance
  import opened SettledState
  import opened SettledBackers
  import opened BlockStep
  import opened Runs

  // ---------------------------------------------------------------------------
  // The producer's prediction
  // ---------------------------------------------------------------------------

  predicate IsRent(tx: Tx) {
    IsCreditSideTx(tx.core) && tx.signatures == map[]
  }

  ghost function RentOf(queue: seq<Tx>): set<TxCore> {
    if queue == [] then {} else (if IsRent(queue[0]) then {queue[0].core} else {}) + RentOf(queue[1..])
  }

  /** An input, from the state before the body or from the body's own outputs. */
  ghost function Resolve(boxes: Boxes, cores: seq<TxCore>, id: BoxId): Option<Box> {
    if id in boxes then Some(boxes[id])
    else if IsCreated(cores, id) then Some(id.creator.outputs[id.index])
    else None
  }

  /** The first input that resolves. */
  ghost function FirstResolved(boxes: Boxes, cores: seq<TxCore>, inputs: seq<BoxId>): Option<Box>
    decreases |inputs|
  {
    if inputs == [] then None
    else if Resolve(boxes, cores, inputs[0]).Some? then Resolve(boxes, cores, inputs[0])
    else FirstResolved(boxes, cores, inputs[1..])
  }

  ghost function Embedded(boxes: Boxes, cores: seq<TxCore>, queue: seq<Tx>): seq<(Tx, Box)> {
    if queue == [] then []
    else
      var first := FirstResolved(boxes, cores, queue[0].core.inputs);
      (if first.Some? then [(queue[0], first.value)] else []) + Embedded(boxes, cores, queue[1..])
  }

  ghost function PredictBody(s: State, queue: seq<Tx>, validator: Key): SettlementBody {
    var cores := CoresOf(queue);
    BodyOf(cores, RentOf(queue), |Actors(Embedded(s.boxes, cores, queue), validator)|)
  }

  ghost function BuildBlockSettlement(ctx: Ctx, s: State, queue: seq<Tx>, height: nat, validator: Key,
    minerOwner: Key): Option<Tx>
    requires ValidCtx(ctx)
  {
    var d := Derive(ctx, s, CapturedOf(ctx, s, CoresOf(queue), height), height, PredictBody(s, queue, validator));
    if d.None? then None else Some(BuildSettlement(d.value, height, minerOwner))
  }

  // ---------------------------------------------------------------------------
  // The body, predicted and applied
  // ---------------------------------------------------------------------------

  ghost predicate Tallied(boxes: Boxes, cores: seq<TxCore>, done: seq<Tx>, acc: Acc) {
    acc.rent == RentOf(done) && acc.applied == Embedded(boxes, cores, done)
  }

  lemma {:induction false} RentSnoc(done: seq<Tx>, tx: Tx)
    ensures RentOf(done + [tx]) == RentOf(done) + if IsRent(tx) then {tx.core} else {}
  {
    if done == [] {
      assert done + [tx] == [tx];
      assert RentOf([tx][1..]) == {};
    } else {
      assert (done + [tx])[1..] == done[1..] + [tx];
      RentSnoc(done[1..], tx);
    }
  }

  lemma {:induction false} EmbeddedSnoc(boxes: Boxes, cores: seq<TxCore>, done: seq<Tx>, tx: Tx)
    requires FirstResolved(boxes, cores, tx.core.inputs).Some?
    ensures Embedded(boxes, cores, done + [tx]) == Embedded(boxes, cores, done)
      + [(tx, FirstResolved(boxes, cores, tx.core.inputs).value)]
  {
    if done == [] {
      assert done + [tx] == [tx];
      assert Embedded(boxes, cores, [tx][1..]) == [];
    } else {
      assert (done + [tx])[1..] == done[1..] + [tx];
      EmbeddedSnoc(boxes, cores, done[1..], tx);
    }
  }

  lemma TallyStep(ctx: Ctx, s: State, acc: Acc, tx: Tx, owed: Owed, height: int, next: (State, Acc))
    requires ApplyQueuedTx(ctx, s, owed, tx, height, acc) == Done(next)
    ensures tx.core.inputs != [] && tx.core.inputs[0] in s.boxes
    ensures next.1.rent == acc.rent + if IsRent(tx) then {tx.core} else {}
    ensures next.1.applied == acc.applied + [(tx, s.boxes[tx.core.inputs[0]])]
  {
    QueuedDone(ctx, s, acc, tx, owed, height, next);
    var bs := ValuesAt(s.boxes, tx.core.inputs);
    var t := ApplyTx(s, acc.taken, tx.core).value;
    SettleFrame(ctx, t, AccBefore(acc, s, tx, bs), tx.core, bs, height);
    assert bs[0] == s.boxes[tx.core.inputs[0]];
  }

  /** A live input resolves to itself. */
  lemma LiveResolves(before: Boxes, done: seq<TxCore>, cores: seq<TxCore>, now: Boxes, id: BoxId)
    requires Traced(before, done, now, id) && id in now && forall c | c in done :: c in cores
    ensures Resolve(before, cores, id) == Some(now[id])
  {
  }

  predicate Covers(cores: seq<TxCore>, done: seq<Tx>, queue: seq<Tx>) {
    (forall tx | tx in done :: tx.core in cores) && (forall tx | tx in queue :: tx.core in cores)
  }

  /** The middle of a body whose transactions so far are tallied as the producer tallies them. */
  ghost predicate Tallying(o: Origin, cores: seq<TxCore>, done: seq<Tx>, rest: seq<Tx>, s: State, acc: Acc,
    owed: Owed) {
    && Mid(o, CoresOf(done), s, acc)
    && Tallied(o.start.boxes, cores, done, acc)
    && Covers(cores, done, rest)
    && InputsOf(CoresOf(rest)) <= o.inputs
    && TouchedOwners(o.start.boxes, o.inputs) <= owed.Keys
  }

  lemma {:induction false} QueueTallies(
    ctx: Ctx, o: Origin, cores: seq<TxCore>, done: seq<Tx>, s: State, acc: Acc, owed: Owed, queue: seq<Tx>, height: int)
    requires Tallying(o, cores, done, queue, s, acc, owed)
    ensures var out := ApplyQueue(ctx, s, owed, queue, height, acc);
      out.Done? ==> Tallied(o.start.boxes, cores, done + queue, out.value.1)
    decreases |queue|, 1
  {
    if queue == [] {
      assert done + queue == done;
    } else {
      var first := TalliedFirst(ctx, o, cores, done, s, acc, owed, queue, height);
      RestTallies(ctx, o, cores, done + [queue[0]], first, owed, queue[1..], height);
      HeadBack(done, queue);
    }
  }

  lemma HeadBack(done: seq<Tx>, queue: seq<Tx>)
    requires queue != []
    ensures done + [queue[0]] + queue[1..] == done + queue
  {
  }

  lemma TalliedFirst(
    ctx: Ctx, o: Origin, cores: seq<TxCore>, done: seq<Tx>, s: State, acc: Acc, owed: Owed, queue: seq<Tx>, height: int)
    returns (first: Outcome<(State, Acc)>)
    requires queue != [] && Tallying(o, cores, done, queue, s, acc, owed)
    ensures ApplyQueue(ctx, s, owed, queue, height, acc) == Continue(ctx, first, owed, queue[1..], height)
    ensures first.Done? ==> Tallying(o, cores, done + [queue[0]], queue[1..], first.value.0, first.value.1, owed)
  {
    var tx := queue[0];
    TailInputs(queue);
    first := QueueFirst(ctx, o, CoresOf(done), s, acc, tx, owed, height);
    if first.Done? {
      TallyOne(ctx, o, cores, done, s, acc, owed, tx, height, first.value);
      TallyingNext(o, cores, done, queue, first.value.0, first.value.1, owed);
    }
  }

  lemma TailInputs(queue: seq<Tx>)
    requires queue != []
    ensures InputsOf(CoresOf(queue)) == Members(queue[0].core.inputs) + InputsOf(CoresOf(queue[1..]))
  {
  }

  lemma TallyingNext(o: Origin, cores: seq<TxCore>, done: seq<Tx>, queue: seq<Tx>, s: State, acc: Acc, owed: Owed)
    requires queue != [] && Covers(cores, done, queue)
    requires Mid(o, CoresOf(done) + [queue[0].core], s, acc) && Tallied(o.start.boxes, cores, done + [queue[0]], acc)
    requires InputsOf(CoresOf(queue)) <= o.inputs && TouchedOwners(o.start.boxes, o.inputs) <= owed.Keys
    ensures Tallying(o, cores, done + [queue[0]], queue[1..], s, acc, owed)
  {
    TailInputs(queue);
    assert CoresOf(done + [queue[0]]) == CoresOf(done) + [queue[0].core];
  }

  lemma {:induction false} RestTallies(
    ctx: Ctx, o: Origin, cores: seq<TxCore>, done: seq<Tx>, first: Outcome<(State, Acc)>, owed: Owed, rest: seq<Tx>,
    height: int)
    requires first.Done? ==> Tallying(o, cores, done, rest, first.value.0, first.value.1, owed)
    ensures var out := Continue(ctx, first, owed, rest, height);
      out.Done? ==> Tallied(o.start.boxes, cores, done + rest, out.value.1)
    decreases |rest|, 2
  {
    if first.Done? {
      QueueTallies(ctx, o, cores, done, first.value.0, first.value.1, owed, rest, height);
    }
  }

  lemma TallyOne(
    ctx: Ctx, o: Origin, cores: seq<TxCore>, done: seq<Tx>, s: State, acc: Acc, owed: Owed, tx: Tx, height: int,
    next: (State, Acc))
    requires Mid(o, CoresOf(done), s, acc) && Tallied(o.start.boxes, cores, done, acc)
    requires forall earlier | earlier in done :: earlier.core in cores
    requires ApplyQueuedTx(ctx, s, owed, tx, height, acc) == Done(next)
    ensures Tallied(o.start.boxes, cores, done + [tx], next.1)
  {
    TallyStep(ctx, s, acc, tx, owed, height, next);
    FirstResolves(o, cores, done, s, acc, tx);
    TallySnoc(o.start.boxes, cores, done, acc, tx, next.1, s.boxes[tx.core.inputs[0]]);
  }

  lemma FirstResolves(o: Origin, cores: seq<TxCore>, done: seq<Tx>, s: State, acc: Acc, tx: Tx)
    requires Mid(o, CoresOf(done), s, acc) && forall earlier | earlier in done :: earlier.core in cores
    requires tx.core.inputs != [] && tx.core.inputs[0] in s.boxes
    ensures FirstResolved(o.start.boxes, cores, tx.core.inputs) == Some(s.boxes[tx.core.inputs[0]])
  {
    forall c | c in CoresOf(done) ensures c in cores {
      var i :| 0 <= i < |CoresOf(done)| && CoresOf(done)[i] == c;
      assert done[i] in done;
    }
    MidTraces(o, CoresOf(done), s, acc, tx.core.inputs[0]);
    LiveResolves(o.start.boxes, CoresOf(done), cores, s.boxes, tx.core.inputs[0]);
  }

  lemma MidTraces(o: Origin, done: seq<TxCore>, s: State, acc: Acc, id: BoxId)
    requires Mid(o, done, s, acc)
    ensures Traced(o.start.boxes, done, s.boxes, id)
  {
  }

  lemma TallySnoc(boxes: Boxes, cores: seq<TxCore>, done: seq<Tx>, acc: Acc, tx: Tx, next: Acc, first: Box)
    requires Tallied(boxes, cores, done, acc) && FirstResolved(boxes, cores, tx.core.inputs) == Some(first)
    requires next.rent == acc.rent + if IsRent(tx) then {tx.core} else {}
    requires next.applied == acc.applied + [(tx, first)]
    ensures Tallied(boxes, cores, done + [tx], next)
  {
    RentSnoc(done, tx);
    EmbeddedSnoc(boxes, cores, done, tx);
  }

  // ---------------------------------------------------------------------------
  // The reads, before and after the body
  // ---------------------------------------------------------------------------

  ghost predicate SameAt(before: Boxes, now: Boxes, p: Box -> bool, id: BoxId) {
    && ((id in now && p(now[id])) <==> (id in before && p(before[id])))
    && (id in now && p(now[id]) ==> now[id] == before[id])
  }

  lemma SameLives(before: Boxes, now: Boxes, p: Box -> bool)
    requires forall id :: SameAt(before, now, p, id)
    ensures LivesWhere(now, p) == LivesWhere(before, p)
  {
    forall l ensures l in LivesWhere(now, p) <==> l in LivesWhere(before, p) {
      assert SameAt(before, now, p, l.id);
    }
  }

  lemma ProtocolSameAt(ctx: Ctx, o: Origin, cores: seq<TxCore>, s: State, acc: Acc, p: Box -> bool, id: BoxId)
    requires Ready(ctx, o, cores, s, acc) && forall b :: p(b) ==> Protocol(b)
    ensures SameAt(o.start.boxes, s.boxes, p, id)
  {
    NewOrOld(ctx, o, cores, s, acc, id);
    SameProtocol(o.start.boxes, s.boxes, p, id);
  }

  lemma SameProtocol(before: Boxes, now: Boxes, p: Box -> bool, id: BoxId)
    requires forall b :: p(b) ==> Protocol(b)
    requires id in now && id in before ==> now[id] == before[id]
    requires id in now && id !in before ==> UserOutputShape(now[id])
    requires id in before && !UserSpendable(before[id]) ==> id in now
    ensures SameAt(before, now, p, id)
  {
    if id in now {
      assert p(now[id]) ==> Protocol(now[id]);
    }
    if id in before {
      assert p(before[id]) ==> Protocol(before[id]);
    }
  }

  lemma AllProtocolSame(ctx: Ctx, o: Origin, cores: seq<TxCore>, s: State, acc: Acc, p: Box -> bool)
    requires Ready(ctx, o, cores, s, acc) && forall b :: p(b) ==> Protocol(b)
    ensures forall id :: SameAt(o.start.boxes, s.boxes, p, id)
  {
    forall id ensures SameAt(o.start.boxes, s.boxes, p, id) {
      ProtocolSameAt(ctx, o, cores, s, acc, p, id);
    }
  }

  lemma ProtocolReadsSame(ctx: Ctx, o: Origin, cores: seq<TxCore>, s: State, acc: Acc, p: Box -> bool)
    requires Ready(ctx, o, cores, s, acc) && forall b :: p(b) ==> Protocol(b)
    ensures FirstLive(ctx, s.boxes, p) == FirstLive(ctx, o.start.boxes, p)
  {
    AllProtocolSame(ctx, o, cores, s, acc, p);
    SameLives(o.start.boxes, s.boxes, p);
  }

  lemma NewOrOld(ctx: Ctx, o: Origin, cores: seq<TxCore>, s: State, acc: Acc, id: BoxId)
    requires Ready(ctx, o, cores, s, acc)
    ensures id in s.boxes && id in o.start.boxes ==> s.boxes[id] == o.start.boxes[id]
    ensures id in s.boxes && id !in o.start.boxes ==> UserOutputShape(s.boxes[id])
    ensures id in o.start.boxes && !UserSpendable(o.start.boxes[id]) ==> id in s.boxes
  {
    if id in s.boxes {
      NewIsUserMade(ctx, o, cores, s, acc, id);
    }
    if id in o.start.boxes && !UserSpendable(o.start.boxes[id]) {
      UnspendableStays(ctx, o, cores, s, acc, id);
    }
  }

  /** A bond the body creates names an invitee with no record, so it is not due. */
  lemma NewBondNotDue(ctx: Ctx, o: Origin, cores: seq<TxCore>, s: State, acc: Acc, id: BoxId)
    requires Ready(ctx, o, cores, s, acc) && id in s.boxes && id !in o.start.boxes && s.boxes[id].Bond?
    ensures s.boxes[id].inviteePublicKey !in s.records
  {
    NewIsUserMade(ctx, o, cores, s, acc, id);
    assert CreatesBond(cores, id, s.boxes[id].inviteePublicKey);
  }

  lemma RecordsAged(ctx: Ctx, o: Origin, cores: seq<TxCore>, s: State, acc: Acc)
    requires Ready(ctx, o, cores, s, acc)
    ensures Aged(o.start.records, s.records)
  {
  }

  lemma DueSame(ctx: Ctx, o: Origin, cores: seq<TxCore>, s: State, acc: Acc, id: BoxId, maxInvitedAt: int)
    requires Ready(ctx, o, cores, s, acc)
    ensures (id in s.boxes && InvitedBy(s.records, s.boxes[id], maxInvitedAt))
      <==> (id in o.start.boxes && InvitedBy(o.start.records, o.start.boxes[id], maxInvitedAt))
    ensures id in s.boxes && InvitedBy(s.records, s.boxes[id], maxInvitedAt) ==>
      s.boxes[id] == o.start.boxes[id]
      && s.records[s.boxes[id].inviteePublicKey].invitedAtBlock
         == o.start.records[s.boxes[id].inviteePublicKey].invitedAtBlock
  {
    NewOrOld(ctx, o, cores, s, acc, id);
    RecordsAged(ctx, o, cores, s, acc);
    if id in s.boxes && id !in o.start.boxes && s.boxes[id].Bond? {
      NewBondNotDue(ctx, o, cores, s, acc, id);
    } else if id in s.boxes && s.boxes[id].Bond? && s.boxes[id].inviteePublicKey in s.records {
      assert SameStanding(o.start.records[s.boxes[id].inviteePublicKey], s.records[s.boxes[id].inviteePublicKey]);
    }
  }

  lemma BondReadsSame(ctx: Ctx, o: Origin, cores: seq<TxCore>, s: State, acc: Acc, height: int)
    requires Ready(ctx, o, cores, s, acc)
    ensures BondsSettlingAt(ctx, s, height) == BondsSettlingAt(ctx, o.start, height)
  {
    AllDueSame(ctx, o, cores, s, acc, WindowStart(ctx, height));
  }

  lemma AllDueSame(ctx: Ctx, o: Origin, cores: seq<TxCore>, s: State, acc: Acc, maxInvitedAt: int)
    requires Ready(ctx, o, cores, s, acc)
    ensures DueBonds(s, maxInvitedAt) == DueBonds(o.start, maxInvitedAt)
  {
    forall d ensures d in DueBonds(s, maxInvitedAt) <==> d in DueBonds(o.start, maxInvitedAt) {
      DueSame(ctx, o, cores, s, acc, d.bond.id, maxInvitedAt);
    }
  }

  /** The carry the producer finds before the body is the one left when the body's markers are set aside. */
  lemma CarryReadSame(ctx: Ctx, o: Origin, cores: seq<TxCore>, s: State, acc: Acc, author: Key)
    requires Ready(ctx, o, cores, s, acc)
    ensures var markers := BodyListed(cores, IsAccrual);
      CarryOf(ctx, s.boxes, markers, author) == CarryOf(ctx, o.start.boxes, markers, author)
  {
    var markers := BodyListed(cores, IsAccrual);
    BodyListIsLive(ctx, o, cores, s, acc, IsAccrual);
    CarryIs(ctx, s.boxes, markers, author);
    CarryIs(ctx, o.start.boxes, markers, author);
    var now, before := CarryOf(ctx, s.boxes, markers, author), CarryOf(ctx, o.start.boxes, markers, author);
    if now.Some? {
      CarryIsOld(ctx, o, cores, s, acc, author, now.value);
    }
    if before.Some? {
      NewOrOld(ctx, o, cores, s, acc, before.value.id);
    }
    SameCarry(o.start.boxes, author, now, before);
  }

  lemma CarryIsOld(ctx: Ctx, o: Origin, cores: seq<TxCore>, s: State, acc: Acc, author: Key, l: Live)
    requires Ready(ctx, o, cores, s, acc) && ListLeft(o.start.boxes, s.boxes, BodyListed(cores, IsAccrual), IsAccrual)
    requires IsAccrualOf(s.boxes, author, l) && l.id !in IdSet(BodyListed(cores, IsAccrual))
    ensures IsAccrualOf(o.start.boxes, author, l)
  {
    NotMarkerIsOldBox(ctx, o, cores, s, acc, l);
  }

  lemma NotMarkerIsOldBox(ctx: Ctx, o: Origin, cores: seq<TxCore>, s: State, acc: Acc, l: Live)
    requires Ready(ctx, o, cores, s, acc) && ListLeft(o.start.boxes, s.boxes, BodyListed(cores, IsAccrual), IsAccrual)
    requires l.id in s.boxes && s.boxes[l.id] == l.box && l.box.LikeAccrual?
      && l.id !in IdSet(BodyListed(cores, IsAccrual))
    ensures l.id in o.start.boxes && o.start.boxes[l.id] == l.box
  {
    NewOrOld(ctx, o, cores, s, acc, l.id);
    assert Live(l.id, s.boxes[l.id]) == l;
    assert l in BodyListed(cores, IsAccrual) ==> l.id in IdSet(BodyListed(cores, IsAccrual));
  }

  /** Two reads that each find an old carry, or find none only where there is none, find the same. */
  lemma SameCarry(before: Boxes, author: Key, late: Option<Live>, early: Option<Live>)
    requires NoRivals(before)
    requires late.Some? ==> IsAccrualOf(before, author, late.value) && early.Some?
    requires early.Some? ==> IsAccrualOf(before, author, early.value) && late.Some?
    ensures late == early
  {
    if late.Some? {
      assert Rivals(before[late.value.id], before[early.value.id]);
    }
  }

  lemma IncomeIsOld(ctx: Ctx, o: Origin, cores: seq<TxCore>, s: State, acc: Acc, owner: Key, l: Live)
    requires Ready(ctx, o, cores, s, acc) && IsKarmaOf(s.boxes, owner, l) && l.box.income
    ensures IsKarmaOf(o.start.boxes, owner, l)
  {
    NewOrOld(ctx, o, cores, s, acc, l.id);
  }

  lemma UnspentStays(ctx: Ctx, o: Origin, cores: seq<TxCore>, s: State, acc: Acc, id: BoxId)
    requires Ready(ctx, o, cores, s, acc) && id in o.start.boxes && id !in o.inputs
    ensures id in s.boxes && s.boxes[id] == o.start.boxes[id]
  {
    LiveMeans(ctx, o, cores, s, acc, id);
  }

  /** The income box: over the overlay the body's spends are gone, over the state before them they are set aside. */
  lemma IncomeReadSame(ctx: Ctx, o: Origin, cores: seq<TxCore>, s: State, acc: Acc, owner: Key, spent: set<BoxId>)
    requires Ready(ctx, o, cores, s, acc) && o.inputs <= spent
    ensures IncomeBox(ctx, s.boxes, owner, spent) == IncomeBox(ctx, o.start.boxes, owner, spent)
  {
    var late, early := IncomeBox(ctx, s.boxes, owner, spent), IncomeBox(ctx, o.start.boxes, owner, spent);
    IncomeBoxIs(ctx, s.boxes, owner, spent);
    IncomeBoxIs(ctx, o.start.boxes, owner, spent);
    if late.Some? {
      IncomeIsOld(ctx, o, cores, s, acc, owner, late.value);
    }
    if early.Some? {
      UnspentStays(ctx, o, cores, s, acc, early.value.id);
    }
    SameIncome(o.start.boxes, owner, late, early);
  }

  lemma SameIncome(before: Boxes, owner: Key, late: Option<Live>, early: Option<Live>)
    requires NoRivals(before)
    requires late.Some? ==> IsKarmaOf(before, owner, late.value) && late.value.box.income && early.Some?
    requires early.Some? ==> IsKarmaOf(before, owner, early.value) && early.value.box.income && late.Some?
    ensures late == early
  {
    if late.Some? {
      assert Rivals(before[late.value.id], before[early.value.id]);
    }
  }

  // ---------------------------------------------------------------------------
  // The derivation, before and after the body
  // ---------------------------------------------------------------------------

  lemma {:induction false} PayoutsSame(ctx: Ctx, before: Boxes, now: Boxes, markers: seq<Live>, authors: seq<Key>)
    requires forall author | author in authors :: CarryOf(ctx, now, markers, author) == CarryOf(ctx, before, markers,
      author)
    ensures PayoutsFor(ctx, now, markers, authors) == PayoutsFor(ctx, before, markers, authors)
  {
    if authors != [] {
      PayoutsSame(ctx, before, now, markers, authors[1..]);
    }
  }

  lemma LikePayoutsSame(ctx: Ctx, o: Origin, cores: seq<TxCore>, s: State, acc: Acc)
    requires Ready(ctx, o, cores, s, acc)
    ensures var markers := BodyListed(cores, IsAccrual);
      LikePayouts(ctx, s.boxes, markers) == LikePayouts(ctx, o.start.boxes, markers)
  {
    var markers := BodyListed(cores, IsAccrual);
    var authors := Ascending(Authors(markers));
    forall author | author in authors
      ensures CarryOf(ctx, s.boxes, markers, author) == CarryOf(ctx, o.start.boxes, markers, author)
    {
      CarryReadSame(ctx, o, cores, s, acc, author);
    }
    PayoutsSame(ctx, o.start.boxes, s.boxes, markers, authors);
  }

  lemma {:induction false} IncomesSame(
    ctx: Ctx, o: Origin, cores: seq<TxCore>, s: State, acc: Acc, es: seq<Earning>, spent: set<BoxId>, owners: seq<Key>)
    requires Ready(ctx, o, cores, s, acc) && o.inputs <= spent
    ensures IncomesFor(ctx, s.boxes, es, spent, owners) == IncomesFor(ctx, o.start.boxes, es, spent, owners)
  {
    if owners != [] {
      IncomeReadSame(ctx, o, cores, s, acc, owners[0], spent);
      IncomesSame(ctx, o, cores, s, acc, es, spent, owners[1..]);
    }
  }

  lemma {:induction false} VestingSame(before: Records, after: Records, bonds: seq<Live>)
    requires forall k :: LifetimeLikes(after, k) == LifetimeLikes(before, k)
    ensures FromBonds(after, bonds) == FromBonds(before, bonds)
    ensures Forfeited(after, bonds) == Forfeited(before, bonds)
  {
    if bonds != [] {
      VestingSame(before, after, bonds[1..]);
      assert LifetimeLikes(after, InviteeOf(bonds[0].box)) == LifetimeLikes(before, InviteeOf(bonds[0].box));
    }
  }

  lemma AgedLikes(before: Records, after: Records)
    requires Aged(before, after)
    ensures forall k :: LifetimeLikes(after, k) == LifetimeLikes(before, k)
  {
    forall k ensures LifetimeLikes(after, k) == LifetimeLikes(before, k) {
      assert k in before ==> SameStanding(before[k], after[k]);
    }
  }

  lemma LegsSame(ctx: Ctx, o: Origin, cores: seq<TxCore>, s: State, acc: Acc, height: nat, cap: Captured,
    body: SettlementBody)
    requires Ready(ctx, o, cores, s, acc) && body.markers == BodyListed(cores, IsAccrual) && cap.spent == o.inputs
    ensures LegsOf(ctx, s, cap, height, body) == LegsOf(ctx, o.start, cap, height, body)
    ensures Forfeited(s.records, BondsSettlingAt(ctx, s, height))
      == Forfeited(o.start.records, BondsSettlingAt(ctx, o.start, height))
  {
    var bonds := BondsSettlingAt(ctx, o.start, height);
    LikePayoutsSame(ctx, o, cores, s, acc);
    BondReadsSame(ctx, o, cores, s, acc, height);
    RecordsAged(ctx, o, cores, s, acc);
    AgedLikes(o.start.records, s.records);
    VestingSame(o.start.records, s.records, bonds);
    var es := LegsOf(ctx, o.start, cap, height, body).earnings;
    IncomesSame(ctx, o, cores, s, acc, es, cap.spent + IdSet(Consumed(cap.plans)), Ascending(Earners(es)));
  }

  /** What the protocol boxes' reads decide. */
  lemma ProtocolPartsSame(ctx: Ctx, before: Boxes, now: Boxes, cap: Captured, height: nat, body: SettlementBody)
    requires ValidCtx(ctx)
    requires FirstLive(ctx, now, IsEmission) == FirstLive(ctx, before, IsEmission)
    requires FirstLive(ctx, now, IsTreasury) == FirstLive(ctx, before, IsTreasury)
    requires FirstLive(ctx, now, IsKarmaPool) == FirstLive(ctx, before, IsKarmaPool)
    ensures SlicesOf(ctx, now, cap, height, body) == SlicesOf(ctx, before, cap, height, body)
    ensures forall slice: nat :: TreasuryMove(ctx, now, slice, height) == TreasuryMove(ctx, before, slice, height)
    ensures forall draw: nat, sink: nat :: PoolMove(ctx, now, draw, sink, height) == PoolMove(ctx, before, draw, sink,
      height)
  {
  }

  lemma ProtocolReads(ctx: Ctx, o: Origin, cores: seq<TxCore>, s: State, acc: Acc)
    requires Ready(ctx, o, cores, s, acc)
    ensures FirstLive(ctx, s.boxes, IsEmission) == FirstLive(ctx, o.start.boxes, IsEmission)
    ensures FirstLive(ctx, s.boxes, IsTreasury) == FirstLive(ctx, o.start.boxes, IsTreasury)
    ensures FirstLive(ctx, s.boxes, IsKarmaPool) == FirstLive(ctx, o.start.boxes, IsKarmaPool)
  {
    ProtocolReadsSame(ctx, o, cores, s, acc, IsEmission);
    ProtocolReadsSame(ctx, o, cores, s, acc, IsTreasury);
    ProtocolReadsSame(ctx, o, cores, s, acc, IsKarmaPool);
  }

  lemma AssemblesSame(ctx: Ctx, before: State, now: State, cap: Captured, height: nat, body: SettlementBody)
    requires ValidCtx(ctx)
    requires SlicesOf(ctx, now.boxes, cap, height, body) == SlicesOf(ctx, before.boxes, cap, height, body)
    requires forall slice: nat ::
      TreasuryMove(ctx, now.boxes, slice, height) == TreasuryMove(ctx, before.boxes, slice, height)
    requires forall draw: nat, sink: nat :: PoolMove(ctx, now.boxes, draw, sink, height) == PoolMove(ctx, before.boxes,
      draw, sink, height)
    requires LegsOf(ctx, now, cap, height, body) == LegsOf(ctx, before, cap, height, body)
    requires PoolSink(now.records, cap, body, LegsOf(ctx, now, cap, height, body))
      == PoolSink(before.records, cap, body, LegsOf(ctx, before, cap, height, body))
    ensures Derive(ctx, now, cap, height, body) == Derive(ctx, before, cap, height, body)
  {
    var slices := SlicesOf(ctx, before.boxes, cap, height, body);
    if slices.Some? {
      var slice := slices.value.split.treasury;
      assert TreasuryMove(ctx, now.boxes, slice, height) == TreasuryMove(ctx, before.boxes, slice, height);
    }
  }

  /** Deriving over the state before the body and over the one it leaves gives one settlement. */
  lemma DerivesSame(ctx: Ctx, o: Origin, cores: seq<TxCore>, s: State, acc: Acc, height: nat, cap: Captured,
    body: SettlementBody)
    requires Deriving(ctx, o, cores, s, acc, height, cap, body)
    ensures Derive(ctx, s, cap, height, body) == Derive(ctx, o.start, cap, height, body)
  {
    ProtocolReads(ctx, o, cores, s, acc);
    ProtocolPartsSame(ctx, o.start.boxes, s.boxes, cap, height, body);
    LegsSame(ctx, o, cores, s, acc, height, cap, body);
    AssemblesSame(ctx, o.start, s, cap, height, body);
  }

  // ---------------------------------------------------------------------------
  // Conservation is implied
  // ---------------------------------------------------------------------------

  ghost predicate Sided(b: Box) { KarmaSide(b) || CreditSide(b) }

  lemma {:induction false} ValueSplits(bs: seq<Box>)
    requires forall b | b in bs :: Sided(b)
    ensures SeqSum(bs, ValueWeight()) == SeqSum(bs, KarmaWeight()) + SeqSum(bs, CreditWeight())
  {
    if bs != [] {
      assert Sided(bs[0]);
      ValueSplits(bs[1..]);
    }
  }

  lemma {:induction false} LiveValueSplits(ls: seq<Live>)
    requires forall l | l in ls :: Sided(l.box)
    ensures LiveSum(ls, ValueWeight()) == LiveSum(ls, KarmaWeight()) + LiveSum(ls, CreditWeight())
  {
    if ls != [] {
      assert ls[0] in ls && Sided(ls[0].box);
      LiveValueSplits(ls[1..]);
    }
  }

  lemma InputsSided(boxes: Boxes, before: set<BoxId>, charged: set<BoxId>, ls: seq<Live>)
    requires LegLive(boxes, before, charged, ls, 0, 14)
    ensures forall l | l in ls :: Sided(l.box)
  {
    forall l | l in ls ensures Sided(l.box) {
      assert KindOf(before, charged, l) < 14;
    }
  }

  lemma OutputsSided(ctx: Ctx, s: State, cap: Captured, height: nat, body: SettlementBody, d: Derived, tail: seq<Box>)
    requires ValidCtx(ctx) && Derive(ctx, s, cap, height, body) == Some(d) && CoinbaseOk(d, height, tail)
    ensures forall b | b in d.outputs + tail :: Sided(b)
  {
    var slices, treasury, backer, legs, pool := PartsOf(ctx, s, cap, height, body);
    forall b | b in d.outputs + tail ensures Sided(b) {
      OutputOrigin(ctx, s, cap, height, body, d, slices, treasury, backer, legs, pool, tail, b);
    }
  }

  /** Live inputs, every box on a ledger, each ledger balanced. */
  ghost predicate DerivedSound(boxes: Boxes, d: Derived) {
    && LiveList(boxes, d.inputs)
    && (forall l | l in d.inputs :: Sided(l.box))
    && LiveSum(d.inputs, KarmaWeight()) == SeqSum(d.outputs, KarmaWeight())
    && LiveSum(d.inputs, CreditWeight()) == SeqSum(d.outputs, CreditWeight()) + d.minerSlice
    && d.minerSlice >= 0
  }

  lemma DerivedIsSound(ctx: Ctx, o: Origin, cores: seq<TxCore>, s: State, acc: Acc, height: nat, cap: Captured,
    body: SettlementBody, d: Derived)
    requires Deriving(ctx, o, cores, s, acc, height, cap, body) && Derive(ctx, s, cap, height, body) == Some(d)
    ensures DerivedSound(s.boxes, d)
  {
    DerivedInputsAreLive(ctx, o, cores, s, acc, height, cap, body);
    DerivedBalances(ctx, o, cores, s, acc, height, cap, body, d);
    InputsSided(s.boxes, o.start.boxes.Keys, Charged(cap), d.inputs);
  }

  /** The conservation clause cannot fail on its own: whatever matches the derivation conserves. */
  lemma ConservationImplied(
    ctx: Ctx, o: Origin, cores: seq<TxCore>, s: State, acc: Acc, height: nat, cap: Captured, body: SettlementBody,
    d: Derived, settlement: Tx)
    requires Deriving(ctx, o, cores, s, acc, height, cap, body)
    requires Derive(ctx, s, cap, height, body) == Some(d) && MatchesDerived(d, height, settlement)
    ensures Conserves(s.boxes, settlement.core)
  {
    DerivedIsSound(ctx, o, cores, s, acc, height, cap, body, d);
    MatchedConserves(ctx, s, cap, height, body, d, settlement);
  }

  lemma MatchedConserves(ctx: Ctx, s: State, cap: Captured, height: nat, body: SettlementBody, d: Derived,
    settlement: Tx)
    requires ValidCtx(ctx) && Derive(ctx, s, cap, height, body) == Some(d) && MatchesDerived(d, height, settlement)
    requires DerivedSound(s.boxes, d)
    ensures Conserves(s.boxes, settlement.core)
  {
    var tail := settlement.core.outputs[|d.outputs|..];
    assert settlement.core.outputs == d.outputs + tail;
    OutputsSided(ctx, s, cap, height, body, d, tail);
    ConservesFrom(s.boxes, settlement.core, d, height, tail);
  }

  lemma ConservesFrom(boxes: Boxes, core: TxCore, d: Derived, height: nat, tail: seq<Box>)
    requires core.inputs == Ids(d.inputs) && core.outputs == d.outputs + tail
    requires LiveList(boxes, d.inputs) && CoinbaseOk(d, height, tail)
    requires (forall l | l in d.inputs :: Sided(l.box)) && (forall b | b in d.outputs + tail :: Sided(b))
    requires LiveSum(d.inputs, KarmaWeight()) == SeqSum(d.outputs, KarmaWeight())
    requires LiveSum(d.inputs, CreditWeight()) == SeqSum(d.outputs, CreditWeight()) + d.minerSlice
    ensures Conserves(boxes, core)
  {
    InputsDistinctAndLive(boxes, d.inputs);
    LiveSumIs(boxes, d.inputs, ValueWeight());
    LiveValueSplits(d.inputs);
    ValueSplits(core.outputs);
    SeqSumConcat(d.outputs, tail, KarmaWeight());
    SeqSumConcat(d.outputs, tail, CreditWeight());
    TailTotals(d, height, tail);
  }

  // ---------------------------------------------------------------------------
  // Agreement
  // ---------------------------------------------------------------------------

  lemma {:induction false} PlansIgnorePosts(ctx: Ctx, s: State, t: State, cores: seq<TxCore>, owners: seq<Key>,
    height: int)
    requires ValidCtx(ctx) && t.boxes == s.boxes && t.records == s.records
    ensures PlansFor(ctx, t, cores, owners, height) == PlansFor(ctx, s, cores, owners, height)
  {
    if owners != [] {
      PlansIgnorePosts(ctx, s, t, cores, owners[1..], height);
    }
  }

  lemma BondsIgnorePosts(ctx: Ctx, s: State, t: State, height: int)
    requires t.boxes == s.boxes && t.records == s.records
    ensures BondsSettlingAt(ctx, t, height) == BondsSettlingAt(ctx, s, height)
  {
    var m := WindowStart(ctx, height);
    assert DueBonds(t, m) == DueBonds(s, m);
  }

  /** The captures read boxes and records alone. */
  lemma CapturesIgnorePosts(ctx: Ctx, s: State, t: State, cores: seq<TxCore>, height: nat)
    requires ValidCtx(ctx) && t.boxes == s.boxes && t.records == s.records
    ensures CapturedOf(ctx, t, cores, height) == CapturedOf(ctx, s, cores, height)
  {
    BondsIgnorePosts(ctx, s, t, height);
    PlansIgnorePosts(ctx, s, t, cores, Ascending(SquaredSet(s.boxes, cores, PayeesOf(ctx, s, cores, height))), height);
  }

  lemma DerivationIgnoresPosts(ctx: Ctx, s: State, t: State, cap: Captured, height: nat, body: SettlementBody)
    requires ValidCtx(ctx) && t.boxes == s.boxes && t.records == s.records
    ensures Derive(ctx, t, cap, height, body) == Derive(ctx, s, cap, height, body)
  {
    BondsIgnorePosts(ctx, s, t, height);
    AssemblesSame(ctx, s, t, cap, height, body);
  }

  lemma TallyOpens(o: Origin, queue: seq<Tx>, owed: Owed)
    requires Mid(o, [], o.start, EmptyAcc(o.start)) && o.inputs == InputsOf(CoresOf(queue))
    requires TouchedOwners(o.start.boxes, o.inputs) <= owed.Keys
    ensures Tallying(o, CoresOf(queue), [], queue, o.start, EmptyAcc(o.start), owed)
  {
    assert CoresOf([]) == [];
    forall tx | tx in queue ensures tx.core in CoresOf(queue) {
      var i :| 0 <= i < |queue| && queue[i] == tx;
      assert CoresOf(queue)[i] == tx.core;
    }
  }

  /** The body the producer predicts is the one the applier gathers. */
  lemma PredictionHolds(ctx: Ctx, s: State, height: int, applied: set<TxCore>, block: Block)
    requires ValidCtx(ctx) && Inv(ctx, s, height, applied)
    requires BodyOutcomeOf(ctx, s, block).Done?
    ensures PredictBody(s, block.queue, block.validator)
      == BodyOf(CoresOf(block.queue), BodyOutcomeOf(ctx, s, block).value.1.rent,
          ActorCount(BodyOutcomeOf(ctx, s, block).value.1, block.validator))
  {
    var o := OriginOf(s, block, applied);
    var cores := CoresOf(block.queue);
    var owed := OwedBefore(ctx, o.start, cores, PayeesOf(ctx, o.start, cores, block.height), block.height);
    BodyOpens(ctx, o.start, applied, o.inputs);
    TallyOpens(o, block.queue, owed);
    QueueTallies(ctx, o, cores, [], o.start, EmptyAcc(o.start), owed, block.queue, block.height);
    assert [] + block.queue == block.queue;
  }

  /** Deriving from the prediction before the body, or from the gathered body after it, is one derivation. */
  lemma BothDerive(ctx: Ctx, s: State, height: int, applied: set<TxCore>, block: Block, now: State, acc: Acc,
    cap: Captured, body: SettlementBody)
    requires ValidCtx(ctx) && Inv(ctx, s, height, applied) && Bodied(ctx, s, applied, block, now, acc)
    requires cap == CapturedOf(ctx, Confirmed(s, block), CoresOf(block.queue), block.height)
    requires body == BodyOf(CoresOf(block.queue), acc.rent, ActorCount(acc, block.validator))
    ensures Deriving(ctx, OriginOf(s, block, applied), CoresOf(block.queue), now, acc, block.height, cap, body)
    ensures cap == CapturedOf(ctx, s, CoresOf(block.queue), block.height) && body
      == PredictBody(s, block.queue, block.validator)
    ensures Derive(ctx, now, cap, block.height, body) == Derive(ctx, s, cap, block.height, body)
  {
    var o, cores := OriginOf(s, block, applied), CoresOf(block.queue);
    BodiedIsReady(ctx, s, height, applied, block, now, acc);
    PredictionHolds(ctx, s, height, applied, block);
    CapturesIgnorePosts(ctx, s, o.start, cores, block.height);
    DerivesSame(ctx, o, cores, now, acc, block.height, cap, body);
    DerivationIgnoresPosts(ctx, s, o.start, cap, block.height, body);
  }

  /** What the applier accepts, in the derivation's terms: conservation adds nothing. */
  lemma CheckIsMatch(
    ctx: Ctx, o: Origin, cores: seq<TxCore>, s: State, acc: Acc, height: nat, cap: Captured, body: SettlementBody,
    settlement: Tx)
    requires Deriving(ctx, o, cores, s, acc, height, cap, body)
    ensures var d := Derive(ctx, s, cap, height, body);
      && (CheckSettlement(ctx, s, cap, height, body, settlement) <==>
            d.Some? && MatchesDerived(d.value, height, settlement))
      && (d.Some? ==> d.value.minerSlice >= 0)
  {
    var d := Derive(ctx, s, cap, height, body);
    if d.Some? {
      DerivedIsSound(ctx, o, cores, s, acc, height, cap, body, d.value);
      if MatchesDerived(d.value, height, settlement) {
        ConservationImplied(ctx, o, cores, s, acc, height, cap, body, d.value, settlement);
      }
    }
  }

  ghost predicate IsBuilt(ctx: Ctx, s: State, block: Block, settlement: Tx)
    requires ValidCtx(ctx)
  {
    exists owner :: BuildBlockSettlement(ctx, s, block.queue, block.height, block.validator, owner) == Some(settlement)
  }

  /**
   * The producer and the applier agree. For a body that applies, a settlement passes the applier's check
   * over the state the body leaves exactly when it is the one the producer builds over the state before
   * the body, for some coinbase owner; where the producer can build none, none passes.
   */
  lemma ProducerAndApplierAgree(ctx: Ctx, s: State, height: int, applied: set<TxCore>, block: Block, now: State,
    acc: Acc, settlement: Tx)
    requires ValidCtx(ctx) && Inv(ctx, s, height, applied) && Bodied(ctx, s, applied, block, now, acc)
    ensures var cap := CapturedOf(ctx, Confirmed(s, block), CoresOf(block.queue), block.height);
      var body := BodyOf(CoresOf(block.queue), acc.rent, ActorCount(acc, block.validator));
      CheckSettlement(ctx, now, cap, block.height, body, settlement) <==> IsBuilt(ctx, s, block, settlement)
  {
    var o, cores := OriginOf(s, block, applied), CoresOf(block.queue);
    var cap := CapturedOf(ctx, o.start, cores, block.height);
    var body := BodyOf(cores, acc.rent, ActorCount(acc, block.validator));
    BothDerive(ctx, s, height, applied, block, now, acc, cap, body);
    CheckIsMatch(ctx, o, cores, now, acc, block.height, cap, body, settlement);
    BuiltIsMatch(ctx, s, block, cap, body, settlement);
  }

  lemma BuiltIsMatch(ctx: Ctx, s: State, block: Block, cap: Captured, body: SettlementBody, settlement: Tx)
    requires ValidCtx(ctx) && body == PredictBody(s, block.queue, block.validator)
    requires cap == CapturedOf(ctx, s, CoresOf(block.queue), block.height)
    requires var d := Derive(ctx, s, cap, block.height, body); d.Some? ==> d.value.minerSlice >= 0
    ensures var d := Derive(ctx, s, cap, block.height, body);
      IsBuilt(ctx, s, block, settlement) <==> d.Some? && MatchesDerived(d.value, block.height, settlement)
  {
    var d := Derive(ctx, s, cap, block.height, body);
    if d.Some? {
      MatchIsBuilt(d.value, block.height, settlement);
      BuiltFrom(ctx, s, block, cap, body, d.value);
    }
  }

  lemma BuiltFrom(ctx: Ctx, s: State, block: Block, cap: Captured, body: SettlementBody, d: Derived)
    requires ValidCtx(ctx) && body == PredictBody(s, block.queue, block.validator)
    requires cap == CapturedOf(ctx, s, CoresOf(block.queue), block.height)
    requires Derive(ctx, s, cap, block.height, body) == Some(d)
    ensures forall owner ::
      BuildBlockSettlement(ctx, s, block.queue, block.height, block.validator, owner)
          == Some(BuildSettlement(d, block.height, owner))
  {
  }

  /** Matching the derivation is being built from it. */
  lemma MatchIsBuilt(d: Derived, height: nat, settlement: Tx)
    requires d.minerSlice >= 0
    ensures MatchesDerived(d, height, settlement) <==> exists owner :: BuildSettlement(d, height, owner) == settlement
  {
    if MatchesDerived(d, height, settlement) {
      var tail := settlement.core.outputs[|d.outputs|..];
      var owner := if tail != [] then OwnerIn(tail[0]) else 0;
      assert tail == CoinbaseTail(d, height, owner);
      assert settlement.core.outputs == d.outputs + tail;
      assert BuildSettlement(d, height, owner) == settlement;
    }
    if owner :| BuildSettlement(d, height, owner) == settlement {
      assert settlement.core.outputs[|d.outputs|..] == CoinbaseTail(d, height, owner);
    }
  }

  function OwnerIn(b: Box): Key {
    if b.Credit? then b.owner else 0
  }
}
