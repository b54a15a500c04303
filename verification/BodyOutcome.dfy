/** A whole body of user transactions: what it leaves, and that it never throws. */
module BodyOutcome {
  import opened Wrappers
  import opened Sums
  import opened Ledger
  import opened Engine
  import opened Body
  import opened Coinbase
  import opened Decay
  import opened Applying
  import opened Lawful
  import opened Invariant
  import opened BodyRun
  import opened BodyKeeps
  import opened Blocks

  // ---------------------------------------------------------------------------
  // Likes, posters, sums
  // ---------------------------------------------------------------------------

  ghost predicate MidLiked(o: Origin, acc: Acc) {
    && (forall k | k in acc.likes :: IsAuthor(o.start.posts, k))
    && acc.memberLikes.Keys <= acc.likes.Keys
  }

  predicate PosterKnown(core: TxCore, records: Records) {
    core.payload.Post? ==> core.payload.author in records
  }

  ghost predicate MidPosters(o: Origin, done: seq<TxCore>) {
    forall core | core in done :: PosterKnown(core, o.start.records)
  }

  ghost predicate SameTotals(before: Boxes, after: Boxes) {
    && KarmaTotal(after) == KarmaTotal(before)
    && CreditTotal(after) == CreditTotal(before)
    && WeightTotal(after) == WeightTotal(before)
  }

  ghost predicate UnstakesWeighty(done: seq<TxCore>) {
    forall core | core in done :: UnstakeLawful(core)
  }

  /** The boxes: traced, new, unrivalled, and worth what they were. */
  ghost predicate MidShape(o: Origin, done: seq<TxCore>, boxes: Boxes, taken: set<BoxId>) {
    && AllNew(o.start.boxes, o.applied, done, boxes, taken)
    && BoxesTraced(o.start.boxes, done, boxes)
    && NoUserRivals(boxes)
    && SameTotals(o.start.boxes, boxes)
  }

  ghost predicate MidCores(o: Origin, done: seq<TxCore>) {
    MidPosters(o, done) && UnstakesWeighty(done)
  }

  ghost predicate MidPeople(o: Origin, s: State) {
    && AllMidRegistered(s.boxes, s.records, s.posts)
    && NewKarmaTouched(o, s.boxes)
    && MidRecords(o, s)
  }

  ghost predicate MidAccount(o: Origin, done: seq<TxCore>, s: State, acc: Acc) {
    && MidTouched(o, s, acc)
    && MidInvited(o, done, acc)
    && MidLiked(o, acc)
  }

  ghost predicate Mid(o: Origin, done: seq<TxCore>, s: State, acc: Acc) {
    && MidShape(o, done, s.boxes, acc.taken)
    && MidCores(o, done)
    && MidPeople(o, s)
    && MidAccount(o, done, s, acc)
  }

  // ---------------------------------------------------------------------------
  // One transaction
  // ---------------------------------------------------------------------------

  lemma LawfulIsSpendable(s: State, core: TxCore)
    requires InputsLawful(s, core)
    ensures Spendable(s.boxes, core)
  {
  }

  lemma StaysSummed(boxes: Boxes, core: TxCore)
    requires Distinct(core.inputs) && InputsLive(boxes, core.inputs)
    requires FreshFrom(core, 0, boxes.Keys)
    requires FamiliesKept(ValuesAt(boxes, core.inputs), core.outputs)
    ensures SameTotals(boxes, AfterTx(boxes, core))
  {
    StaysSummedIn(boxes, core, KarmaWeight());
    StaysSummedIn(boxes, core, CreditWeight());
    StaysSummedIn(boxes, core, WeightOf());
  }

  lemma StaysSummedIn(boxes: Boxes, core: TxCore, w: Box -> int)
    requires Distinct(core.inputs) && InputsLive(boxes, core.inputs)
    requires FreshFrom(core, 0, boxes.Keys)
    requires SeqSum(ValuesAt(boxes, core.inputs), w) == SeqSum(core.outputs, w)
    ensures MapSum(AfterTx(boxes, core), w) == MapSum(boxes, w)
  {
    AfterTxSum(boxes, core, w);
  }

  lemma LawfulApplies(o: Origin, done: seq<TxCore>, s: State, acc: Acc, core: TxCore)
    requires Mid(o, done, s, acc) && InputsLawful(s, core) && OutputsLawful(s, core)
    ensures Appliable(s, acc.taken, core)
    ensures VouchParties(s.boxes, s.records)
  {
    LawfulIsSpendable(s, core);
    NewCore(o.start.boxes, o.applied, done, s.boxes, acc.taken, core);
    MidHasParties(s.boxes, s.records, s.posts);
  }

  /** Everything the boxes decide. */
  lemma BoxesStep(o: Origin, done: seq<TxCore>, s: State, acc: Acc, core: TxCore)
    requires Mid(o, done, s, acc) && InputsLawful(s, core) && OutputsLawful(s, core)
    ensures MidShape(o, done + [core], AfterTx(s.boxes, core), acc.taken + OutputIds(core))
  {
    LawfulIsSpendable(s, core);
    StaysNew(o.start.boxes, o.applied, done, s.boxes, acc.taken, core);
    StaysTraced(o.start.boxes, o.applied, done, s.boxes, acc.taken, core);
    StaysUnrivalled(s, core);
    NewCore(o.start.boxes, o.applied, done, s.boxes, acc.taken, core);
    StaysSummed(s.boxes, core);
  }

  lemma IdentitiesStep(o: Origin, done: seq<TxCore>, s: State, acc: Acc, core: TxCore, records: Records)
    requires Mid(o, done, s, acc) && InputsLawful(s, core) && OutputsLawful(s, core)
    requires Members(core.inputs) <= o.inputs && Aged(s.records, records)
    ensures AllMidRegistered(AfterTx(s.boxes, core), records, s.posts)
    ensures NewKarmaTouched(o, AfterTx(s.boxes, core))
  {
    StaysRegistered(s, core, records);
    forall id | id in core.inputs && id in o.start.boxes && id in s.boxes ensures s.boxes[id] == o.start.boxes[id] {
      assert Traced(o.start.boxes, done, s.boxes, id);
    }
    StaysTouched(o, s, core);
  }

  /** The records after the transaction, its activity clock included. */
  ghost function RecordsAfter(applied: Records, core: TxCore, owner: Key, height: int): Records {
    if core.payload.Post? then AdvanceActivity(applied, owner, height) else applied
  }

  lemma RecordsStep(o: Origin, done: seq<TxCore>, s: State, acc: Acc, core: TxCore, bs: seq<Box>, height: int)
    requires Mid(o, done, s, acc) && InputsLawful(s, core) && OutputsLawful(s, core)
    requires bs == ValuesAt(s.boxes, core.inputs)
    ensures ApplyTx(s, acc.taken, core).Some?
    ensures var t := ApplyTx(s, acc.taken, core).value;
      var records := RecordsAfter(t.records, core, OwnerOf(bs[0]), height);
      && t.boxes == AfterTx(s.boxes, core)
      && SameBeside(s, t)
      && Aged(s.records, records)
      && VouchesCounted(t.boxes, records)
      && PosterKnown(core, o.start.records)
      && forall k | SparesTarget(s.boxes, core.inputs, k) && MakesNoneFor(core.outputs, k) ::
         Unmoved(s.records, records, k)
  {
    LawfulApplies(o, done, s, acc, core);
    ApplyTxEffect(s, acc.taken, core);
    var t := ApplyTx(s, acc.taken, core).value;
    if core.payload.Post? {
      assert bs[0] == s.boxes[core.inputs[0]];
      assert MidRegistered(s.boxes[core.inputs[0]], s.records, s.posts);
      ActivityKeepsCounts(t.boxes, t.records, OwnerOf(bs[0]), height);
      var records := AdvanceActivity(t.records, OwnerOf(bs[0]), height);
      AgedTransitive(s.records, t.records, records);
      forall k | SparesTarget(s.boxes, core.inputs, k) && MakesNoneFor(core.outputs, k)
        ensures Unmoved(s.records, records, k)
      {
        assert Unmoved(s.records, t.records, k) && Unmoved(t.records, records, k);
      }
    }
  }

  ghost predicate OnlyNames(s: State, t: State) {
    t == s.(names := t.names, holders := t.holders)
  }

  lemma DeleteOnlyNames(s: State, nameLower: string)
    ensures OnlyNames(s, DeleteUsername(s, nameLower))
  {
  }

  lemma NamesKeepTheRest(ctx: Ctx, s: State, core: TxCore, bs: seq<Box>, height: int)
    ensures OnlyNames(s, ApplyNames(ctx, s, core, bs, height))
  {
    var claimed := if CountOf(core.outputs, IsUsername) == 0 then s
      else var i := UsernameIndex(core.outputs); var u := core.outputs[i];
        PutUsername(s, UsernameRow(ctx.canonicalName(u.name), u.name, u.owner, Out(core, i), height));
    assert OnlyNames(s, claimed);
    if CountOf(bs, IsUsername) > 0 {
      DeleteOnlyNames(claimed, ctx.canonicalName(FirstOf(bs, IsUsername).name));
    }
  }

  lemma SettleFrame(ctx: Ctx, t: State, acc: Acc, core: TxCore, bs: seq<Box>, height: int)
    requires bs != [] && (core.payload.Like? ==> core.payload.target in t.posts)
    ensures var r := Settle(ctx, t, acc, core, bs, height);
      && r.0.boxes == t.boxes && r.0.posts == t.posts && r.0.memberCount == t.memberCount
      && r.0.records == RecordsAfter(t.records, core, OwnerOf(bs[0]), height)
      && r.1 == acc.(likes := r.1.likes, memberLikes := r.1.memberLikes)
  {
    var owner := OwnerOf(bs[0]);
    var active := if core.payload.Post? then t.(records := AdvanceActivity(t.records, owner, height)) else t;
    var liked := if core.payload.Like? then active.(likes := active.likes + {(core.payload.target, owner)}) else active;
    NamesKeepTheRest(ctx, liked, core, bs, height);
  }

  lemma LikesStep(o: Origin, ctx: Ctx, t: State, acc: Acc, core: TxCore, bs: seq<Box>, height: int)
    requires bs != [] && (core.payload.Like? ==> core.payload.target in t.posts)
    requires MidLiked(o, acc) && t.posts == o.start.posts
    ensures MidLiked(o, Settle(ctx, t, acc, core, bs, height).1)
  {
    if core.payload.Like? {
      assert IsAuthor(o.start.posts, t.posts[core.payload.target].author);
    }
  }

  lemma TouchedStep(o: Origin, done: seq<TxCore>, s: State, acc: Acc, tx: Tx, bs: seq<Box>, records: Records)
    requires MidRecords(o, s) && MidTouched(o, s, acc) && AllMidRegistered(s.boxes, s.records, s.posts)
    requires InputsLive(s.boxes, tx.core.inputs) && bs == ValuesAt(s.boxes, tx.core.inputs) && bs != []
    requires VouchLawful(s, tx.core)
    requires forall k | SparesTarget(s.boxes, tx.core.inputs, k) && MakesNoneFor(tx.core.outputs, k) ::
      Unmoved(s.records, records, k)
    ensures MidTouched(o, s.(records := records), AccBefore(acc, s, tx, bs))
  {
    MidHasParties(s.boxes, s.records, s.posts);
    StaysCaptured(o, s, acc, tx.core, bs, records);
  }

  lemma InvitedStep(o: Origin, done: seq<TxCore>, s: State, acc: Acc, tx: Tx, bs: seq<Box>)
    requires MidRecords(o, s) && MidInvited(o, done, acc) && BondLawful(s, tx.core) && bs != []
    requires InviteeIsNew(acc, tx.core.outputs)
    ensures MidInvited(o, done + [tx.core], AccBefore(acc, s, tx, bs))
  {
    StaysInvited(o, done, s, acc, tx.core);
    assert AccBefore(acc, s, tx, bs).invited == InvitedAfter(acc, tx.core.outputs);
  }

  /** What a transaction that went through had. */
  lemma QueuedDone(ctx: Ctx, s: State, acc: Acc, tx: Tx, owed: Owed, height: int, next: (State, Acc))
    requires ApplyQueuedTx(ctx, s, owed, tx, height, acc) == Done(next)
    ensures InputsLive(s.boxes, tx.core.inputs) && tx.core.inputs != []
    ensures ValidateTx(ctx, s, owed, tx, height).Valid? && InviteeIsNew(acc, tx.core.outputs)
    ensures ApplyTx(s, acc.taken, tx.core).Some?
    ensures tx.core.payload.Like? ==> tx.core.payload.target in ApplyTx(s, acc.taken, tx.core).value.posts
    ensures var bs := ValuesAt(s.boxes, tx.core.inputs);
      next == Settle(ctx, ApplyTx(s, acc.taken, tx.core).value, AccBefore(acc, s, tx, bs), tx.core, bs, height)
  {
    AppliedKeepsPosts(s, acc.taken, tx.core);
  }

  /** A valid transaction in its turn. */
  lemma MidStep(
    ctx: Ctx, o: Origin, done: seq<TxCore>, s: State, acc: Acc, tx: Tx, owed: Owed, height: int, next: (State, Acc))
    requires Mid(o, done, s, acc) && Members(tx.core.inputs) <= o.inputs
    requires ApplyQueuedTx(ctx, s, owed, tx, height, acc) == Done(next)
    ensures Mid(o, done + [tx.core], next.0, next.1)
  {
    QueuedDone(ctx, s, acc, tx, owed, height, next);
    ValidIsLawful(ctx, s, owed, tx, height);
    LawfulStep(ctx, o, done, s, acc, tx, height, next);
  }

  lemma LawfulStep(ctx: Ctx, o: Origin, done: seq<TxCore>, s: State, acc: Acc, tx: Tx, height: int, next: (State, Acc))
    requires Mid(o, done, s, acc) && Members(tx.core.inputs) <= o.inputs
    requires InputsLawful(s, tx.core) && OutputsLawful(s, tx.core) && InviteeIsNew(acc, tx.core.outputs)
    requires ApplyTx(s, acc.taken, tx.core).Some?
    requires tx.core.payload.Like? ==> tx.core.payload.target in ApplyTx(s, acc.taken, tx.core).value.posts
    requires var bs := ValuesAt(s.boxes, tx.core.inputs);
      next == Settle(ctx, ApplyTx(s, acc.taken, tx.core).value, AccBefore(acc, s, tx, bs), tx.core, bs, height)
    ensures Mid(o, done + [tx.core], next.0, next.1)
  {
    var core := tx.core;
    var bs := ValuesAt(s.boxes, core.inputs);
    var t := ApplyTx(s, acc.taken, core).value;
    var before := AccBefore(acc, s, tx, bs);
    SettleFrame(ctx, t, before, core, bs, height);
    RecordsStep(o, done, s, acc, core, bs, height);
    LikesStep(o, ctx, t, before, core, bs, height);
    MovedStep(o, done, s, acc, tx, bs, t.boxes, next.0, next.1);
  }

  lemma MovedStep(
    o: Origin, done: seq<TxCore>, s: State, acc: Acc, tx: Tx, bs: seq<Box>, boxes: Boxes, u: State, after: Acc)
    requires Mid(o, done, s, acc) && Members(tx.core.inputs) <= o.inputs
    requires InputsLawful(s, tx.core) && OutputsLawful(s, tx.core) && InviteeIsNew(acc, tx.core.outputs)
    requires bs == ValuesAt(s.boxes, tx.core.inputs)
    requires boxes == AfterTx(s.boxes, tx.core) && u.boxes == boxes && u.posts == s.posts && u.memberCount
      == s.memberCount
    requires Aged(s.records, u.records) && VouchesCounted(boxes, u.records)
    requires PosterKnown(tx.core, o.start.records)
    requires forall k | SparesTarget(s.boxes, tx.core.inputs, k) && MakesNoneFor(tx.core.outputs, k) ::
      Unmoved(s.records, u.records, k)
    requires after == AccBefore(acc, s, tx, bs).(likes := after.likes, memberLikes := after.memberLikes)
    requires MidLiked(o, after)
    ensures Mid(o, done + [tx.core], u, after)
  {
    BoxesStep(o, done, s, acc, tx.core);
    CoresStep(o, done, s, tx.core);
    PeopleStep(o, done, s, acc, tx.core, u);
    AccountStep(o, done, s, acc, tx, bs, u, after);
  }

  lemma CoresStep(o: Origin, done: seq<TxCore>, s: State, core: TxCore)
    requires MidCores(o, done) && PosterKnown(core, o.start.records) && UnstakeLawful(core)
    ensures MidCores(o, done + [core])
  {
  }

  lemma PeopleStep(o: Origin, done: seq<TxCore>, s: State, acc: Acc, core: TxCore, u: State)
    requires Mid(o, done, s, acc) && InputsLawful(s, core) && OutputsLawful(s, core) && Members(core.inputs) <= o.inputs
    requires u.boxes == AfterTx(s.boxes, core) && u.posts == s.posts && u.memberCount == s.memberCount
    requires Aged(s.records, u.records) && VouchesCounted(u.boxes, u.records)
    ensures MidPeople(o, u)
  {
    IdentitiesStep(o, done, s, acc, core, u.records);
    AgedTransitive(o.start.records, s.records, u.records);
  }

  lemma AccountStep(o: Origin, done: seq<TxCore>, s: State, acc: Acc, tx: Tx, bs: seq<Box>, u: State, after: Acc)
    requires MidAccount(o, done, s, acc) && MidPeople(o, s)
    requires InputsLive(s.boxes, tx.core.inputs) && bs == ValuesAt(s.boxes, tx.core.inputs) && bs != []
    requires VouchLawful(s, tx.core) && BondLawful(s, tx.core) && InviteeIsNew(acc, tx.core.outputs)
    requires forall k | SparesTarget(s.boxes, tx.core.inputs, k) && MakesNoneFor(tx.core.outputs, k) ::
      Unmoved(s.records, u.records, k)
    requires after == AccBefore(acc, s, tx, bs).(likes := after.likes, memberLikes := after.memberLikes)
    requires MidLiked(o, after)
    ensures MidAccount(o, done + [tx.core], u, after)
  {
    TouchedStep(o, done, s, acc, tx, bs, u.records);
    InvitedStep(o, done, s, acc, tx, bs);
    var before := AccBefore(acc, s, tx, bs);
    SameTouched(o, s.(records := u.records), before, u, after);
    assert MidInvited(o, done + [tx.core], after) by {
      SameInvited(o, done + [tx.core], before, after);
    }
  }

  lemma SameTouched(o: Origin, s: State, before: Acc, u: State, after: Acc)
    requires MidTouched(o, s, before) && u.records == s.records && after.touched == before.touched && after.pre
      == before.pre
    ensures MidTouched(o, u, after)
  {
  }

  lemma SameInvited(o: Origin, done: seq<TxCore>, before: Acc, after: Acc)
    requires MidInvited(o, done, before) && after.invited == before.invited
    ensures MidInvited(o, done, after)
  {
  }

  // ---------------------------------------------------------------------------
  // No defect
  // ---------------------------------------------------------------------------

  /** Every karma input belongs to an owner the owed capture holds. */
  lemma InputsOwed(o: Origin, done: seq<TxCore>, s: State, acc: Acc, owed: Owed, core: TxCore, id: BoxId)
    requires Mid(o, done, s, acc) && Members(core.inputs) <= o.inputs
    requires TouchedOwners(o.start.boxes, o.inputs) <= owed.Keys
    requires id in core.inputs && id in s.boxes && s.boxes[id].Karma?
    ensures s.boxes[id].owner in owed
  {
    assert id in Members(core.inputs);
    assert Traced(o.start.boxes, done, s.boxes, id);
    assert id in o.start.boxes ==> s.boxes[id].owner in TouchedOwners(o.start.boxes, o.inputs);
  }

  lemma NoDefect(ctx: Ctx, o: Origin, done: seq<TxCore>, s: State, acc: Acc, owed: Owed, tx: Tx, height: int)
    requires Mid(o, done, s, acc) && Members(tx.core.inputs) <= o.inputs
    requires TouchedOwners(o.start.boxes, o.inputs) <= owed.Keys
    ensures !ValidateTx(ctx, s, owed, tx, height).Defect?
  {
    if ValidateTx(ctx, s, owed, tx, height).Defect? {
      DefectIsUnowed(ctx, s, owed, tx, height);
      var id :| id in tx.core.inputs && id in s.boxes && s.boxes[id].Karma? && s.boxes[id].owner !in owed;
      InputsOwed(o, done, s, acc, owed, tx.core, id);
    }
  }

  lemma NeverThrows(ctx: Ctx, o: Origin, done: seq<TxCore>, s: State, acc: Acc, owed: Owed, tx: Tx, height: int)
    requires Mid(o, done, s, acc) && Members(tx.core.inputs) <= o.inputs
    requires TouchedOwners(o.start.boxes, o.inputs) <= owed.Keys
    ensures !ApplyQueuedTx(ctx, s, owed, tx, height, acc).Thrown?
  {
    NoDefect(ctx, o, done, s, acc, owed, tx, height);
    if ValidateTx(ctx, s, owed, tx, height).Valid? {
      ValidIsLawful(ctx, s, owed, tx, height);
      LawfulApplies(o, done, s, acc, tx.core);
      ApplyTxEffect(s, acc.taken, tx.core);
    }
  }

  // ---------------------------------------------------------------------------
  // The whole body
  // ---------------------------------------------------------------------------

  /** What follows a transaction's own outcome. */
  ghost function Continue(
    ctx: Ctx, first: Outcome<(State, Acc)>, owed: Owed, rest: seq<Tx>, height: int): Outcome<(State, Acc)>
  {
    if first.Done? then ApplyQueue(ctx, first.value.0, owed, rest, height, first.value.1) else first
  }

  /** From any state in the middle of a block, the rest of the body refuses or keeps everything. */
  lemma {:induction false} QueueOutcome(
    ctx: Ctx, o: Origin, done: seq<TxCore>, s: State, acc: Acc, owed: Owed, queue: seq<Tx>, height: int)
    requires Mid(o, done, s, acc) && InputsOf(CoresOf(queue)) <= o.inputs
    requires TouchedOwners(o.start.boxes, o.inputs) <= owed.Keys
    ensures !ApplyQueue(ctx, s, owed, queue, height, acc).Thrown?
    ensures var out := ApplyQueue(ctx, s, owed, queue, height, acc);
      out.Done? ==> Mid(o, done + CoresOf(queue), out.value.0, out.value.1)
    decreases |queue|, 1
  {
    if queue == [] {
      assert done + CoresOf(queue) == done;
    } else {
      var tx := queue[0];
      assert CoresOf(queue) == [tx.core] + CoresOf(queue[1..]);
      assert InputsOf(CoresOf(queue)) == Members(tx.core.inputs) + InputsOf(CoresOf(queue[1..]));
      var first := QueueFirst(ctx, o, done, s, acc, tx, owed, height);
      RestOutcome(ctx, o, done + [tx.core], first, owed, queue[1..], height);
      assert done + [tx.core] + CoresOf(queue[1..]) == done + CoresOf(queue);
      assert ApplyQueue(ctx, s, owed, queue, height, acc) == Continue(ctx, first, owed, queue[1..], height);
    }
  }

  lemma QueueFirst(
    ctx: Ctx, o: Origin, done: seq<TxCore>, s: State, acc: Acc, tx: Tx, owed: Owed, height: int)
    returns (first: Outcome<(State, Acc)>)
    requires Mid(o, done, s, acc) && Members(tx.core.inputs) <= o.inputs
    requires TouchedOwners(o.start.boxes, o.inputs) <= owed.Keys
    ensures first == ApplyQueuedTx(ctx, s, owed, tx, height, acc)
    ensures !first.Thrown?
    ensures first.Done? ==> Mid(o, done + [tx.core], first.value.0, first.value.1)
  {
    NeverThrows(ctx, o, done, s, acc, owed, tx, height);
    first := ApplyQueuedTx(ctx, s, owed, tx, height, acc);
    if first.Done? {
      MidStep(ctx, o, done, s, acc, tx, owed, height, first.value);
    }
  }

  lemma {:induction false} RestOutcome(
    ctx: Ctx, o: Origin, done: seq<TxCore>, first: Outcome<(State, Acc)>, owed: Owed, rest: seq<Tx>, height: int)
    requires !first.Thrown? && (first.Done? ==> Mid(o, done, first.value.0, first.value.1))
    requires InputsOf(CoresOf(rest)) <= o.inputs
    requires TouchedOwners(o.start.boxes, o.inputs) <= owed.Keys
    ensures !Continue(ctx, first, owed, rest, height).Thrown?
    ensures var out := Continue(ctx, first, owed, rest, height);
      out.Done? ==> Mid(o, done + CoresOf(rest), out.value.0, out.value.1)
    decreases |rest|, 2
  {
    if first.Done? {
      QueueOutcome(ctx, o, done, first.value.0, first.value.1, owed, rest, height);
    }
  }

  lemma NothingTraced(boxes: Boxes, id: BoxId)
    ensures Traced(boxes, [], boxes, id)
  {
  }

  /** A block opens over a reachable state with nothing done. */
  lemma BodyOpens(ctx: Ctx, s: State, applied: set<TxCore>, inputs: set<BoxId>)
    requires BoxesOk(ctx, s) && VouchesCounted(s.boxes, s.records) && Historied(s.boxes, applied)
    ensures Mid(Origin(s, applied, inputs), [], s, EmptyAcc(s))
  {
    var o, acc := Origin(s, applied, inputs), EmptyAcc(s);
    assert applied + Members([]) == applied;
    forall id ensures Traced(s.boxes, [], s.boxes, id) {
      NothingTraced(s.boxes, id);
    }
    forall id | id in s.boxes ensures MidRegistered(s.boxes[id], s.records, s.posts) {
      assert Registered(s.boxes[id], s.records);
    }
    assert MidInvited(o, [], acc);
  }
}
