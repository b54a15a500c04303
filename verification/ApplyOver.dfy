/** Block application over the overlay, step by step as the rules order it. */
module ApplyOver {
  import opened Wrappers
  import opened Sums
  import opened Orders
  import opened Sorting
  import opened Ledger
  import opened Engine
  import opened Body
  import opened Coinbase
  import opened Decay
  import opened Settlement
  import opened Blocks
  import opened Overlays

  // ---------------------------------------------------------------------------
  // applyTx
  // ---------------------------------------------------------------------------

  /** A vouch cast or withdrawn moves its target's count iff it counts. False: a record is missing. */
  method AdjustCount(state: BlockOverlay, vouch: Box, delta: int) returns (ok: bool)
    requires state.Valid() && vouch.Vouch?
    modifies state`records, state`mutations
    ensures state.Valid() && state.Kept()
    ensures ok <==> AdjustVouchCount(old(state.Now()).records, vouch, delta).Some?
    ensures ok ==>
      state.Now() == old(state.Now()).(records := AdjustVouchCount(old(state.Now()).records, vouch, delta).value)
    ensures !ok ==> state.Now() == old(state.Now())
  {
    var voucher := state.GetIdentityRecord(vouch.voucherId);
    var target := state.GetIdentityRecord(vouch.targetId);
    ok := voucher.Some? && target.Some?;
    if ok && IsVouchCounted(voucher.value, target.value) {
      state.PutIdentityRecord(vouch.targetId, target.value.(memberVouches := target.value.memberVouches + delta));
    }
  }

  method ConsumeInput(state: BlockOverlay, id: BoxId) returns (ok: bool)
    requires state.Valid()
    modifies state`records, state`mutations, state`spent
    ensures state.Valid() && state.Kept()
    ensures ok <==> ConsumeOne(old(state.Now()), id).Some?
    ensures ok ==> state.Now() == ConsumeOne(old(state.Now()), id).value
  {
    var box := state.GetBox(id);
    ok := box.Some?;
    if ok && box.value.Vouch? {
      ok := AdjustCount(state, box.value, -1);
    }
    if ok {
      ok := state.ConsumeBox(id);
    }
  }

  /** A bond counts against its inviter's invites. */
  method CountInvite(state: BlockOverlay, inviter: Key)
    requires state.Valid()
    modifies state`records, state`mutations
    ensures state.Valid() && state.Kept()
    ensures inviter !in old(state.Now()).records ==> state.Now() == old(state.Now())
    ensures inviter in old(state.Now()).records ==>
      state.Now() == old(state.Now()).(records := old(state.Now()).records[inviter :=
      old(state.Now()).records[inviter].(invitesUsed := old(state.Now()).records[inviter].invitesUsed + 1)])
  {
    var record := state.GetIdentityRecord(inviter);
    if record.Some? {
      state.PutIdentityRecord(inviter, record.value.(invitesUsed := record.value.invitesUsed + 1));
    }
  }

  /** The counts an output moves, once it is in. */
  method CountOutput(state: BlockOverlay, ghost before: State, ghost taken: set<BoxId>, id: BoxId,
    box: Box) returns (ok: bool)
    requires state.Valid() && id !in taken
    requires state.Now() == before.(boxes := before.boxes[id := box])
    modifies state`records, state`mutations
    ensures state.Valid() && state.Kept()
    ensures ok <==> InsertOne(before, taken, id, box).Some?
    ensures ok ==> state.Now() == InsertOne(before, taken, id, box).value
  {
    ok := true;
    if box.Vouch? {
      ok := AdjustCount(state, box, 1);
    } else if box.Bond? {
      CountInvite(state, box.inviterId);
    }
  }

  method InsertOutput(state: BlockOverlay, id: BoxId, box: Box) returns (ok: bool)
    requires state.Valid()
    modifies state`records, state`mutations, state`inserted
    ensures state.Valid() && state.Kept()
    ensures ok <==> InsertOne(old(state.Now()), old(state.Taken()), id, box).Some?
    ensures ok ==> state.Now() == InsertOne(old(state.Now()), old(state.Taken()), id, box).value
    ensures ok ==> state.Taken() == old(state.Taken()) + {id} && state.inserted == old(state.inserted)[id := box]
  {
    ghost var before := state.Now();
    ghost var taken := state.Taken();
    ok := state.InsertBox(id, box);
    if ok {
      ok := CountOutput(state, before, taken, id, box);
    }
  }

  method ConsumeInputs(state: BlockOverlay, ids: seq<BoxId>) returns (ok: bool)
    requires state.Valid()
    modifies state`records, state`mutations, state`spent
    ensures state.Valid() && state.Kept()
    ensures ok <==> ConsumeAll(old(state.Now()), ids).Some?
    ensures ok ==> state.Now() == ConsumeAll(old(state.Now()), ids).value
  {
    ok := true;
    for i := 0 to |ids|
      invariant state.Valid() && state.Kept() && ok
      invariant ConsumeAll(state.Now(), ids[i..]) == ConsumeAll(old(state.Now()), ids)
    {
      assert ids[i..][0] == ids[i] && ids[i..][1..] == ids[i + 1..];
      ok := ConsumeInput(state, ids[i]);
      if !ok {
        return;
      }
    }
  }

  ghost function IdsBefore(core: TxCore, i: nat): set<BoxId> {
    set j | 0 <= j < i :: Out(core, j)
  }

  /** Every inserted box is its transaction's output. */
  ghost predicate OwnOutputs(state: BlockOverlay)
    reads state
  {
    forall id | id in state.inserted ::
      id.Out? && id.index < |id.creator.outputs| && state.inserted[id] == id.creator.outputs[id.index]
  }

  lemma OneMoreId(core: TxCore, i: nat)
    ensures IdsBefore(core, i + 1) == IdsBefore(core, i) + {Out(core, i)}
  {
    forall id ensures id in IdsBefore(core, i + 1) <==> id in IdsBefore(core, i) + {Out(core, i)} {
    }
  }

  method InsertIndexed(state: BlockOverlay, core: TxCore, i: nat) returns (ok: bool)
    requires state.Valid() && i < |core.outputs|
    modifies state`records, state`mutations, state`inserted
    ensures state.Valid() && state.Kept()
    ensures InsertFrom(old(state.Now()), old(state.Taken()), core, i)
      == if ok then InsertFrom(state.Now(), state.Taken(), core, i + 1) else None
    ensures ok ==> state.Taken() == old(state.Taken()) + {Out(core, i)}
    ensures ok && old(OwnOutputs(state)) ==> OwnOutputs(state)
  {
    ok := InsertOutput(state, Out(core, i), core.outputs[i]);
  }

  method InsertOutputs(state: BlockOverlay, core: TxCore) returns (ok: bool)
    requires state.Valid()
    modifies state`records, state`mutations, state`inserted
    ensures state.Valid() && state.Kept()
    ensures ok <==> InsertFrom(old(state.Now()), old(state.Taken()), core, 0).Some?
    ensures ok ==> state.Now() == InsertFrom(old(state.Now()), old(state.Taken()), core, 0).value
    ensures ok ==> state.Taken() == old(state.Taken()) + OutputIds(core)
    ensures ok && old(OwnOutputs(state)) ==> OwnOutputs(state)
  {
    ghost var start, taken := state.Now(), state.Taken();
    ok := true;
    assert taken + IdsBefore(core, 0) == taken;
    for i := 0 to |core.outputs|
      invariant state.Valid() && state.Kept() && ok
      invariant state.Taken() == taken + IdsBefore(core, i)
      invariant old(OwnOutputs(state)) ==> OwnOutputs(state)
      invariant InsertFrom(state.Now(), state.Taken(), core, i) == InsertFrom(start, taken, core, 0)
    {
      OneMoreId(core, i);
      ok := InsertIndexed(state, core, i);
      if !ok {
        return;
      }
    }
    assert IdsBefore(core, |core.outputs|) == OutputIds(core);
  }

  /** Inputs out, outputs in, the counts with them: the specification's step, or a defect where it is none. */
  method ApplyTransaction(state: BlockOverlay, core: TxCore) returns (ok: bool)
    requires state.Valid()
    modifies state`records, state`mutations, state`spent, state`inserted
    ensures state.Valid() && state.Kept()
    ensures ok <==> ApplyTx(old(state.Now()), old(state.Taken()), core).Some?
    ensures ok ==> state.Now() == ApplyTx(old(state.Now()), old(state.Taken()), core).value
    ensures ok ==> state.Taken() == old(state.Taken()) + OutputIds(core)
    ensures ok && old(OwnOutputs(state)) ==> OwnOutputs(state)
  {
    ok := ConsumeInputs(state, core.inputs);
    if ok {
      ok := InsertOutputs(state, core);
    }
  }

  // ---------------------------------------------------------------------------
  // After a transaction's boxes
  // ---------------------------------------------------------------------------

  method AdvanceActivityClock(state: BlockOverlay, owner: Key, height: int)
    requires state.Valid()
    modifies state`records, state`mutations
    ensures state.Valid() && state.Kept()
    ensures state.Now() == old(state.Now()).(records := AdvanceActivity(old(state.Now()).records, owner, height))
  {
    var existing := state.GetIdentityRecord(owner);
    var base := if existing.Some? then existing.value else EMPTY_IDENTITY_RECORD;
    state.PutIdentityRecord(owner, base.(lastActivityBlock := height));
  }

  // ---------------------------------------------------------------------------
  // Grants
  // ---------------------------------------------------------------------------

  /** One grant; none where the inviter holds no record. */
  method GrantOne(state: BlockOverlay, acc: Acc, invitee: Key, height: nat) returns (out: Option<Acc>)
    requires state.Valid() && invitee in acc.invited
    modifies state`records, state`mutations
    ensures state.Valid() && state.Kept()
    ensures out.Some? <==> Grant(old(state.Now()).records, acc, invitee, height).Some?
    ensures out.Some? ==>
      var g := Grant(old(state.Now()).records, acc, invitee, height).value;
      out.value == g.1 && state.Now() == old(state.Now()).(records := g.0)
  {
    var inviter := state.GetIdentityRecord(acc.invited[invitee]);
    if inviter.None? {
      return None;
    }
    var existing := state.GetIdentityRecord(invitee);
    state.PutIdentityRecord(invitee, Granted(existing, IsRoot(inviter.value), height));
    out := Some(acc.(pre := acc.pre[invitee := None], touched := acc.touched + {invitee}));
  }

  /** Each invitee's record: a member from this block where a root invited, a resident otherwise. */
  method GrantStep(state: BlockOverlay, acc: Acc, height: nat) returns (out: Option<Acc>)
    requires state.Valid()
    modifies state`records, state`mutations
    ensures state.Valid() && state.Kept()
    ensures out.Some? <==> GrantAll(old(state.Now()).records, acc, height).Some?
    ensures out.Some? ==>
      var g := GrantAll(old(state.Now()).records, acc, height).value;
      out.value == g.1 && state.Now() == old(state.Now()).(records := g.0)
  {
    var invitees := SortedKeys(acc.invited.Keys);
    AscendingLists(acc.invited.Keys);
    forall k | k in invitees ensures k in acc.invited {
      assert k in Members(invitees);
    }
    var now := acc;
    for i := 0 to |invitees|
      invariant state.Valid() && state.Kept() && now.invited == acc.invited
      invariant state.Now() == old(state.Now()).(records := state.Now().records)
      invariant GrantEach(state.Now().records, now, invitees[i..], height)
        == GrantEach(old(state.Now()).records, acc, invitees, height)
    {
      assert invitees[i..][0] == invitees[i] && invitees[i..][1..] == invitees[i + 1..];
      var next := GrantOne(state, now, invitees[i], height);
      if next.None? {
        return None;
      }
      now := next.value;
    }
    out := Some(now);
  }

  // ---------------------------------------------------------------------------
  // Counters, the pass and the clocks
  // ---------------------------------------------------------------------------

  /** The like counters only ever add. */
  method CreditStep(state: BlockOverlay, acc: Acc)
    requires state.Valid()
    modifies state`records, state`mutations
    ensures state.Valid() && state.Kept()
    ensures state.Now() == old(state.Now()).(records := CreditAll(old(state.Now()).records, acc))
  {
    var authors := SortedKeys(acc.likes.Keys);
    for i := 0 to |authors|
      invariant state.Valid() && state.Kept()
      invariant state.Now() == old(state.Now()).(records := state.Now().records)
      invariant CreditEach(state.Now().records, acc, authors[i..]) == CreditEach(old(state.Now()).records, acc, authors)
    {
      assert authors[i..][0] == authors[i] && authors[i..][1..] == authors[i + 1..];
      CreditOne(state, acc, authors[i]);
    }
  }

  method CreditOne(state: BlockOverlay, acc: Acc, author: Key)
    requires state.Valid()
    modifies state`records, state`mutations
    ensures state.Valid() && state.Kept()
    ensures state.Now() == old(state.Now()).(records := CreditLikes(old(state.Now()).records, acc, author))
  {
    var existing := state.GetIdentityRecord(author);
    var base := if existing.Some? then existing.value else EMPTY_IDENTITY_RECORD;
    state.PutIdentityRecord(author, base.(
      lifetimeLikesReceived := base.lifetimeLikesReceived + CountAt(acc.likes, author),
      memberLikes := base.memberLikes + CountAt(acc.memberLikes, author)));
  }

  /** The four cases over the touched identities, and the count written once where it moved. */
  method MembershipStep(state: BlockOverlay, ctx: Ctx, acc: Acc, height: nat)
    requires state.Valid()
    modifies state`records, state`network, state`mutations
    ensures state.Valid() && state.Kept()
    ensures var passed := MembershipPass(ctx, old(state.Now()).records, old(state.Now()).memberCount, acc, height);
      state.Now() == old(state.Now()).(records := passed.0, memberCount := passed.1)
  {
    var n := state.GetNetworkRecord();
    var bars := BarsOf(ctx, n);
    var ids := SortedKeys(acc.touched + acc.memberLikes.Keys);
    var newN := n;
    for i := 0 to |ids|
      invariant state.Valid() && state.Kept()
      invariant state.Now() == old(state.Now()).(records := state.Now().records)
      invariant PassEach(state.Now().records, newN, acc.pre, bars, ids[i..], height)
        == PassEach(old(state.Now()).records, n, acc.pre, bars, ids, height)
    {
      var id := ids[i];
      assert ids[i..][0] == id && ids[i..][1..] == ids[i + 1..];
      var before := if id in acc.pre then acc.pre[id] else state.GetIdentityRecord(id);
      var found := state.GetIdentityRecord(id);
      if found.Some? {
        var current := found.value;
        var wasMember := before.Some? && IsMember(before.value);
        if current.memberSinceBlock == 0 && current.memberVouches >= bars.vouches && current.memberLikes >= bars.likes {
          state.PutIdentityRecord(id, current.(memberSinceBlock := height, memberBar := bars.vouches));
          newN := newN + 1;
        } else if current.memberSinceBlock > 0 && current.memberBar > 0 {
          var isMemberNow := current.memberVouches >= current.memberBar;
          if wasMember && !isMemberNow {
            newN := newN - 1;
          } else if !wasMember && isMemberNow {
            newN := newN + 1;
          }
        } else if current.memberSinceBlock > 0 && current.memberBar == 0 && !wasMember {
          newN := newN + 1;
        }
      }
    }
    if newN != n {
      state.PutNetworkRecord(newN);
    }
  }

  method ClockStep(state: BlockOverlay, plans: seq<Plan>)
    requires state.Valid()
    modifies state`records, state`mutations
    ensures state.Valid() && state.Kept()
    ensures state.Now() == old(state.Now()).(records := CommitClocks(old(state.Now()).records, plans))
  {
    for i := 0 to |plans|
      invariant state.Valid() && state.Kept()
      invariant state.Now() == old(state.Now()).(records := state.Now().records)
      invariant CommitClocks(state.Now().records, plans[i..]) == CommitClocks(old(state.Now()).records, plans)
    {
      assert plans[i..][0] == plans[i] && plans[i..][1..] == plans[i + 1..];
      var existing := state.GetIdentityRecord(plans[i].owner);
      var base := if existing.Some? then existing.value else EMPTY_IDENTITY_RECORD;
      state.PutIdentityRecord(plans[i].owner, base.(lastDecayBlock := plans[i].settledThrough));
    }
  }

  /** Everything after the settlement's boxes: grants, counters, the pass, the clocks. False: a defect. */
  method Close(state: BlockOverlay, ctx: Ctx, acc: Acc, plans: seq<Plan>, height: nat) returns (ok: bool)
    requires state.Valid()
    modifies state`records, state`network, state`mutations
    ensures state.Valid() && state.Kept()
    ensures CloseBlock(ctx, old(state.Now()), acc, plans, height) == if ok then Done(state.Now()) else Thrown
  {
    ghost var start := state.Now();
    var granted := GrantStep(state, acc, height);
    if granted.None? {
      return false;
    }
    CreditStep(state, granted.value);
    MembershipStep(state, ctx, granted.value, height);
    ClockStep(state, plans);
    ok := true;
  }
}
