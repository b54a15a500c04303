/** Applying a block's user transactions, one after another. */
module Body {
  import opened Wrappers
  import opened Sums
  import opened Ledger
  import opened Engine

  /** A rule's refusal rejects the block; a throw is a defect. */
  datatype Outcome<+T> = Done(value: T) | Rejected | Thrown

  // ---------------------------------------------------------------------------
  // applyTx
  // ---------------------------------------------------------------------------

  /** A vouch cast or withdrawn moves its target's count iff it counts. */
  ghost function AdjustVouchCount(records: Records, vouch: Box, delta: int): Option<Records>
    requires vouch.Vouch?
  {
    if vouch.voucherId !in records || vouch.targetId !in records then None
    else
      var target := records[vouch.targetId];
      if !IsVouchCounted(records[vouch.voucherId], target) then Some(records)
      else Some(records[vouch.targetId := target.(memberVouches := target.memberVouches + delta)])
  }

  ghost function ConsumeOne(s: State, id: BoxId): Option<State> {
    if id !in s.boxes then None
    else
      var records := if s.boxes[id].Vouch? then AdjustVouchCount(s.records, s.boxes[id], -1) else Some(s.records);
      if records.None? then None
      else Some(s.(boxes := s.boxes - {id}, records := records.value))
  }

  ghost function ConsumeAll(s: State, ids: seq<BoxId>): Option<State>
    decreases |ids|
  {
    if ids == [] then Some(s)
    else
      var next := ConsumeOne(s, ids[0]);
      if next.None? then None else ConsumeAll(next.value, ids[1..])
  }

  ghost function InsertOne(s: State, taken: set<BoxId>, id: BoxId, box: Box): Option<State> {
    if id in taken then None
    else
      var records :=
        if box.Vouch? then AdjustVouchCount(s.records, box, 1)
        else if box.Bond? && box.inviterId in s.records then
          Some(s.records[box.inviterId := s.records[box.inviterId].(invitesUsed := s.records[box.inviterId].invitesUsed
              + 1)])
        else Some(s.records);
      if records.None? then None
      else Some(s.(boxes := s.boxes[id := box], records := records.value))
  }

  /** The outputs from index `i` on. */
  ghost function InsertFrom(s: State, taken: set<BoxId>, core: TxCore, i: nat): Option<State>
    requires i <= |core.outputs|
    decreases |core.outputs| - i
  {
    if i == |core.outputs| then Some(s)
    else
      var id := Out(core, i);
      var next := InsertOne(s, taken, id, core.outputs[i]);
      if next.None? then None else InsertFrom(next.value, taken + {id}, core, i + 1)
  }

  /** `taken` holds the ids live before the block and those the block inserted. */
  ghost function ApplyTx(s: State, taken: set<BoxId>, core: TxCore): Option<State> {
    var consumed := ConsumeAll(s, core.inputs);
    if consumed.None? then None else InsertFrom(consumed.value, taken, core, 0)
  }

  function OutputIds(core: TxCore): set<BoxId> {
    set i | 0 <= i < |core.outputs| :: Out(core, i)
  }

  // ---------------------------------------------------------------------------
  // applyQueuedTx
  // ---------------------------------------------------------------------------

  /** What the per-transaction loop fills beside the state. */
  datatype Acc = Acc(
    taken: set<BoxId>,
    invited: map<Key, Key>,
    likes: map<Key, nat>,
    memberLikes: map<Key, nat>,
    touched: set<Key>,
    pre: map<Key, Option<IdentityRecord>>,
    rent: set<TxCore>,
    applied: seq<(Tx, Box)>)

  function EmptyAcc(s: State): Acc {
    Acc(s.boxes.Keys, map[], map[], map[], {}, map[], {}, [])
  }

  predicate IsCreditSideTx(core: TxCore) {
    core.outputs != [] && forall b | b in core.outputs :: b.Credit? || b.Fee?
  }

  function Bump(counts: map<Key, nat>, k: Key): map<Key, nat> {
    counts[k := (if k in counts then counts[k] else 0) + 1]
  }

  /** The targets of the vouches a transaction consumes and creates. */
  function VouchTargets(bs: seq<Box>, outputs: seq<Box>): set<Key> {
    (set b | b in bs && b.Vouch? :: b.targetId) + (set b | b in outputs && b.Vouch? :: b.targetId)
  }

  /** Each target's record as the block found it, captured the first time the body touches it. */
  ghost function CapturePre(pre: map<Key, Option<IdentityRecord>>, records: Records, targets: set<Key>)
    : map<Key, Option<IdentityRecord>>
  {
    pre + map t | t in targets && t !in pre :: RecordOf(records, t)
  }

  function AdvanceActivity(records: Records, owner: Key, height: int): Records {
    records[owner := RecordOrEmpty(records, owner).(lastActivityBlock := height)]
  }

  function PutUsername(s: State, row: UsernameRow): State {
    s.(names := s.names[row.nameLower := row], holders := s.holders[row.owner := row])
  }

  function DeleteUsername(s: State, nameLower: string): State {
    if nameLower !in s.names then s
    else s.(names := s.names - {nameLower}, holders := s.holders - {s.names[nameLower].owner})
  }

  /** The index of the first output that is a username. */
  function UsernameIndex(outputs: seq<Box>): (i: nat)
    requires CountOf(outputs, IsUsername) > 0
    ensures i < |outputs| && outputs[i].Username?
  {
    if outputs[0].Username? then 0 else 1 + UsernameIndex(outputs[1..])
  }

  /** The name records: a claim's put, a burn's removed. */
  ghost function ApplyNames(ctx: Ctx, s: State, core: TxCore, bs: seq<Box>, height: int): State {
    var claimed :=
      if CountOf(core.outputs, IsUsername) == 0 then s
      else
        var i := UsernameIndex(core.outputs);
        var u := core.outputs[i];
        PutUsername(s, UsernameRow(ctx.canonicalName(u.name), u.name, u.owner, Out(core, i), height));
    if CountOf(bs, IsUsername) == 0 then claimed
    else DeleteUsername(claimed, ctx.canonicalName(FirstOf(bs, IsUsername).name))
  }

  /** A like's checks beside the engine's: a live target, and no record yet. */
  ghost predicate LikeApplies(s: State, payload: Payload, liker: Key) {
    payload.Like? ==>
      && payload.target in s.posts && s.posts[payload.target].live
      && (payload.target, liker) !in s.likes
  }

  /** One invitee a block. */
  predicate InviteeIsNew(acc: Acc, outputs: seq<Box>) {
    CountOf(outputs, IsBond) > 0 ==> FirstOf(outputs, IsBond).inviteePublicKey !in acc.invited
  }

  /** The accumulator's part that is filled before the boxes move. */
  ghost function AccBefore(acc: Acc, s: State, tx: Tx, bs: seq<Box>): Acc
    requires bs != []
  {
    var core := tx.core;
    var targets := VouchTargets(bs, core.outputs);
    acc.(
      taken := acc.taken + OutputIds(core),
      invited :=
        if CountOf(core.outputs, IsBond) > 0
        then var bond := FirstOf(core.outputs, IsBond); acc.invited[bond.inviteePublicKey := bond.inviterId]
        else acc.invited,
      touched := acc.touched + targets,
      pre := CapturePre(acc.pre, s.records, targets),
      rent := if IsCreditSideTx(core) && tx.signatures == map[] then acc.rent + {core} else acc.rent,
      applied := acc.applied + [(tx, bs[0])])
  }

  /** The like counters: one more for the author, and one from a member where the liker is one. */
  function CountLike(acc: Acc, author: Key, liker: Option<IdentityRecord>): Acc {
    acc.(
      likes := Bump(acc.likes, author),
      memberLikes := if liker.Some? && IsMember(liker.value) then Bump(acc.memberLikes, author) else acc.memberLikes)
  }

  /** What follows the boxes: the activity clock, the like record, the names. */
  ghost function Settle(ctx: Ctx, s: State, acc: Acc, core: TxCore, bs: seq<Box>, height: int): (State, Acc)
    requires bs != []
    requires core.payload.Like? ==> core.payload.target in s.posts
  {
    var owner := OwnerOf(bs[0]);
    var active := if core.payload.Post? then s.(records := AdvanceActivity(s.records, owner, height)) else s;
    var liked := if core.payload.Like? then active.(likes := active.likes + {(core.payload.target, owner)}) else active;
    var counted :=
      if core.payload.Like? then CountLike(acc, s.posts[core.payload.target].author, RecordOf(liked.records, owner))
          else acc;
    (ApplyNames(ctx, liked, core, bs, height), counted)
  }

  ghost function ApplyQueuedTx(ctx: Ctx, s: State, owed: Owed, tx: Tx, height: int, acc: Acc): Outcome<(State, Acc)> {
    var core := tx.core;
    if !InputsLive(s.boxes, core.inputs) then Rejected
    else match ValidateTx(ctx, s, owed, tx, height)
      case Invalid => Rejected
      case Defect => Thrown
      case Valid =>
        var bs := ValuesAt(s.boxes, core.inputs);
        if !LikeApplies(s, core.payload, OwnerOf(bs[0])) || !InviteeIsNew(acc, core.outputs) then Rejected
        else
          var applied := ApplyTx(s, acc.taken, core);
          if applied.None? then Thrown
          else
            AppliedKeepsPosts(s, acc.taken, core);
            Done(Settle(ctx, applied.value, AccBefore(acc, s, tx, bs), core, bs, height))
  }

  /** The body, in committed order; it stops at the first refusal. */
  ghost function ApplyQueue(ctx: Ctx, s: State, owed: Owed, queue: seq<Tx>, height: int, acc: Acc): Outcome<(State,
    Acc)>
    decreases |queue|
  {
    if queue == [] then Done((s, acc))
    else match ApplyQueuedTx(ctx, s, owed, queue[0], height, acc)
      case Rejected => Rejected
      case Thrown => Thrown
      case Done(next) => ApplyQueue(ctx, next.0, owed, queue[1..], height, next.1)
  }

  // ---------------------------------------------------------------------------
  // What applyTx leaves alone
  // ---------------------------------------------------------------------------

  ghost predicate SameBeside(s: State, t: State) {
    s.memberCount == t.memberCount && s.names == t.names && s.holders == t.holders && s.posts == t.posts && s.likes
        == t.likes
  }

  lemma {:induction false} ConsumedBeside(s: State, ids: seq<BoxId>)
    ensures ConsumeAll(s, ids).Some? ==> SameBeside(s, ConsumeAll(s, ids).value)
    decreases |ids|
  {
    if ids != [] && ConsumeOne(s, ids[0]).Some? {
      ConsumedBeside(ConsumeOne(s, ids[0]).value, ids[1..]);
    }
  }

  lemma {:induction false} InsertedBeside(s: State, taken: set<BoxId>, core: TxCore, i: nat)
    requires i <= |core.outputs|
    ensures InsertFrom(s, taken, core, i).Some? ==> SameBeside(s, InsertFrom(s, taken, core, i).value)
    decreases |core.outputs| - i
  {
    if i < |core.outputs| {
      var id := Out(core, i);
      var next := InsertOne(s, taken, id, core.outputs[i]);
      if next.Some? {
        InsertedBeside(next.value, taken + {id}, core, i + 1);
      }
    }
  }

  lemma AppliedKeepsPosts(s: State, taken: set<BoxId>, core: TxCore)
    ensures ApplyTx(s, taken, core).Some? ==> SameBeside(s, ApplyTx(s, taken, core).value)
  {
    ConsumedBeside(s, core.inputs);
    if ConsumeAll(s, core.inputs).Some? {
      InsertedBeside(ConsumeAll(s, core.inputs).value, taken, core, 0);
    }
  }
}
