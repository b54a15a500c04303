/** A block's writes in the order it made them, and what they net to. */
module Effects {
  import opened Wrappers
  import opened Sums
  import opened Ledger

  datatype Mutation =
    | InsertedBox(id: BoxId, box: Box)
    | RemovedBox(id: BoxId)
    | PutRecord(identity: Key, record: IdentityRecord)
    | PutNetwork(memberCount: int)
    | PutName(name: string, row: Option<UsernameRow>, heldBefore: bool)
    | PutHolder(owner: Key, holder: Option<UsernameRow>, heldBefore: bool)

  datatype Effects = Effects(
    mutations: seq<Mutation>,
    posts: seq<(PostId, Key)>,
    likeRecords: seq<(PostId, Key)>,
    withdrawals: seq<PostId>)

  // ---------------------------------------------------------------------------
  // Playing mutations
  // ---------------------------------------------------------------------------

  function PutOrDrop<K, V>(m: map<K, V>, k: K, v: Option<V>): map<K, V> {
    if v.Some? then m[k := v.value] else m - {k}
  }

  function Play(s: State, m: Mutation): State {
    match m
    case InsertedBox(id, box) => s.(boxes := s.boxes[id := box])
    case RemovedBox(id) => s.(boxes := s.boxes - {id})
    case PutRecord(identity, record) => s.(records := s.records[identity := record])
    case PutNetwork(memberCount) => s.(memberCount := memberCount)
    case PutName(name, row, _) => s.(names := PutOrDrop(s.names, name, row))
    case PutHolder(owner, holder, _) => s.(holders := PutOrDrop(s.holders, owner, holder))
  }

  function PlayAll(s: State, ms: seq<Mutation>): State
    decreases |ms|
  {
    if ms == [] then s else Play(PlayAll(s, ms[..|ms| - 1]), ms[|ms| - 1])
  }

  /** What the overlay's backstops and its `heldBefore` promise of a mutation. */
  predicate Legal(start: State, now: State, m: Mutation) {
    match m
    case InsertedBox(id, _) => id !in start.boxes && id !in now.boxes
    case RemovedBox(id) => id in now.boxes
    case PutRecord(_, _) => true
    case PutNetwork(_) => true
    case PutName(name, _, heldBefore) => heldBefore == (name in now.names)
    case PutHolder(owner, _, heldBefore) => heldBefore == (owner in now.holders)
  }

  predicate AllLegal(start: State, ms: seq<Mutation>)
    decreases |ms|
  {
    ms == [] || (AllLegal(start, ms[..|ms| - 1]) && Legal(start, PlayAll(start, ms[..|ms| - 1]), ms[|ms| - 1]))
  }

  lemma PlayedSnoc(start: State, ms: seq<Mutation>, m: Mutation)
    ensures PlayAll(start, ms + [m]) == Play(PlayAll(start, ms), m)
    ensures AllLegal(start, ms + [m]) <==> AllLegal(start, ms) && Legal(start, PlayAll(start, ms), m)
  {
    var all := ms + [m];
    assert all[..|all| - 1] == ms;
  }

  lemma {:induction false} LegalPrefix(start: State, ms: seq<Mutation>, i: nat)
    requires AllLegal(start, ms) && i <= |ms|
    ensures AllLegal(start, ms[..i])
    decreases |ms|
  {
    if i < |ms| {
      var init := ms[..|ms| - 1];
      LegalPrefix(start, init, i);
      assert init[..i] == ms[..i];
    } else {
      assert ms[..i] == ms;
    }
  }

  lemma PrefixStep(start: State, ms: seq<Mutation>, i: nat)
    requires AllLegal(start, ms) && i < |ms|
    ensures Legal(start, PlayAll(start, ms[..i]), ms[i])
    ensures PlayAll(start, ms[..i + 1]) == Play(PlayAll(start, ms[..i]), ms[i])
  {
    LegalPrefix(start, ms, i + 1);
    assert ms[..i + 1] == ms[..i] + [ms[i]];
    PlayedSnoc(start, ms[..i], ms[i]);
  }

  // ---------------------------------------------------------------------------
  // Netting the boxes
  // ---------------------------------------------------------------------------

  /** The boxes in neither state's other: each id once. */
  ghost predicate Netted(before: Boxes, after: Boxes, created: map<BoxId, Box>, spent: seq<BoxId>) {
    && Distinct(spent)
    && (forall id :: id in spent <==> id in before && id !in after)
    && (forall id :: id in created <==> id in after && id !in before)
    && (forall id | id in created :: created[id] == after[id])
    && (forall id | id in before && id in after :: after[id] == before[id])
  }

  /** A box the block both inserted and removed nets out; the others are created or spent, once each. */
  method NetBoxes(ghost start: State, ms: seq<Mutation>) returns (created: map<BoxId, Box>, spent: seq<BoxId>)
    requires AllLegal(start, ms)
    ensures Netted(start.boxes, PlayAll(start, ms).boxes, created, spent)
  {
    created, spent := map[], [];
    assert ms[..0] == [];
    for i := 0 to |ms|
      invariant Netted(start.boxes, PlayAll(start, ms[..i]).boxes, created, spent)
    {
      PrefixStep(start, ms, i);
      ghost var before := PlayAll(start, ms[..i]).boxes;
      match ms[i]
      case InsertedBox(id, box) =>
        NetInsert(start.boxes, before, created, spent, id, box);
        created := created[id := box];
      case RemovedBox(id) =>
        if id in created {
          NetCancel(start.boxes, before, created, spent, id);
          created := created - {id};
        } else {
          NetSpend(start.boxes, before, created, spent, id);
          spent := spent + [id];
        }
      case _ =>
    }
    assert ms[..|ms|] == ms;
  }

  lemma NetInsert(start: Boxes, now: Boxes, created: map<BoxId, Box>, spent: seq<BoxId>, id: BoxId, box: Box)
    requires Netted(start, now, created, spent) && id !in start && id !in now
    ensures Netted(start, now[id := box], created[id := box], spent)
  {
  }

  lemma NetCancel(start: Boxes, now: Boxes, created: map<BoxId, Box>, spent: seq<BoxId>, id: BoxId)
    requires Netted(start, now, created, spent) && id in created
    ensures Netted(start, now - {id}, created - {id}, spent)
  {
  }

  lemma NetSpend(start: Boxes, now: Boxes, created: map<BoxId, Box>, spent: seq<BoxId>, id: BoxId)
    requires Netted(start, now, created, spent) && id in now && id !in created
    ensures Netted(start, now - {id}, created, spent + [id])
  {
    assert id !in spent;
    assert spent + [id] == spent + [id];
    forall j ensures j in spent + [id] <==> j in start && j !in now - {id} {
      assert j in spent + [id] <==> j in spent || j == id;
    }
  }

  // ---------------------------------------------------------------------------
  // The last write to each key
  // ---------------------------------------------------------------------------

  /** Records, the network, names and holders: what the mutations leave written. */
  datatype Last = Last(
    records: map<Key, IdentityRecord>,
    network: Option<int>,
    names: map<string, (bool, Option<UsernameRow>)>,
    holders: map<Key, (bool, Option<UsernameRow>)>)

  ghost predicate Written<K(!new), V(!new)>(before: map<K, V>, after: map<K, V>, last: map<K, (bool, Option<V>)>) {
    && (forall k | k in last :: last[k].0 == (k in before))
    && (forall k | k in last :: (k in after <==> last[k].1.Some?) && (k in after ==> Some(after[k]) == last[k].1))
    && (forall k | k !in last :: (k in after <==> k in before) && (k in after ==> after[k] == before[k]))
  }

  ghost predicate LastOf(start: State, now: State, last: Last) {
    && now.records == start.records + last.records
    && (last.network.Some? ==> now.memberCount == last.network.value)
    && (last.network.None? ==> now.memberCount == start.memberCount)
    && Written(start.names, now.names, last.names)
    && Written(start.holders, now.holders, last.holders)
  }

  function Relay<K, V>(last: map<K, (bool, Option<V>)>, k: K, heldBefore: bool, v: Option<V>): map<K,
    (bool, Option<V>)> {
    last[k := (if k in last then last[k].0 else heldBefore, v)]
  }

  lemma RelayWritten<K(!new), V(!new)>(before: map<K, V>, now: map<K, V>, last: map<K, (bool, Option<V>)>, k: K,
    heldBefore: bool, v: Option<V>)
    requires Written(before, now, last) && heldBefore == (k in now)
    ensures Written(before, PutOrDrop(now, k, v), Relay(last, k, heldBefore, v))
  {
  }

  lemma RecordWritten(start: State, now: State, last: Last, identity: Key, record: IdentityRecord)
    requires LastOf(start, now, last)
    ensures LastOf(start, Play(now, PutRecord(identity, record)), last.(records := last.records[identity := record]))
  {
    assert now.records[identity := record] == start.records + last.records[identity := record];
  }

  lemma NameWritten(start: State, now: State, last: Last, name: string, row: Option<UsernameRow>, heldBefore: bool)
    requires LastOf(start, now, last) && heldBefore == (name in now.names)
    ensures LastOf(start, Play(now, PutName(name, row, heldBefore)),
      last.(names := Relay(last.names, name, heldBefore, row)))
  {
    RelayWritten(start.names, now.names, last.names, name, heldBefore, row);
  }

  lemma HolderWritten(start: State, now: State, last: Last, owner: Key, holder: Option<UsernameRow>, heldBefore: bool)
    requires LastOf(start, now, last) && heldBefore == (owner in now.holders)
    ensures LastOf(start, Play(now, PutHolder(owner, holder, heldBefore)),
      last.(holders := Relay(last.holders, owner, heldBefore, holder)))
  {
    RelayWritten(start.holders, now.holders, last.holders, owner, heldBefore, holder);
  }

  lemma BoxesWriteNothingElse(start: State, now: State, last: Last, m: Mutation)
    requires LastOf(start, now, last) && (m.InsertedBox? || m.RemovedBox?)
    ensures LastOf(start, Play(now, m), last)
  {
  }

  /** The last write wins, and the first one says whether the key stood before the block. */
  method LastWrites(ghost start: State, ms: seq<Mutation>) returns (last: Last)
    requires AllLegal(start, ms)
    ensures LastOf(start, PlayAll(start, ms), last)
  {
    last := Last(map[], None, map[], map[]);
    assert ms[..0] == [] && start.records + last.records == start.records;
    for i := 0 to |ms|
      invariant LastOf(start, PlayAll(start, ms[..i]), last)
    {
      PrefixStep(start, ms, i);
      ghost var now := PlayAll(start, ms[..i]);
      match ms[i]
      case PutRecord(identity, record) =>
        RecordWritten(start, now, last, identity, record);
        last := last.(records := last.records[identity := record]);
      case PutNetwork(memberCount) =>
        last := last.(network := Some(memberCount));
      case PutName(name, row, heldBefore) =>
        NameWritten(start, now, last, name, row, heldBefore);
        last := last.(names := Relay(last.names, name, heldBefore, row));
      case PutHolder(owner, holder, heldBefore) =>
        HolderWritten(start, now, last, owner, holder, heldBefore);
        last := last.(holders := Relay(last.holders, owner, heldBefore, holder));
      case InsertedBox(_, _) => BoxesWriteNothingElse(start, now, last, ms[i]);
      case RemovedBox(_) => BoxesWriteNothingElse(start, now, last, ms[i]);
    }
    assert ms[..|ms|] == ms;
  }
}
