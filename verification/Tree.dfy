/** The authenticated tree as a map, and what it must hold for a state. */
module Tree {
  import opened Wrappers
  import opened Sums
  import opened Ledger
  import opened Engine
  import opened Applying
  import opened Invariant

  // ---------------------------------------------------------------------------
  // Keys and values
  // ---------------------------------------------------------------------------

  datatype TreeKey =
    | BoxKey(id: BoxId)
    | KarmaOfKey(owner: Key, id: BoxId)
    | CreditOfKey(owner: Key, id: BoxId)
    | EscrowOfKey(owner: Key, id: BoxId)
    | EscrowDueKey(releaseAt: nat, id: BoxId)
    | BondDueKey(invitedAt: int, id: BoxId)
    | VouchPairKey(voucher: Key, target: Key)
    | AccrualOfKey(author: Key, id: BoxId)
    | TypeKey(kind: nat, id: BoxId)
    | CastCountKey(voucher: Key)
    | LapsedKey(identity: Key)
    | IdentityKey(identity: Key)
    | NetworkKey
    | NameKey(name: string)
    | HolderKey(owner: Key)
    | PostKey(post: PostId)
    | LikeKey(post: PostId, liker: Key)

  datatype TreeValue =
    | BoxRecord(box: Box)
    | IndexMarker
    | PairValue(id: BoxId)
    | CastCount(count: nat)
    | IdentityValue(record: IdentityRecord)
    | NetworkValue(memberCount: int)
    | NameValue(boxId: BoxId, claimedAtBlock: int)
    | HolderValue(boxId: BoxId)
    | PostValue(author: Key, height: int, live: bool)
    | LikeMarker

  type AuthTree = map<TreeKey, TreeValue>

  // ---------------------------------------------------------------------------
  // The index entries of a box
  // ---------------------------------------------------------------------------

  /** The number a protocol type's entry is kept under. */
  function KindNumber(b: Box): nat {
    match b
    case Emission(_, _) => 0
    case Treasury(_, _) => 1
    case KarmaPool(_, _) => 2
    case BackerPool(_, _, _, _) => 3
    case _ => 4
  }

  /** The entries a box places beside its own key; a bond's is keyed by its invitee's grant height. */
  function IndexEntries(id: BoxId, b: Box, grantHeight: int): seq<(TreeKey, TreeValue)> {
    match b
    case Karma(_, _, owner, _) => [(KarmaOfKey(owner, id), IndexMarker)]
    case Credit(_, _, owner, _) => [(CreditOfKey(owner, id), IndexMarker)]
    case VouchEscrow(_, _, owner, releaseAt) => [(EscrowOfKey(owner, id), IndexMarker),
        (EscrowDueKey(releaseAt, id), IndexMarker)]
    case Bond(_, _, _, _) => [(BondDueKey(grantHeight, id), IndexMarker)]
    case Vouch(_, _, voucher, target) => [(VouchPairKey(voucher, target), PairValue(id))]
    case LikeAccrual(_, _, author) => [(AccrualOfKey(author, id), IndexMarker)]
    case Emission(_, _) => [(TypeKey(KindNumber(b), id), IndexMarker)]
    case Treasury(_, _) => [(TypeKey(KindNumber(b), id), IndexMarker)]
    case KarmaPool(_, _) => [(TypeKey(KindNumber(b), id), IndexMarker)]
    case BackerPool(_, _, _, _) => [(TypeKey(KindNumber(b), id), IndexMarker)]
    case _ => []
  }

  /** A box's own entry, and its index entries. */
  function Entries(id: BoxId, b: Box, grantHeight: int): seq<(TreeKey, TreeValue)> {
    [(BoxKey(id), BoxRecord(b))] + IndexEntries(id, b, grantHeight)
  }

  // ---------------------------------------------------------------------------
  // What the tree holds for a state
  // ---------------------------------------------------------------------------

  ghost function CastWeight(voucher: Key): Box -> int {
    (b: Box) => if b.Vouch? && b.voucherId == voucher then 1 else 0
  }

  ghost function CastsOf(boxes: Boxes, voucher: Key): int { MapSum(boxes, CastWeight(voucher)) }

  ghost predicate PairBox(boxes: Boxes, voucher: Key, target: Key, id: BoxId) {
    id in boxes && boxes[id].Vouch? && boxes[id].voucherId == voucher && boxes[id].targetId == target
  }

  ghost predicate HoldsLapsed(s: State, identity: Key) {
    identity in s.records && IsLapsedMember(s.records[identity]) && CastsOf(s.boxes, identity) > 0
  }

  predicate MarksBox(key: TreeKey, b: Box) {
    match key
    case KarmaOfKey(owner, _) => b.Karma? && b.owner == owner
    case CreditOfKey(owner, _) => b.Credit? && b.owner == owner
    case EscrowOfKey(owner, _) => b.VouchEscrow? && b.owner == owner
    case EscrowDueKey(releaseAt, _) => b.VouchEscrow? && b.releaseAtBlock == releaseAt
    case AccrualOfKey(author, _) => b.LikeAccrual? && b.author == author
    case TypeKey(kind, _) => Protocol(b) && KindNumber(b) == kind
    case _ => false
  }

  ghost predicate BondDueAt(s: State, invitedAt: int, id: BoxId) {
    id in s.boxes && s.boxes[id].Bond? && s.boxes[id].inviteePublicKey in s.records
    && s.records[s.boxes[id].inviteePublicKey].invitedAtBlock == invitedAt
  }

  function Marked(present: bool): Option<TreeValue> { if present then Some(IndexMarker) else None }

  /** The value a state gives a key, or none: every index is a function of the state. */
  ghost function TreeAt(s: State, key: TreeKey): Option<TreeValue> {
    match key
    case BoxKey(id) => if id in s.boxes then Some(BoxRecord(s.boxes[id])) else None
    case KarmaOfKey(_, id) => Marked(id in s.boxes && MarksBox(key, s.boxes[id]))
    case CreditOfKey(_, id) => Marked(id in s.boxes && MarksBox(key, s.boxes[id]))
    case EscrowOfKey(_, id) => Marked(id in s.boxes && MarksBox(key, s.boxes[id]))
    case EscrowDueKey(_, id) => Marked(id in s.boxes && MarksBox(key, s.boxes[id]))
    case AccrualOfKey(_, id) => Marked(id in s.boxes && MarksBox(key, s.boxes[id]))
    case TypeKey(_, id) => Marked(id in s.boxes && MarksBox(key, s.boxes[id]))
    case BondDueKey(invitedAt, id) => Marked(BondDueAt(s, invitedAt, id))
    case VouchPairKey(voucher, target) =>
      if exists id :: PairBox(s.boxes, voucher, target, id)
      then var id :| PairBox(s.boxes, voucher, target, id); Some(PairValue(id))
      else None
    case CastCountKey(voucher) =>
      var n := CastsOf(s.boxes, voucher);
      if n > 0 then Some(CastCount(n)) else None
    case LapsedKey(identity) => Marked(HoldsLapsed(s, identity))
    case IdentityKey(identity) => if identity in s.records then Some(IdentityValue(s.records[identity])) else None
    case NetworkKey => Some(NetworkValue(s.memberCount))
    case NameKey(name) =>
      if name in s.names then Some(NameValue(s.names[name].boxId, s.names[name].claimedAtBlock)) else None
    case HolderKey(owner) => if owner in s.holders then Some(HolderValue(s.holders[owner].boxId)) else None
    case PostKey(post) =>
      if post in s.posts then Some(PostValue(s.posts[post].author, s.posts[post].height, s.posts[post].live)) else None
    case LikeKey(target, liker) => if (target, liker) in s.likes then Some(LikeMarker) else None
  }

  ghost predicate HoldsAt(tree: AuthTree, s: State, key: TreeKey) {
    && (key in tree <==> TreeAt(s, key).Some?)
    && (key in tree ==> Some(tree[key]) == TreeAt(s, key))
  }

  /** The tree is the one the state decides. */
  ghost predicate Represents(tree: AuthTree, s: State) {
    forall key :: HoldsAt(tree, s, key)
  }

  // ---------------------------------------------------------------------------
  // Writes
  // ---------------------------------------------------------------------------

  datatype TreeWrite =
    | Remove(key: TreeKey)
    | Insert(key: TreeKey, value: TreeValue)
    | Update(key: TreeKey, value: TreeValue)
    | InsertOrUpdate(key: TreeKey, value: TreeValue)

  /** One operation on the tree; none where it does not apply. */
  function Perform(tree: AuthTree, w: TreeWrite): Option<AuthTree> {
    match w
    case Remove(key) => if key in tree then Some(tree - {key}) else None
    case Insert(key, value) => if key in tree then None else Some(tree[key := value])
    case Update(key, value) => if key in tree then Some(tree[key := value]) else None
    case InsertOrUpdate(key, value) => Some(tree[key := value])
  }

  function PerformAll(tree: AuthTree, ws: seq<TreeWrite>): Option<AuthTree>
    decreases |ws|
  {
    if ws == [] then Some(tree)
    else
      var next := Perform(tree, ws[0]);
      if next.None? then None else PerformAll(next.value, ws[1..])
  }

  /** A write that takes a key from what one state gives it to what another does. */
  predicate Right(w: TreeWrite, before: Option<TreeValue>, after: Option<TreeValue>) {
    match w
    case Remove(_) => before.Some? && after.None?
    case Insert(_, value) => before.None? && after == Some(value)
    case Update(_, value) => before.Some? && after == Some(value)
    case InsertOrUpdate(_, value) => after == Some(value)
  }

  ghost predicate KeysOnce(ws: seq<TreeWrite>) {
    forall i, j | 0 <= i < j < |ws| :: ws[i].key != ws[j].key
  }

  ghost predicate Writes(ws: seq<TreeWrite>, key: TreeKey) {
    exists w :: w in ws && w.key == key
  }

  /** A key the writes leave alone keeps its value. */
  ghost predicate Settled(s: State, u: State, ws: seq<TreeWrite>, key: TreeKey) {
    !Writes(ws, key) ==> TreeAt(u, key) == TreeAt(s, key)
  }

  /** No key twice, each write right, and nothing missed among the keys of `domain`. */
  ghost predicate Section(s: State, u: State, ws: seq<TreeWrite>, domain: TreeKey -> bool) {
    && KeysOnce(ws)
    && (forall w | w in ws :: domain(w.key) && Right(w, TreeAt(s, w.key), TreeAt(u, w.key)))
    && (forall key | domain(key) :: Settled(s, u, ws, key))
  }

  lemma JoinSections(s: State, u: State, a: seq<TreeWrite>, b: seq<TreeWrite>, p: TreeKey -> bool, q: TreeKey -> bool,
    r: TreeKey -> bool)
    requires Section(s, u, a, p) && Section(s, u, b, q)
    requires forall key :: !(p(key) && q(key)) && (r(key) <==> p(key) || q(key))
    ensures Section(s, u, a + b, r)
  {
    var c := a + b;
    forall i, j | 0 <= i < j < |c| ensures c[i].key != c[j].key {
      if i < |a| && j >= |a| {
        assert c[i] in a && c[j] in b && p(c[i].key) && q(c[j].key);
      }
    }
    forall key | r(key) ensures Settled(s, u, c, key) {
      if !Writes(c, key) {
        assert forall w | w in a || w in b :: w in c;
        assert Settled(s, u, a, key) && Settled(s, u, b, key);
      }
    }
  }

  // ---------------------------------------------------------------------------
  // Performing a section
  // ---------------------------------------------------------------------------

  /** The tree between two states: the written keys as they will be, the others as they were. */
  ghost predicate Between(tree: AuthTree, s: State, u: State, done: seq<TreeWrite>, key: TreeKey) {
    if Writes(done, key) then HoldsAt(tree, u, key) else HoldsAt(tree, s, key)
  }

  lemma PerformOne(tree: AuthTree, s: State, u: State, done: seq<TreeWrite>, w: TreeWrite)
    requires forall key :: Between(tree, s, u, done, key)
    requires !Writes(done, w.key) && Right(w, TreeAt(s, w.key), TreeAt(u, w.key))
    ensures Perform(tree, w).Some?
    ensures forall key :: Between(Perform(tree, w).value, s, u, done + [w], key)
  {
    assert Between(tree, s, u, done, w.key) && HoldsAt(tree, s, w.key);
    var next := Perform(tree, w).value;
    forall key ensures Between(next, s, u, done + [w], key) {
      assert Between(tree, s, u, done, key);
      WritesSnoc(done, w, key);
    }
  }

  lemma WritesSnoc(done: seq<TreeWrite>, w: TreeWrite, key: TreeKey)
    ensures Writes(done + [w], key) <==> Writes(done, key) || w.key == key
  {
    if Writes(done, key) {
      var x :| x in done && x.key == key;
      assert x in done + [w];
    }
    if w.key == key {
      assert w in done + [w];
    }
  }

  lemma {:induction false} PerformRest(tree: AuthTree, s: State, u: State, done: seq<TreeWrite>, rest: seq<TreeWrite>)
    requires forall key :: Between(tree, s, u, done, key)
    requires KeysOnce(done + rest)
    requires forall w | w in rest :: Right(w, TreeAt(s, w.key), TreeAt(u, w.key))
    ensures PerformAll(tree, rest).Some?
    ensures forall key :: Between(PerformAll(tree, rest).value, s, u, done + rest, key)
    decreases |rest|
  {
    if rest == [] {
      assert done + rest == done;
    } else {
      var w := rest[0];
      FreshKey(done, rest);
      PerformOne(tree, s, u, done, w);
      assert done + [w] + rest[1..] == done + rest;
      PerformRest(Perform(tree, w).value, s, u, done + [w], rest[1..]);
    }
  }

  lemma FreshKey(done: seq<TreeWrite>, rest: seq<TreeWrite>)
    requires rest != [] && KeysOnce(done + rest)
    ensures !Writes(done, rest[0].key)
  {
    var all := done + rest;
    forall w | w in done ensures w.key != rest[0].key {
      var i :| 0 <= i < |done| && done[i] == w;
      assert all[i] == w && all[|done|] == rest[0];
    }
  }

  /** Writes that together take every key to where the next state has it take the tree to the next state. */
  lemma PerformedRepresents(tree: AuthTree, s: State, u: State, ws: seq<TreeWrite>)
    requires Represents(tree, s) && Section(s, u, ws, _ => true)
    ensures PerformAll(tree, ws).Some? && Represents(PerformAll(tree, ws).value, u)
  {
    forall key ensures Between(tree, s, u, [], key) {
      assert HoldsAt(tree, s, key);
    }
    assert [] + ws == ws;
    PerformRest(tree, s, u, [], ws);
    var after := PerformAll(tree, ws).value;
    forall key ensures HoldsAt(after, u, key) {
      assert Between(after, s, u, ws, key);
      assert Settled(s, u, ws, key);
    }
  }
}
