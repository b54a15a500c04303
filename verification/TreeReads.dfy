/** The view's range reads over a tree that represents a state: each answers the state's own query. */
module TreeReads {
  import opened Wrappers
  import opened Sums
  import opened Orders
  import opened Sorting
  import opened Ledger
  import opened Engine
  import opened Coinbase
  import opened Queries
  import opened StateReads
  import opened Invariant
  import opened Tree
  import opened TreeViews

  // ---------------------------------------------------------------------------
  // The key layout
  // ---------------------------------------------------------------------------

  /** The keys that share a prefix. */
  datatype Family =
    | KarmaFamily(owner: Key)
    | CreditFamily(owner: Key)
    | AccrualFamily(author: Key)
    | EscrowFamily(owner: Key)
    | TypeFamily(kind: nat)
    | EscrowDueFamily
    | BondDueFamily
    | PairFamily(voucher: Key)
    | LapsedFamily

  predicate InFamily(f: Family, key: TreeKey) {
    match f
    case KarmaFamily(owner) => key.KarmaOfKey? && key.owner == owner
    case CreditFamily(owner) => key.CreditOfKey? && key.owner == owner
    case AccrualFamily(author) => key.AccrualOfKey? && key.author == author
    case EscrowFamily(owner) => key.EscrowOfKey? && key.owner == owner
    case TypeFamily(kind) => key.TypeKey? && key.kind == kind
    case EscrowDueFamily => key.EscrowDueKey?
    case BondDueFamily => key.BondDueKey?
    case PairFamily(voucher) => key.VouchPairKey? && key.voucher == voucher
    case LapsedFamily => key.LapsedKey?
  }

  /** What follows the prefix: a height and an id, an id, a target, or an identity. */
  function PlaceOf(ctx: Ctx, key: TreeKey): (int, int) {
    match key
    case KarmaOfKey(_, id) => (0, ctx.rank(id))
    case CreditOfKey(_, id) => (0, ctx.rank(id))
    case AccrualOfKey(_, id) => (0, ctx.rank(id))
    case EscrowOfKey(_, id) => (0, ctx.rank(id))
    case TypeKey(_, id) => (0, ctx.rank(id))
    case EscrowDueKey(releaseAt, id) => (releaseAt, ctx.rank(id))
    case BondDueKey(invitedAt, id) => (invitedAt, ctx.rank(id))
    case VouchPairKey(voucher, target) => (voucher, target)
    case LapsedKey(identity) => (identity, 0)
    case _ => (0, 0)
  }

  function IdIn(key: TreeKey): Option<BoxId> {
    match key
    case KarmaOfKey(_, id) => Some(id)
    case CreditOfKey(_, id) => Some(id)
    case AccrualOfKey(_, id) => Some(id)
    case EscrowOfKey(_, id) => Some(id)
    case TypeKey(_, id) => Some(id)
    case EscrowDueKey(_, id) => Some(id)
    case BondDueKey(_, id) => Some(id)
    case _ => None
  }

  function HeightIn(key: TreeKey): int {
    match key
    case EscrowDueKey(releaseAt, _) => releaseAt
    case BondDueKey(invitedAt, _) => invitedAt
    case _ => 0
  }

  /** How keys whose fields fit their widths are laid out as fixed-length bytes, and read back. */
  datatype Layout = Layout(
    top: nat,
    fits: TreeKey -> bool,
    enc: TreeKey -> LeafKey,
    rangeOf: Family -> Range,
    idOf: LeafKey -> BoxId,
    heightOf: LeafKey -> int,
    identityOf: LeafKey -> Key)

  ghost predicate LaysKey(l: Layout, key: TreeKey) {
    l.fits(key) ==>
      && 0 < l.enc(key) < l.top
      && (IdIn(key).Some? ==> l.idOf(l.enc(key)) == IdIn(key).value && l.fits(BoxKey(IdIn(key).value)))
      && l.heightOf(l.enc(key)) == HeightIn(key)
      && (key.LapsedKey? ==> l.identityOf(l.enc(key)) == key.identity)
  }

  ghost predicate LaysPair(ctx: Ctx, l: Layout, j: TreeKey, k: TreeKey) {
    l.fits(j) && l.fits(k) ==>
      && (l.enc(j) == l.enc(k) ==> j == k)
      && forall f | InFamily(f, j) && InFamily(f, k) ::
           l.enc(j) <= l.enc(k) ==>
             PlaceOf(ctx, j).0 < PlaceOf(ctx, k).0 || (PlaceOf(ctx, j).0 == PlaceOf(ctx, k).0
                 && PlaceOf(ctx, j).1 <= PlaceOf(ctx, k).1)
  }

  ghost predicate LaysFamily(l: Layout, f: Family) {
    && RangeOk(l.rangeOf(f), l.top)
    && (forall key | l.fits(key) :: InRange(l.enc(key), l.rangeOf(f)) <==> InFamily(f, key))
    && (f.KarmaFamily? || f.CreditFamily? || f.AccrualFamily? || f.EscrowFamily? || f.TypeFamily? ==>
          forall x, y | InRange(x, l.rangeOf(f)) && InRange(y, l.rangeOf(f)) && l.idOf(x) == l.idOf(y) :: x == y)
    && (f.EscrowDueFamily? || f.BondDueFamily? ==>
          forall x, y | InRange(x, l.rangeOf(f)) && InRange(y, l.rangeOf(f)) && x <= y ::
              l.heightOf(x) <= l.heightOf(y))
  }

  /** Keys that fit are told apart, each family is an interval, and within one the order is the fields'. */
  ghost predicate Lays(ctx: Ctx, l: Layout) {
    && (forall key :: LaysKey(l, key))
    && (forall j, k :: LaysPair(ctx, l, j, k))
    && (forall f :: LaysFamily(l, f))
  }

  /** The leaves are the tree's entries under their keys. */
  ghost predicate Stored(l: Layout, tree: AuthTree, leaves: Leaves) {
    && (forall key | key in tree :: l.fits(key) && l.enc(key) in leaves && leaves[l.enc(key)] == tree[key])
    && (forall x | x in leaves :: exists key :: key in tree && l.enc(key) == x)
  }

  /** A view over an honest session of the tree of a state. */
  ghost predicate Serves(view: TreeView, ctx: Ctx, l: Layout, tree: AuthTree, s: State, leaves: Leaves) {
    && view.top == l.top && Honest(view.session, leaves, l.top)
    && RanksApart(ctx) && Lays(ctx, l)
    && Stored(l, tree, leaves) && Represents(tree, s)
  }

  // ---------------------------------------------------------------------------
  // A family's leaves
  // ---------------------------------------------------------------------------

  /** The key a box has in a family. */
  ghost function FamilyKey(f: Family, s: State, id: BoxId): TreeKey
    requires id in s.boxes
  {
    match f
    case KarmaFamily(owner) => KarmaOfKey(owner, id)
    case CreditFamily(owner) => CreditOfKey(owner, id)
    case AccrualFamily(author) => AccrualOfKey(author, id)
    case EscrowFamily(owner) => EscrowOfKey(owner, id)
    case TypeFamily(kind) => TypeKey(kind, id)
    case EscrowDueFamily => EscrowDueKey(if s.boxes[id].VouchEscrow? then s.boxes[id].releaseAtBlock else 0, id)
    case BondDueFamily =>
      BondDueKey(if s.boxes[id].Bond? then RecordOrEmpty(s.records, s.boxes[id].inviteePublicKey).invitedAtBlock
          else 0, id)
    case _ => NetworkKey
  }

  predicate NamesBoxes(f: Family) { !f.PairFamily? && !f.LapsedFamily? }

  ghost predicate HasEntry(f: Family, tree: AuthTree, s: State, id: BoxId) {
    id in s.boxes && FamilyKey(f, s, id) in tree
  }

  /** An entry of a family names a live box, and stands under that box's key. */
  lemma EntryIsOwn(f: Family, tree: AuthTree, s: State, key: TreeKey)
    requires Represents(tree, s) && NamesBoxes(f) && InFamily(f, key) && key in tree
    ensures IdIn(key).Some? && IdIn(key).value in s.boxes && key == FamilyKey(f, s, IdIn(key).value)
    ensures HasEntry(f, tree, s, IdIn(key).value)
  {
    assert HoldsAt(tree, s, key);
  }

  /** The keys of a read, each by the leaf it stands under. */
  lemma LeafIsEntry(ctx: Ctx, l: Layout, tree: AuthTree, s: State, leaves: Leaves, f: Family, x: LeafKey)
    returns (key: TreeKey)
    requires Lays(ctx, l) && Stored(l, tree, leaves) && x in leaves && InRange(x, l.rangeOf(f))
    ensures key in tree && l.fits(key) && l.enc(key) == x && InFamily(f, key) && leaves[x] == tree[key]
  {
    key :| key in tree && l.enc(key) == x;
    assert LaysFamily(l, f);
  }

  // ---------------------------------------------------------------------------
  // Listing a family's boxes
  // ---------------------------------------------------------------------------

  function IdsOf(l: Layout, es: seq<Entry>): (ids: seq<BoxId>)
    ensures |ids| == |es|
    ensures forall i | 0 <= i < |es| :: ids[i] == l.idOf(es[i].key)
  {
    if es == [] then [] else [l.idOf(es[0].key)] + IdsOf(l, es[1..])
  }

  /** Whether a family's read takes a box: its height is within the bound. */
  ghost predicate Takes(f: Family, tree: AuthTree, s: State, keep: int -> bool, id: BoxId) {
    HasEntry(f, tree, s, id) && keep(HeightIn(FamilyKey(f, s, id)))
  }

  function WithinHeight(l: Layout, keep: int -> bool): LeafKey -> bool {
    (x: LeafKey) => keep(l.heightOf(x))
  }

  ghost function FullListing(l: Layout, leaves: Leaves, f: Family, keep: int -> bool): seq<Entry> {
    Listing(leaves, l.rangeOf(f), l.rangeOf(f).first, WithinHeight(l, keep))
  }

  /** The id at each place of a listing. */
  lemma ListedId(
    ctx: Ctx, l: Layout, tree: AuthTree, s: State, leaves: Leaves, f: Family, keep: int -> bool,
    i: nat) returns (key: TreeKey)
    requires Lays(ctx, l) && Stored(l, tree, leaves) && Represents(tree, s) && NamesBoxes(f)
    requires i < |FullListing(l, leaves, f, keep)|
    ensures key in tree && l.fits(key) && InFamily(f, key) && l.enc(key) == FullListing(l, leaves, f, keep)[i].key
    ensures var id := l.idOf(l.enc(key));
      Takes(f, tree, s, keep, id) && key == FamilyKey(f, s, id) && l.fits(BoxKey(id))
  {
    var x := FullListing(l, leaves, f, keep)[i].key;
    var range := l.rangeOf(f);
    ListedAreLeaves(leaves, range, range.first, WithinHeight(l, keep));
    assert Keys(FullListing(l, leaves, f, keep))[i] == x;
    assert x in Ascending(LeavesFrom(leaves, range, range.first, WithinHeight(l, keep)));
    key := LeafIsEntry(ctx, l, tree, s, leaves, f, x);
    EntryIsOwn(f, tree, s, key);
    assert LaysKey(l, key);
  }

  /** Every box the read takes is in the listing. */
  lemma TakenIsListed(
    ctx: Ctx, l: Layout, tree: AuthTree, s: State, leaves: Leaves, f: Family, keep: int -> bool, id: BoxId)
    requires Lays(ctx, l) && Stored(l, tree, leaves) && Represents(tree, s) && NamesBoxes(f)
    requires Takes(f, tree, s, keep, id)
    ensures id in IdsOf(l, FullListing(l, leaves, f, keep))
  {
    var key := FamilyKey(f, s, id);
    assert LaysKey(l, key) && LaysFamily(l, f);
    LeafIsListed(l, leaves, f, keep, l.enc(key));
  }

  lemma LeafIsListed(l: Layout, leaves: Leaves, f: Family, keep: int -> bool, x: LeafKey)
    requires x in leaves && InRange(x, l.rangeOf(f)) && keep(l.heightOf(x))
    ensures l.idOf(x) in IdsOf(l, FullListing(l, leaves, f, keep))
  {
    var full, range := FullListing(l, leaves, f, keep), l.rangeOf(f);
    var all := LeavesFrom(leaves, range, range.first, WithinHeight(l, keep));
    Listed(all);
    assert WithinHeight(l, keep)(x) && x in all && x in Ascending(all);
    var i :| 0 <= i < |Keys(full)| && Keys(full)[i] == x;
    assert IdsOf(l, full)[i] == l.idOf(x);
  }

  /** Earlier in the listing, earlier in the family's order; and no id twice. */
  lemma ListedInOrder(
    ctx: Ctx, l: Layout, tree: AuthTree, s: State, leaves: Leaves, f: Family, keep: int -> bool, i: nat, j: nat)
    requires Lays(ctx, l) && Stored(l, tree, leaves) && Represents(tree, s) && NamesBoxes(f)
    requires i < j < |FullListing(l, leaves, f, keep)|
    ensures var ids := IdsOf(l, FullListing(l, leaves, f, keep));
      && ids[i] != ids[j] && ids[i] in s.boxes && ids[j] in s.boxes
      && var a, b := PlaceOf(ctx, FamilyKey(f, s, ids[i])), PlaceOf(ctx, FamilyKey(f, s, ids[j]));
         a.0 < b.0 || (a.0 == b.0 && a.1 <= b.1)
  {
    var full := FullListing(l, leaves, f, keep);
    var a := ListedId(ctx, l, tree, s, leaves, f, keep, i);
    var b := ListedId(ctx, l, tree, s, leaves, f, keep, j);
    Listed(LeavesFrom(leaves, l.rangeOf(f), l.rangeOf(f).first, WithinHeight(l, keep)));
    assert Keys(full)[i] < Keys(full)[j];
    assert LaysPair(ctx, l, a, b);
  }

  // ---------------------------------------------------------------------------
  // The listing is the query
  // ---------------------------------------------------------------------------

  ghost function LivesAt(boxes: Boxes, ids: seq<BoxId>): (ls: seq<Live>)
    requires forall id | id in ids :: id in boxes
    ensures |ls| == |ids|
    ensures forall i | 0 <= i < |ls| :: ls[i] == Live(ids[i], boxes[ids[i]])
  {
    if ids == [] then [] else [Live(ids[0], boxes[ids[0]])] + LivesAt(boxes, ids[1..])
  }

  /** What a family's read takes, said of the boxes alone, and the order it takes them in. */
  ghost predicate ReadsAs(
    ctx: Ctx, tree: AuthTree, s: State, f: Family, keep: int -> bool, p: Box -> bool, order: LiveKey)
  {
    && (forall id :: Takes(f, tree, s, keep, id) <==> id in s.boxes && p(s.boxes[id]))
    && (forall id | id in s.boxes && p(s.boxes[id]) ::
       order(Live(id, s.boxes[id])) == PlaceOf(ctx, FamilyKey(f, s, id)))
  }

  lemma AllTaken(
    ctx: Ctx, l: Layout, tree: AuthTree, s: State, leaves: Leaves, f: Family, keep: int -> bool)
    requires Lays(ctx, l) && Stored(l, tree, leaves) && Represents(tree, s) && NamesBoxes(f)
    ensures forall id :: id in IdsOf(l, FullListing(l, leaves, f, keep)) <==> Takes(f, tree, s, keep, id)
  {
    var ids := IdsOf(l, FullListing(l, leaves, f, keep));
    forall id ensures id in ids <==> Takes(f, tree, s, keep, id) {
      if id in ids {
        var i :| 0 <= i < |ids| && ids[i] == id;
        var key := ListedId(ctx, l, tree, s, leaves, f, keep, i);
      }
      if Takes(f, tree, s, keep, id) {
        TakenIsListed(ctx, l, tree, s, leaves, f, keep, id);
      }
    }
  }

  /** A family's whole listing is the state's query, in its order. */
  lemma ListingIsQuery(
    ctx: Ctx, l: Layout, tree: AuthTree, s: State, leaves: Leaves, f: Family, keep: int -> bool, p: Box -> bool,
    order: LiveKey)
    requires Lays(ctx, l) && Stored(l, tree, leaves) && Represents(tree, s) && NamesBoxes(f)
    requires ReadsAs(ctx, tree, s, f, keep, p, order) && RanksIds(ctx, order)
    ensures var ids := IdsOf(l, FullListing(l, leaves, f, keep));
      && (forall id | id in ids :: id in s.boxes)
      && LivesAt(s.boxes, ids) == Sorted(LivesWhere(s.boxes, p), order)
  {
    var ids := IdsOf(l, FullListing(l, leaves, f, keep));
    AllTaken(ctx, l, tree, s, leaves, f, keep);
    var ls := LivesAt(s.boxes, ids);
    forall i, j | 0 <= i < j < |ls| ensures Precedes(order, ls[i], ls[j]) && ls[i] != ls[j] {
      ListedInOrder(ctx, l, tree, s, leaves, f, keep, i, j);
      assert ids[i] in ids && ids[j] in ids;
      assert order(ls[i]) == PlaceOf(ctx, FamilyKey(f, s, ids[i])) && order(ls[j])
          == PlaceOf(ctx, FamilyKey(f, s, ids[j]));
    }
    LivesAreAll(s.boxes, ids, p);
    LivesApart(ctx, s.boxes, p, order);
    SortedIsUnique(LivesWhere(s.boxes, p), order, ls);
  }

  lemma LivesAreAll(boxes: Boxes, ids: seq<BoxId>, p: Box -> bool)
    requires forall id :: id in ids <==> id in boxes && p(boxes[id])
    ensures Members(LivesAt(boxes, ids)) == LivesWhere(boxes, p)
  {
    var ls := LivesAt(boxes, ids);
    forall x ensures x in Members(ls) <==> x in LivesWhere(boxes, p) {
      if x in ls {
        var i :| 0 <= i < |ls| && ls[i] == x;
        assert ids[i] in ids;
      }
      if x in LivesWhere(boxes, p) {
        var i :| 0 <= i < |ids| && ids[i] == x.id;
        assert ls[i] == x;
      }
    }
  }

  lemma TakenLivesAt(boxes: Boxes, ids: seq<BoxId>, limit: nat)
    requires forall id | id in ids :: id in boxes
    ensures LivesAt(boxes, Take(ids, limit)) == Take(LivesAt(boxes, ids), limit)
  {
  }

  lemma TakenIds(l: Layout, es: seq<Entry>, limit: nat)
    ensures IdsOf(l, Take(es, limit)) == Take(IdsOf(l, es), limit)
  {
  }

  // ---------------------------------------------------------------------------
  // Keyed reads
  // ---------------------------------------------------------------------------

  /** One key's entry: none where the tree contradicts itself. */
  method ReadKey(view: TreeView, ctx: Ctx, l: Layout, key: TreeKey, ghost tree: AuthTree, ghost s: State,
    ghost leaves: Leaves)
    returns (r: Option<Option<TreeValue>>)
    requires view.Valid() && l.fits(key)
    modifies view
    ensures view.Valid() && old(view.memo).Keys <= view.memo.Keys <= old(view.memo).Keys + {l.enc(key)}
    ensures Serves(view, ctx, l, tree, s, leaves) ==> r == Some(TreeAt(s, key))
  {
    var answer := view.Look(l.enc(key));
    if Serves(view, ctx, l, tree, s, leaves) {
      assert LaysKey(l, key) && HoldsAt(tree, s, key);
      view.LooksHonest(leaves, l.enc(key));
      StoredOnce(ctx, l, tree, leaves, key);
    }
    r := if answer.None? then None
         else if answer.value.Found? then Some(Some(answer.value.value)) else Some(None);
  }

  lemma StoredOnce(ctx: Ctx, l: Layout, tree: AuthTree, leaves: Leaves, key: TreeKey)
    requires Lays(ctx, l) && Stored(l, tree, leaves) && l.fits(key)
    ensures l.enc(key) in leaves <==> key in tree
    ensures key in tree ==> leaves[l.enc(key)] == tree[key]
  {
    if l.enc(key) in leaves {
      var j :| j in tree && l.enc(j) == l.enc(key);
      assert LaysPair(ctx, l, j, key);
    }
  }

  /** The live box an entry names, of the type it should be. */
  method NamedBox(
    view: TreeView, ctx: Ctx, l: Layout, id: BoxId, expected: Box -> bool, ghost tree: AuthTree, ghost s: State,
    ghost leaves: Leaves)
    returns (r: Option<Box>)
    requires view.Valid() && l.fits(BoxKey(id))
    modifies view
    ensures view.Valid() && old(view.memo).Keys <= view.memo.Keys
    ensures Serves(view, ctx, l, tree, s, leaves) ==>
      r == if id in s.boxes && expected(s.boxes[id]) then Some(s.boxes[id]) else None
  {
    var value := ReadKey(view, ctx, l, BoxKey(id), tree, s, leaves);
    r := if value.Some? && value.value.Some? && value.value.value.BoxRecord? && expected(value.value.value.box)
         then Some(value.value.value.box) else None;
  }

  // ---------------------------------------------------------------------------
  // Range reads
  // ---------------------------------------------------------------------------

  /** The boxes a walk's entries name, in its order. */
  method BoxesNamed(
    view: TreeView, ctx: Ctx, l: Layout, ids: seq<BoxId>, expected: Box -> bool,
    ghost tree: AuthTree, ghost s: State, ghost leaves: Leaves)
    returns (r: Option<seq<Live>>)
    requires view.Valid()
    modifies view
    ensures view.Valid()
    ensures r.Some? ==> |r.value| == |ids| && forall j | 0 <= j < |ids| :: r.value[j].id == ids[j]
    ensures Serves(view, ctx, l, tree, s, leaves) && AllNamed(l, s, ids, expected) ==> r == Some(LivesAt(s.boxes, ids))
  {
    var found: seq<Live> := [];
    for i := 0 to |ids|
      invariant view.Valid() && |found| == i && forall j | 0 <= j < i :: found[j].id == ids[j]
      invariant Serves(view, ctx, l, tree, s, leaves) && AllNamed(l, s, ids, expected) ==>
        forall j | 0 <= j < i :: found[j] == Live(ids[j], s.boxes[ids[j]])
    {
      assert ids[i] in ids;
      if !l.fits(BoxKey(ids[i])) {
        return None;
      }
      var box := NamedBox(view, ctx, l, ids[i], expected, tree, s, leaves);
      if box.None? {
        return None;
      }
      found := found + [Live(ids[i], box.value)];
    }
    if Serves(view, ctx, l, tree, s, leaves) && AllNamed(l, s, ids, expected) {
      assert found == LivesAt(s.boxes, ids);
    }
    r := Some(found);
  }

  ghost predicate AllNamed(l: Layout, s: State, ids: seq<BoxId>, expected: Box -> bool) {
    forall id | id in ids :: l.fits(BoxKey(id)) && id in s.boxes && expected(s.boxes[id])
  }

  /** A bound on heights keeps everything below what it keeps. */
  ghost predicate KeepsBelow(keep: int -> bool) {
    forall h, g | h <= g && keep(g) :: keep(h)
  }

  lemma DueStopsOnce(ctx: Ctx, l: Layout, f: Family, keep: int -> bool)
    requires Lays(ctx, l) && KeepsBelow(keep) && (f.EscrowDueFamily? || f.BondDueFamily?)
    ensures StopsOnce(l.rangeOf(f), WithinHeight(l, keep))
  {
    assert LaysFamily(l, f);
    var range, within := l.rangeOf(f), WithinHeight(l, keep);
    forall j, k | InRange(j, range) && InRange(k, range) && j <= k && within(k) ensures within(j) {
      assert l.heightOf(j) <= l.heightOf(k) && keep(l.heightOf(k));
    }
  }

  predicate AnyHeight(h: int) { true }

  lemma AnyStopsOnce(l: Layout, range: Range)
    ensures StopsOnce(range, WithinHeight(l, AnyHeight))
  {
    forall j, k | InRange(j, range) && InRange(k, range) && j <= k ensures WithinHeight(l, AnyHeight)(j) {
      assert AnyHeight(l.heightOf(j));
    }
  }

  lemma FewerThanTop(ks: seq<LeafKey>, top: nat)
    requires Rising(ks) && forall k | k in ks :: 0 < k < top
    ensures |ks| <= top
  {
    forall i | 0 <= i < |ks| ensures i < ks[i] {
      RisesPast(ks, i);
    }
    if |ks| > 0 {
      assert ks[|ks| - 1] in ks;
    }
  }

  lemma {:induction false} RisesPast(ks: seq<LeafKey>, i: nat)
    requires Rising(ks) && i < |ks| && forall k | k in ks :: 0 < k
    ensures i < ks[i]
  {
    if i > 0 {
      RisesPast(ks, i - 1);
    } else {
      assert ks[0] in ks;
    }
  }

  /** A read without a limit takes the whole listing: there are no more leaves than keys. */
  lemma WholeListing(ctx: Ctx, l: Layout, leaves: Leaves, f: Family, keep: int -> bool)
    requires Lays(ctx, l)
    ensures Take(FullListing(l, leaves, f, keep), l.top) == FullListing(l, leaves, f, keep)
  {
    var full, range := FullListing(l, leaves, f, keep), l.rangeOf(f);
    var all := LeavesFrom(leaves, range, range.first, WithinHeight(l, keep));
    Listed(all);
    assert LaysFamily(l, f);
    FewerThanTop(Keys(full), l.top);
  }

  ghost predicate IdsApart(ls: seq<Live>) {
    forall i, j | 0 <= i < j < |ls| :: ls[i].id != ls[j].id
  }

  /** A walk of an owner's range names no box twice. */
  lemma WalkedIdsApart(l: Layout, f: Family, es: seq<Entry>, i: nat, j: nat)
    requires LaysFamily(l, f) && NamesBoxes(f) && !f.EscrowDueFamily? && !f.BondDueFamily?
    requires Rising(Keys(es)) && (forall e | e in es :: InRange(e.key, l.rangeOf(f))) && i < j < |es|
    ensures IdsOf(l, es)[i] != IdsOf(l, es)[j]
  {
    assert es[i] in es && es[j] in es && Keys(es)[i] < Keys(es)[j];
  }

  /** A family's read of a served tree: its boxes are of the type it expects. */
  ghost predicate Readable(
    view: TreeView, ctx: Ctx, l: Layout, f: Family, keep: int -> bool, expected: Box -> bool, tree: AuthTree, s: State,
    leaves: Leaves)
  {
    && Serves(view, ctx, l, tree, s, leaves)
    && StopsOnce(l.rangeOf(f), WithinHeight(l, keep))
    && forall id | Takes(f, tree, s, keep, id) :: expected(s.boxes[id])
  }

  /** The boxes a family's entries name: at most `limit`, within a height where the queue is due by height. */
  method IndexedBoxes(
    view: TreeView, ctx: Ctx, l: Layout, f: Family, keep: int -> bool, limit: nat, expected: Box -> bool,
    ghost tree: AuthTree, ghost s: State, ghost leaves: Leaves)
    returns (r: Option<seq<Live>>)
    requires view.Valid() && NamesBoxes(f) && limit > 0 && FixedLength(view.session, view.top)
      && RangeOk(l.rangeOf(f), view.top)
    modifies view
    ensures view.Valid()
    ensures r.Some? && LaysFamily(l, f) && !f.EscrowDueFamily? && !f.BondDueFamily? ==> IdsApart(r.value)
    ensures Readable(view, ctx, l, f, keep, expected, tree, s, leaves) ==>
      var ids := Take(IdsOf(l, FullListing(l, leaves, f, keep)), limit);
      (forall id | id in ids :: id in s.boxes) && r == Some(LivesAt(s.boxes, ids))
  {
    var range := l.rangeOf(f);
    var walked := view.Walk(range, limit, WithinHeight(l, keep), range.first, leaves);
    if walked.None? {
      return None;
    }
    if Readable(view, ctx, l, f, keep, expected, tree, s, leaves) {
      TakenIds(l, FullListing(l, leaves, f, keep), limit);
      NamedAreLive(ctx, l, tree, s, leaves, f, keep, expected);
    }
    var es := walked.value.0;
    r := BoxesNamed(view, ctx, l, IdsOf(l, es), expected, tree, s, leaves);
    if r.Some? && LaysFamily(l, f) && !f.EscrowDueFamily? && !f.BondDueFamily? {
      forall i, j | 0 <= i < j < |r.value| ensures r.value[i].id != r.value[j].id {
        WalkedIdsApart(l, f, es, i, j);
      }
    }
  }

  lemma NamedAreLive(
    ctx: Ctx, l: Layout, tree: AuthTree, s: State, leaves: Leaves, f: Family, keep: int -> bool, expected: Box -> bool)
    requires Lays(ctx, l) && Stored(l, tree, leaves) && Represents(tree, s) && NamesBoxes(f)
    requires forall id | Takes(f, tree, s, keep, id) :: expected(s.boxes[id])
    ensures AllNamed(l, s, IdsOf(l, FullListing(l, leaves, f, keep)), expected)
  {
    var ids := IdsOf(l, FullListing(l, leaves, f, keep));
    forall id | id in ids ensures l.fits(BoxKey(id)) && id in s.boxes && expected(s.boxes[id]) {
      var i :| 0 <= i < |ids| && ids[i] == id;
      var key := ListedId(ctx, l, tree, s, leaves, f, keep, i);
    }
  }
}
