/** A page of what one key holds of one kind, read through a view of the tree. */
module TreeHoldings {
  import opened Wrappers
  import opened Sums
  import opened Orders
  import opened Sorting
  import opened Ledger
  import opened Coinbase
  import opened Queries
  import opened Tree
  import opened TreeWrites
  import opened TreeViews
  import opened TreeReads
  import opened TreeLapses

  /** The ranges a key's boxes are indexed under. */
  datatype HoldingKind = KarmaHeld | CreditHeld | EscrowHeld | VouchHeld | AccrualHeld

  function RangeFamily(kind: HoldingKind, owner: Key): Family {
    match kind
    case KarmaHeld => KarmaFamily(owner)
    case CreditHeld => CreditFamily(owner)
    case EscrowHeld => EscrowFamily(owner)
    case VouchHeld => PairFamily(owner)
    case AccrualHeld => AccrualFamily(owner)
  }

  predicate OfKind(kind: HoldingKind, b: Box) {
    match kind
    case KarmaHeld => b.Karma?
    case CreditHeld => b.Credit?
    case EscrowHeld => b.VouchEscrow?
    case VouchHeld => b.Vouch?
    case AccrualHeld => b.LikeAccrual?
  }

  /** The id an entry names: its key's, or, for a pair, its value's. */
  function IdNamed(kind: HoldingKind, l: Layout, e: Entry): Option<BoxId> {
    if !kind.VouchHeld? then Some(l.idOf(e.key))
    else if e.value.PairValue? then Some(e.value.id)
    else None
  }

  datatype Holdings = Holdings(boxes: seq<Box>, next: Option<LeafKey>)

  // ---------------------------------------------------------------------------
  // Over any leaves
  // ---------------------------------------------------------------------------

  /** The box of the kind an entry names among the leaves, or none. */
  ghost function BoxNamed(kind: HoldingKind, l: Layout, leaves: Leaves, e: Entry): Option<Box> {
    var id := IdNamed(kind, l, e);
    if id.Some? && l.fits(BoxKey(id.value)) && l.enc(BoxKey(id.value)) in leaves then
      var value := leaves[l.enc(BoxKey(id.value))];
      if value.BoxRecord? && OfKind(kind, value.box) then Some(value.box) else None
    else None
  }

  /** The boxes the entries name, in their order. */
  ghost predicate BoxesOf(kind: HoldingKind, l: Layout, leaves: Leaves, es: seq<Entry>, boxes: seq<Box>) {
    |boxes| == |es| && forall i | 0 <= i < |es| :: BoxNamed(kind, l, leaves, es[i]) == Some(boxes[i])
  }

  /** An honest session of keys that stand between the sentinels. */
  ghost predicate Answering(view: TreeView, l: Layout, leaves: Leaves) {
    Honest(view.session, leaves, view.top) && forall key | l.fits(key) :: 0 < l.enc(key) < view.top
  }

  method LiveBox(view: TreeView, l: Layout, kind: HoldingKind, e: Entry, ghost leaves: Leaves) returns (r: Option<Box>)
    requires view.Valid()
    modifies view
    ensures view.Valid() && |view.memo| <= |old(view.memo)| + 1
    ensures Answering(view, l, leaves) ==> r == BoxNamed(kind, l, leaves, e)
  {
    var id := IdNamed(kind, l, e);
    if id.None? || !l.fits(BoxKey(id.value)) {
      return None;
    }
    var answer := view.Look(l.enc(BoxKey(id.value)));
    if Answering(view, l, leaves) {
      view.LooksHonest(leaves, l.enc(BoxKey(id.value)));
    }
    if answer.None? || answer.value.Absent? {
      return None;
    }
    var value := answer.value.value;
    r := if value.BoxRecord? && OfKind(kind, value.box) then Some(value.box) else None;
  }

  /** The page's boxes: none where an entry names no live box of the kind. */
  method BoxesFor(view: TreeView, l: Layout, kind: HoldingKind, es: seq<Entry>, ghost leaves: Leaves)
    returns (r: Option<seq<Box>>)
    requires view.Valid()
    modifies view
    ensures view.Valid() && |view.memo| <= |old(view.memo)| + |es|
    ensures Answering(view, l, leaves) ==>
      && (r.Some? <==> forall i | 0 <= i < |es| :: BoxNamed(kind, l, leaves, es[i]).Some?)
      && (r.Some? ==> BoxesOf(kind, l, leaves, es, r.value))
  {
    var boxes: seq<Box> := [];
    for i := 0 to |es|
      invariant view.Valid() && |view.memo| <= |old(view.memo)| + i
      invariant |boxes| == i
      invariant Answering(view, l, leaves) ==>
        forall j | 0 <= j < i :: BoxNamed(kind, l, leaves, es[j]) == Some(boxes[j])
    {
      var box := LiveBox(view, l, kind, es[i], leaves);
      if box.None? {
        return None;
      }
      boxes := boxes + [box.value];
    }
    r := Some(boxes);
  }

  /** A page answered: exactly where each entry names a box, those boxes and the page's next key. */
  ghost predicate AnswersPage(kind: HoldingKind, l: Layout, leaves: Leaves, page: Page, r: Option<Holdings>) {
    && (r.Some? <==> forall i | 0 <= i < |page.entries| :: BoxNamed(kind, l, leaves, page.entries[i]).Some?)
    && (r.Some? ==> BoxesOf(kind, l, leaves, page.entries, r.value.boxes) && r.value.next == page.next)
  }

  predicate StartsIn(l: Layout, kind: HoldingKind, owner: Key, from: Option<LeafKey>) {
    from.Some? ==> InRange(from.value, l.rangeOf(RangeFamily(kind, owner)))
  }

  function StartOf(l: Layout, kind: HoldingKind, owner: Key, from: Option<LeafKey>): LeafKey {
    if from.Some? then from.value else l.rangeOf(RangeFamily(kind, owner)).first
  }

  /** A range's page, and the boxes its entries name. */
  method PagedBoxes(
    view: TreeView, l: Layout, kind: HoldingKind, range: Range, from: Option<LeafKey>, limit: nat, ghost leaves: Leaves)
    returns (r: Option<Holdings>)
    requires view.Valid() && FixedLength(view.session, view.top) && RangeOk(range, view.top)
    modifies view
    ensures view.Valid() && |view.memo| <= |old(view.memo)| + 1 + 2 * limit
    ensures limit == 0 || (from.Some? && !InRange(from.value, range)) ==> r.None?
    ensures Answering(view, l, leaves) && limit > 0 && (from.Some? ==> InRange(from.value, range)) ==>
      AnswersPage(kind, l, leaves,
        PageOf(leaves, range, if from.Some? then from.value else range.first, limit), r)
  {
    var found := view.PageRange(range, from, limit, leaves);
    if found.None? {
      return None;
    }
    var boxes := BoxesFor(view, l, kind, found.value.entries, leaves);
    r := if boxes.None? then None else Some(Holdings(boxes.value, found.value.next));
  }

  /**
   * A page of the owner's boxes of a kind. It is refused for a limit of zero and a start outside the range, and for
   * an entry that names no live box of the kind; over a tree that represents a state it is a page of the state's own
   * list. A page looks up at most `1 + 2 * limit` keys.
   */
  method HoldingsPage(
    view: TreeView, ctx: Ctx, l: Layout, kind: HoldingKind, owner: Key, from: Option<LeafKey>, limit: nat,
    ghost tree: AuthTree, ghost s: State, ghost leaves: Leaves)
    returns (r: Option<Holdings>)
    requires view.Valid() && FixedLength(view.session, view.top)
      && RangeOk(l.rangeOf(RangeFamily(kind, owner)), view.top)
    modifies view
    ensures view.Valid() && |view.memo| <= |old(view.memo)| + 1 + 2 * limit
    ensures limit == 0 || !StartsIn(l, kind, owner, from) ==> r.None?
    ensures Answering(view, l, leaves) && limit > 0 && StartsIn(l, kind, owner, from) ==>
      AnswersPage(kind, l, leaves,
        PageOf(leaves, l.rangeOf(RangeFamily(kind, owner)), StartOf(l, kind, owner, from), limit), r)
    ensures Serves(view, ctx, l, tree, s, leaves) && PairsOnce(s.boxes) ==>
      limit > 0 && StartsIn(l, kind, owner, from) ==>
        r == Some(PageHeld(ctx, l, s, kind, owner, StartOf(l, kind, owner, from), limit))
  {
    r := PagedBoxes(view, l, kind, l.rangeOf(RangeFamily(kind, owner)), from, limit, leaves);
    if Serves(view, ctx, l, tree, s, leaves) && PairsOnce(s.boxes) && limit > 0 && StartsIn(l, kind, owner, from) {
      ServedAnswers(view, ctx, l, tree, s, leaves);
      AnsweredIsHeld(ctx, l, tree, s, leaves, kind, owner, StartOf(l, kind, owner, from), limit, r);
    }
  }

  lemma AnsweredIsHeld(
    ctx: Ctx, l: Layout, tree: AuthTree, s: State, leaves: Leaves, kind: HoldingKind, owner: Key, start: LeafKey,
    limit: nat, r: Option<Holdings>)
    requires RanksApart(ctx) && Lays(ctx, l) && Stored(l, tree, leaves) && Represents(tree, s) && PairsOnce(s.boxes)
    requires AnswersPage(kind, l, leaves, PageOf(leaves, l.rangeOf(RangeFamily(kind, owner)), start, limit), r)
    ensures r == Some(PageHeld(ctx, l, s, kind, owner, start, limit))
  {
    PageIsHeld(ctx, l, tree, s, leaves, kind, owner, start, limit);
    var page := PageOf(leaves, l.rangeOf(RangeFamily(kind, owner)), start, limit);
    SameBoxes(kind, l, leaves, page.entries, if r.Some? then Some(r.value.boxes) else None,
      PageHeld(ctx, l, s, kind, owner, start, limit).boxes);
  }

  lemma SameBoxes(
    kind: HoldingKind, l: Layout, leaves: Leaves, es: seq<Entry>, found: Option<seq<Box>>, boxes: seq<Box>)
    requires BoxesOf(kind, l, leaves, es, boxes)
    requires found.Some? <==> forall i | 0 <= i < |es| :: BoxNamed(kind, l, leaves, es[i]).Some?
    requires found.Some? ==> BoxesOf(kind, l, leaves, es, found.value)
    ensures found == Some(boxes)
  {
    assert found.Some?;
    forall i | 0 <= i < |es| ensures found.value[i] == boxes[i] {
      assert BoxNamed(kind, l, leaves, es[i]) == Some(boxes[i]);
    }
    assert found.value == boxes;
  }

  lemma ServedAnswers(view: TreeView, ctx: Ctx, l: Layout, tree: AuthTree, s: State, leaves: Leaves)
    requires Serves(view, ctx, l, tree, s, leaves)
    ensures Answering(view, l, leaves)
  {
    forall key | l.fits(key) ensures 0 < l.enc(key) < view.top {
      assert LaysKey(l, key);
    }
  }

  // ---------------------------------------------------------------------------
  // What an owner holds
  // ---------------------------------------------------------------------------

  predicate HeldBy(kind: HoldingKind, owner: Key, b: Box) {
    match b
    case Karma(_, _, holder, _) => kind.KarmaHeld? && holder == owner
    case Credit(_, _, holder, _) => kind.CreditHeld? && holder == owner
    case VouchEscrow(_, _, holder, _) => kind.EscrowHeld? && holder == owner
    case Vouch(_, _, voucher, _) => kind.VouchHeld? && voucher == owner
    case LikeAccrual(_, _, author) => kind.AccrualHeld? && author == owner
    case _ => false
  }

  /** The key a held box is indexed under. */
  function HoldingKey(kind: HoldingKind, owner: Key, x: Live): TreeKey {
    match kind
    case KarmaHeld => KarmaOfKey(owner, x.id)
    case CreditHeld => CreditOfKey(owner, x.id)
    case EscrowHeld => EscrowOfKey(owner, x.id)
    case VouchHeld => VouchPairKey(owner, if x.box.Vouch? then x.box.targetId else 0)
    case AccrualHeld => AccrualOfKey(owner, x.id)
  }

  /** By id; vouches by target. */
  function HoldingOrder(ctx: Ctx, kind: HoldingKind): LiveKey {
    if kind.VouchHeld? then ByPair() else ByRank(ctx)
  }

  ghost function HeldSet(l: Layout, s: State, kind: HoldingKind, owner: Key, start: LeafKey): set<Live> {
    set id | id in s.boxes && HeldBy(kind, owner, s.boxes[id])
      && start <= l.enc(HoldingKey(kind, owner, Live(id, s.boxes[id]))) :: Live(id, s.boxes[id])
  }

  /** The owner's live boxes of the kind from a key on, in order. */
  ghost function HeldFrom(ctx: Ctx, l: Layout, s: State, kind: HoldingKind, owner: Key, start: LeafKey): seq<Live> {
    Sorted(HeldSet(l, s, kind, owner, start), HoldingOrder(ctx, kind))
  }

  function BoxesIn(ls: seq<Live>): (boxes: seq<Box>)
    ensures |boxes| == |ls| && forall i | 0 <= i < |ls| :: boxes[i] == ls[i].box
  {
    if ls == [] then [] else [ls[0].box] + BoxesIn(ls[1..])
  }

  /** The first `limit` of them, and the key of the next where one is left. */
  ghost function PageHeld(
    ctx: Ctx, l: Layout, s: State, kind: HoldingKind, owner: Key, start: LeafKey, limit: nat): Holdings
  {
    var held := HeldFrom(ctx, l, s, kind, owner, start);
    Holdings(BoxesIn(Take(held, limit)),
      if |held| > limit then Some(l.enc(HoldingKey(kind, owner, held[limit]))) else None)
  }

  // ---------------------------------------------------------------------------
  // The listing is what the owner holds
  // ---------------------------------------------------------------------------

  ghost function HoldingListing(l: Layout, leaves: Leaves, kind: HoldingKind, owner: Key, start: LeafKey): seq<Entry> {
    Listing(leaves, l.rangeOf(RangeFamily(kind, owner)), start, Everything)
  }

  /** The live box an entry names. */
  ghost predicate Names(
    l: Layout, s: State, leaves: Leaves, kind: HoldingKind, owner: Key, e: Entry, x: Live)
  {
    && x.id in s.boxes && x.box == s.boxes[x.id] && HeldBy(kind, owner, x.box)
    && l.fits(HoldingKey(kind, owner, x)) && l.enc(HoldingKey(kind, owner, x)) == e.key
    && IdNamed(kind, l, e) == Some(x.id) && BoxNamed(kind, l, leaves, e) == Some(x.box)
  }

  lemma KeyNames(
    ctx: Ctx, l: Layout, tree: AuthTree, s: State, leaves: Leaves, kind: HoldingKind, owner: Key, key: TreeKey)
    returns (x: Live)
    requires Lays(ctx, l) && Stored(l, tree, leaves) && Represents(tree, s)
    requires key in tree && InFamily(RangeFamily(kind, owner), key)
    ensures Names(l, s, leaves, kind, owner, Entry(l.enc(key), tree[key]), x) && HoldingKey(kind, owner, x) == key
  {
    assert HoldsAt(tree, s, key) && l.fits(key) && LaysKey(l, key);
    var id := if kind.VouchHeld? then tree[key].id else TreeReads.IdIn(key).value;
    x := Live(id, s.boxes[id]);
    assert HoldsAt(tree, s, BoxKey(id));
    StoredOnce(ctx, l, tree, leaves, BoxKey(id));
  }

  /** Each entry of the listing names a live box of the owner's. */
  lemma EntryNames(
    ctx: Ctx, l: Layout, tree: AuthTree, s: State, leaves: Leaves, kind: HoldingKind, owner: Key, start: LeafKey,
    i: nat)
    returns (x: Live)
    requires Lays(ctx, l) && Stored(l, tree, leaves) && Represents(tree, s)
    requires i < |HoldingListing(l, leaves, kind, owner, start)|
    ensures Names(l, s, leaves, kind, owner, HoldingListing(l, leaves, kind, owner, start)[i], x)
    ensures x in HeldSet(l, s, kind, owner, start)
  {
    var range, es := l.rangeOf(RangeFamily(kind, owner)), HoldingListing(l, leaves, kind, owner, start);
    ListedAreLeaves(leaves, range, start, Everything);
    assert Keys(es)[i] in Ascending(LeavesFrom(leaves, range, start, Everything));
    ValueListed(leaves, range, start, i);
    var key := LeafIsEntry(ctx, l, tree, s, leaves, RangeFamily(kind, owner), es[i].key);
    x := KeyNames(ctx, l, tree, s, leaves, kind, owner, key);
    assert es[i] == Entry(l.enc(key), tree[key]);
  }

  /** A held box's key is in the tree. */
  lemma HeldIsKept(
    ctx: Ctx, l: Layout, tree: AuthTree, s: State, kind: HoldingKind, owner: Key, x: Live)
    requires Represents(tree, s) && x.id in s.boxes && x.box == s.boxes[x.id] && HeldBy(kind, owner, x.box)
    ensures HoldingKey(kind, owner, x) in tree && InFamily(RangeFamily(kind, owner), HoldingKey(kind, owner, x))
  {
    var key := HoldingKey(kind, owner, x);
    assert HoldsAt(tree, s, key);
    if kind.VouchHeld? {
      assert PairBox(s.boxes, owner, x.box.targetId, x.id);
    }
  }

  /** Two held boxes under one key are one. */
  lemma HeldApart(s: State, kind: HoldingKind, owner: Key, x: Live, y: Live)
    requires PairsOnce(s.boxes)
    requires x.id in s.boxes && x.box == s.boxes[x.id] && HeldBy(kind, owner, x.box)
    requires y.id in s.boxes && y.box == s.boxes[y.id] && HeldBy(kind, owner, y.box)
    requires HoldingKey(kind, owner, x) == HoldingKey(kind, owner, y)
    ensures x == y
  {
    if kind.VouchHeld? {
      assert PairBox(s.boxes, owner, x.box.targetId, x.id) && PairBox(s.boxes, owner, x.box.targetId, y.id);
    }
  }

  /** Each held box is named by an entry of the listing. */
  lemma HeldIsListed(
    ctx: Ctx, l: Layout, tree: AuthTree, s: State, leaves: Leaves, kind: HoldingKind, owner: Key, start: LeafKey,
    x: Live)
    returns (i: nat)
    requires Lays(ctx, l) && Stored(l, tree, leaves) && Represents(tree, s) && PairsOnce(s.boxes)
    requires x in HeldSet(l, s, kind, owner, start)
    ensures i < |HoldingListing(l, leaves, kind, owner, start)|
    ensures Names(l, s, leaves, kind, owner, HoldingListing(l, leaves, kind, owner, start)[i], x)
  {
    var key, range := HoldingKey(kind, owner, x), l.rangeOf(RangeFamily(kind, owner));
    var es := HoldingListing(l, leaves, kind, owner, start);
    HeldIsKept(ctx, l, tree, s, kind, owner, x);
    assert LaysKey(l, key) && LaysFamily(l, RangeFamily(kind, owner));
    var all := LeavesFrom(leaves, range, start, Everything);
    Listed(all);
    assert l.enc(key) in all && l.enc(key) in Ascending(all);
    i :| 0 <= i < |Keys(es)| && Keys(es)[i] == l.enc(key);
    var y := EntryNames(ctx, l, tree, s, leaves, kind, owner, start, i);
    HeldIsKept(ctx, l, tree, s, kind, owner, y);
    assert LaysPair(ctx, l, key, HoldingKey(kind, owner, y));
    HeldApart(s, kind, owner, x, y);
  }

  /** The live boxes the entries name. */
  ghost predicate ListNames(l: Layout, s: State, leaves: Leaves, kind: HoldingKind, owner: Key, es: seq<Entry>,
    ls: seq<Live>)
  {
    |ls| == |es| && forall i | 0 <= i < |es| :: Names(l, s, leaves, kind, owner, es[i], ls[i])
  }

  lemma NamedInOrder(
    ctx: Ctx, l: Layout, s: State, leaves: Leaves, kind: HoldingKind, owner: Key, d: Entry, e: Entry, x: Live, y: Live)
    requires Lays(ctx, l) && Names(l, s, leaves, kind, owner, d, x) && Names(l, s, leaves, kind, owner, e, y)
    requires d.key < e.key
    ensures x != y && Precedes(HoldingOrder(ctx, kind), x, y)
  {
    var j, k := HoldingKey(kind, owner, x), HoldingKey(kind, owner, y);
    assert LaysPair(ctx, l, j, k) && InFamily(RangeFamily(kind, owner), j) && InFamily(RangeFamily(kind, owner), k);
    assert HoldingOrder(ctx, kind)(x) == PlaceOf(ctx, j) && HoldingOrder(ctx, kind)(y) == PlaceOf(ctx, k);
  }

  lemma OrderTellsApart(ctx: Ctx, l: Layout, s: State, kind: HoldingKind, owner: Key, start: LeafKey)
    requires RanksApart(ctx) && PairsOnce(s.boxes)
    ensures TellsApart(HeldSet(l, s, kind, owner, start), HoldingOrder(ctx, kind))
  {
    var all, order := HeldSet(l, s, kind, owner, start), HoldingOrder(ctx, kind);
    forall a, b | a in all && b in all && order(a) == order(b) ensures a == b {
      if kind.VouchHeld? {
        HeldApart(s, kind, owner, a, b);
      }
    }
  }

  lemma NamedAreAll(
    ctx: Ctx, l: Layout, tree: AuthTree, s: State, leaves: Leaves, kind: HoldingKind, owner: Key, start: LeafKey,
    ls: seq<Live>)
    requires Lays(ctx, l) && Stored(l, tree, leaves) && Represents(tree, s) && PairsOnce(s.boxes)
    requires ListNames(l, s, leaves, kind, owner, HoldingListing(l, leaves, kind, owner, start), ls)
    requires forall i | 0 <= i < |ls| :: ls[i] in HeldSet(l, s, kind, owner, start)
    ensures Members(ls) == HeldSet(l, s, kind, owner, start)
  {
    var all := HeldSet(l, s, kind, owner, start);
    forall x | x in all ensures x in ls {
      var i := HeldIsListed(ctx, l, tree, s, leaves, kind, owner, start, x);
      var es := HoldingListing(l, leaves, kind, owner, start);
      assert Names(l, s, leaves, kind, owner, es[i], ls[i]);
      assert ls[i] == x;
    }
  }

  /** The listing from a key, entry by entry, is what the owner holds from there, in order. */
  lemma ListingIsHeld(
    ctx: Ctx, l: Layout, tree: AuthTree, s: State, leaves: Leaves, kind: HoldingKind, owner: Key, start: LeafKey)
    requires RanksApart(ctx) && Lays(ctx, l) && Stored(l, tree, leaves) && Represents(tree, s) && PairsOnce(s.boxes)
    ensures ListNames(l, s, leaves, kind, owner, HoldingListing(l, leaves, kind, owner, start),
      HeldFrom(ctx, l, s, kind, owner, start))
  {
    var es := HoldingListing(l, leaves, kind, owner, start);
    var ls: seq<Live> := [];
    while |ls| < |es|
      invariant |ls| <= |es| && forall i | 0 <= i < |ls| ::
        Names(l, s, leaves, kind, owner, es[i], ls[i]) && ls[i] in HeldSet(l, s, kind, owner, start)
      decreases |es| - |ls|
    {
      var x := EntryNames(ctx, l, tree, s, leaves, kind, owner, start, |ls|);
      ls := ls + [x];
    }
    NamedAreAll(ctx, l, tree, s, leaves, kind, owner, start, ls);
    var range, order := l.rangeOf(RangeFamily(kind, owner)), HoldingOrder(ctx, kind);
    forall i, j | 0 <= i < j < |ls| ensures Precedes(order, ls[i], ls[j]) && ls[i] != ls[j] {
      KeysRise(leaves, range, start, i, j);
      NamedInOrder(ctx, l, s, leaves, kind, owner, es[i], es[j], ls[i], ls[j]);
    }
    OrderTellsApart(ctx, l, s, kind, owner, start);
    SortedIsUnique(HeldSet(l, s, kind, owner, start), order, ls);
  }

  /** So a page of the range is a page of what the owner holds. */
  lemma PageIsHeld(
    ctx: Ctx, l: Layout, tree: AuthTree, s: State, leaves: Leaves, kind: HoldingKind, owner: Key, start: LeafKey,
    limit: nat)
    requires RanksApart(ctx) && Lays(ctx, l) && Stored(l, tree, leaves) && Represents(tree, s) && PairsOnce(s.boxes)
    ensures var page := PageOf(leaves, l.rangeOf(RangeFamily(kind, owner)), start, limit);
      var held := PageHeld(ctx, l, s, kind, owner, start, limit);
      BoxesOf(kind, l, leaves, page.entries, held.boxes) && page.next == held.next
  {
    ListingIsHeld(ctx, l, tree, s, leaves, kind, owner, start);
    var es, ls := HoldingListing(l, leaves, kind, owner, start), HeldFrom(ctx, l, s, kind, owner, start);
    PageNames(l, s, leaves, kind, owner, es, ls, limit);
  }

  lemma PageNames(
    l: Layout, s: State, leaves: Leaves, kind: HoldingKind, owner: Key, es: seq<Entry>, ls: seq<Live>, limit: nat)
    requires ListNames(l, s, leaves, kind, owner, es, ls)
    ensures BoxesOf(kind, l, leaves, Take(es, limit), BoxesIn(Take(ls, limit)))
    ensures |es| > limit ==> es[limit].key == l.enc(HoldingKey(kind, owner, ls[limit]))
  {
    forall i | 0 <= i < |Take(es, limit)|
      ensures BoxNamed(kind, l, leaves, Take(es, limit)[i]) == Some(Take(ls, limit)[i].box)
    {
      assert Names(l, s, leaves, kind, owner, es[i], ls[i]);
    }
    if |es| > limit {
      assert Names(l, s, leaves, kind, owner, es[limit], ls[limit]);
    }
  }
}
