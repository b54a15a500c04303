/** From a block's effects to the ordered tree writes, and the tree they leave. */
module TreeUpdate {
  import opened Wrappers
  import opened Sums
  import opened Orders
  import opened Sorting
  import opened Ledger
  import opened Engine
  import opened Applying
  import opened Coinbase
  import opened Queries
  import opened Invariant
  import opened Effects
  import opened Tree
  import opened TreeWrites
  import opened TreeBlock

  // ---------------------------------------------------------------------------
  // The whole list
  // ---------------------------------------------------------------------------

  /** The effects' nets, each listed once. */
  datatype Nets = Nets(
    spent: seq<Live>,
    created: seq<Live>,
    last: Last,
    identities: seq<Key>,
    recordKeys: seq<Key>,
    nameKeys: seq<string>,
    holderKeys: seq<Key>)

  ghost function BoxedWrites(s: State, height: int, n: Nets): seq<TreeWrite> {
    SpentWrites(s, n.spent) + CreatedWrites(n.created, height)
    + Emit(n.recordKeys, RecordWriter(n.last.records))
    + Emit(n.identities, IdentityWriter(s, n.last.records, n.spent, n.created))
    + NetworkWrites(n.last.network)
  }

  function NamedWrites(n: Nets): seq<TreeWrite> {
    Emit(n.nameKeys, NameWriter(n.last.names)) + Emit(n.holderKeys, HolderWriter(n.last.holders))
  }

  function PostedWrites(s: State, height: int, effects: Effects): seq<TreeWrite> {
    Emit(effects.posts, PostWriter(height)) + Emit(effects.withdrawals, WithdrawalWriter(s))
        + Emit(effects.likeRecords, LikeWriter())
  }

  ghost function BlockWrites(s: State, height: int, effects: Effects, n: Nets): seq<TreeWrite> {
    BoxedWrites(s, height, n) + NamedWrites(n) + PostedWrites(s, height, effects)
  }

  ghost predicate SameParts(u: State, played: State) {
    && u.boxes == played.boxes && u.records == played.records && u.memberCount == played.memberCount
    && u.names == played.names && u.holders == played.holders
  }

  /** The effects take the one state to the other. */
  ghost predicate Explains(s: State, u: State, height: int, effects: Effects) {
    && AllLegal(s, effects.mutations)
    && SameParts(u, PlayAll(s, effects.mutations))
    && PostsExplained(s, u, height, effects)
  }

  ghost predicate NetsOf(s: State, u: State, n: Nets) {
    && SpentList(s, u, n.spent)
    && CreatedList(s, u, n.created)
    && LastOf(s, u, n.last)
    && Distinct(n.identities) && Members(n.identities) == Movers(n.spent) + Movers(n.created) + n.last.records.Keys
    && Distinct(n.recordKeys) && Members(n.recordKeys) == n.last.records.Keys
    && Distinct(n.nameKeys) && Members(n.nameKeys) == n.last.names.Keys
    && Distinct(n.holderKeys) && Members(n.holderKeys) == n.last.holders.Keys
  }

  predicate BoxedDomain(key: TreeKey) { BoxDomain(key) || IsIdentityKey(key) || CastDomain(key) || IsNetworkKey(key) }

  predicate NamedDomain(key: TreeKey) { IsNameKey(key) || IsHolderKey(key) }

  predicate PostedDomain(key: TreeKey) { IsPostKey(key) || IsLikeKey(key) }

  predicate UnlessPosted(key: TreeKey) { BoxedDomain(key) || NamedDomain(key) }

  predicate AnyKey(key: TreeKey) { true }

  ghost function BoxRecordWrites(s: State, height: int, n: Nets): seq<TreeWrite> {
    SpentWrites(s, n.spent) + CreatedWrites(n.created, height) + Emit(n.recordKeys, RecordWriter(n.last.records))
  }

  ghost function MovedWritesOf(s: State, n: Nets): seq<TreeWrite> {
    Emit(n.identities, IdentityWriter(s, n.last.records, n.spent, n.created))
  }

  predicate BoxRecordDomain(key: TreeKey) { BoxDomain(key) || IsIdentityKey(key) }

  predicate UnlessNetwork(key: TreeKey) { BoxRecordDomain(key) || CastDomain(key) }

  lemma BoxRecordSection(s: State, u: State, height: int, n: Nets)
    requires Indexable(s, u, height) && NetsOf(s, u, n)
    ensures Section(s, u, BoxRecordWrites(s, height, n), BoxRecordDomain)
  {
    var boxes := SpentWrites(s, n.spent) + CreatedWrites(n.created, height);
    BoxSection(s, u, height, n.spent, n.created);
    RecordSection(s, u, n.last.records, n.recordKeys);
    JoinSections(s, u, boxes, Emit(n.recordKeys, RecordWriter(n.last.records)), BoxDomain, IsIdentityKey,
      BoxRecordDomain);
  }

  lemma MovedSection(s: State, u: State, height: int, n: Nets)
    requires Indexable(s, u, height) && NetsOf(s, u, n)
    ensures Section(s, u, MovedWritesOf(s, n), CastDomain)
  {
    CastSection(s, u, height, n.last.records, n.spent, n.created, n.identities);
  }

  lemma BoxedSection(s: State, u: State, height: int, effects: Effects, n: Nets)
    requires Indexable(s, u, height) && NetsOf(s, u, n)
    ensures Section(s, u, BoxedWrites(s, height, n), BoxedDomain)
  {
    BoxRecordSection(s, u, height, n);
    MovedSection(s, u, height, n);
    NetworkSection(s, u, n.last.network);
    BoxedJoined(s, u, BoxRecordWrites(s, height, n), MovedWritesOf(s, n), NetworkWrites(n.last.network));
  }

  lemma BoxedJoined(s: State, u: State, boxes: seq<TreeWrite>, moved: seq<TreeWrite>, network: seq<TreeWrite>)
    requires Section(s, u, boxes, BoxRecordDomain) && Section(s, u, moved, CastDomain)
    requires Section(s, u, network, IsNetworkKey)
    ensures Section(s, u, boxes + moved + network, BoxedDomain)
  {
    JoinSections(s, u, boxes, moved, BoxRecordDomain, CastDomain, UnlessNetwork);
    JoinSections(s, u, boxes + moved, network, UnlessNetwork, IsNetworkKey, BoxedDomain);
  }

  lemma NamedSection(s: State, u: State, n: Nets)
    requires NetsOf(s, u, n)
    ensures Section(s, u, NamedWrites(n), NamedDomain)
  {
    var names, holders := Emit(n.nameKeys, NameWriter(n.last.names)), Emit(n.holderKeys, HolderWriter(n.last.holders));
    NameSection(s, u, n.last.names, n.nameKeys);
    HolderSection(s, u, n.last.holders, n.holderKeys);
    JoinSections(s, u, names, holders, IsNameKey, IsHolderKey, NamedDomain);
  }

  lemma PostedSection(s: State, u: State, height: int, effects: Effects)
    requires PostsExplained(s, u, height, effects)
    ensures Section(s, u, PostedWrites(s, height, effects), PostedDomain)
  {
    var posts, withdrawn := Emit(effects.posts, PostWriter(height)), Emit(effects.withdrawals, WithdrawalWriter(s));
    ConfirmedSection(s, u, height, effects);
    WithdrawnSection(s, u, height, effects);
    LikeSection(s, u, height, effects);
    JoinSections(s, u, posts, withdrawn, NewPostKey(s), OldPostKey(s), IsPostKey);
    JoinSections(s, u, posts + withdrawn, Emit(effects.likeRecords, LikeWriter()), IsPostKey, IsLikeKey, PostedDomain);
  }

  /** No key twice, every write right, nothing missed. */
  lemma BlockSection(s: State, u: State, height: int, effects: Effects, n: Nets)
    requires Indexable(s, u, height) && NetsOf(s, u, n) && PostsExplained(s, u, height, effects)
    ensures Section(s, u, BlockWrites(s, height, effects, n), AnyKey)
  {
    var boxed, named, posted := BoxedWrites(s, height, n), NamedWrites(n), PostedWrites(s, height, effects);
    BoxedSection(s, u, height, effects, n);
    NamedSection(s, u, n);
    PostedSection(s, u, height, effects);
    JoinThree(s, u, boxed, named, posted);
  }

  lemma JoinThree(s: State, u: State, boxed: seq<TreeWrite>, named: seq<TreeWrite>, posted: seq<TreeWrite>)
    requires Section(s, u, boxed, BoxedDomain) && Section(s, u, named, NamedDomain)
      && Section(s, u, posted, PostedDomain)
    ensures Section(s, u, boxed + named + posted, AnyKey)
  {
    JoinSections(s, u, boxed, named, BoxedDomain, NamedDomain, UnlessPosted);
    JoinSections(s, u, boxed + named, posted, UnlessPosted, PostedDomain, AnyKey);
  }

  // ---------------------------------------------------------------------------
  // The consensus order
  // ---------------------------------------------------------------------------

  /** Every removal, then every insert, then every update, then the rest. */
  function TagRank(w: TreeWrite): nat {
    match w
    case Remove(_) => 0
    case Insert(_, _) => 1
    case Update(_, _) => 2
    case InsertOrUpdate(_, _) => 3
  }

  predicate Ahead(rank: TreeKey -> nat, v: TreeWrite, w: TreeWrite) {
    TagRank(v) < TagRank(w) || (TagRank(v) == TagRank(w) && rank(v.key) <= rank(w.key))
  }

  predicate InOrder(rank: TreeKey -> nat, ws: seq<TreeWrite>) {
    forall i, j | 0 <= i < j < |ws| :: Ahead(rank, ws[i], ws[j])
  }

  lemma AheadTransitive(rank: TreeKey -> nat, a: TreeWrite, b: TreeWrite, c: TreeWrite)
    requires Ahead(rank, a, b) && Ahead(rank, b, c)
    ensures Ahead(rank, a, c)
  {
  }

  /** Puts a write in its place among ordered ones. */
  method Place(rank: TreeKey -> nat, ws: seq<TreeWrite>, w: TreeWrite) returns (out: seq<TreeWrite>)
    requires InOrder(rank, ws)
    ensures InOrder(rank, out) && multiset(out) == multiset(ws) + multiset{w}
  {
    var i := 0;
    while i < |ws| && Ahead(rank, ws[i], w)
      invariant 0 <= i <= |ws|
      invariant forall j | 0 <= j < i :: Ahead(rank, ws[j], w)
    {
      i := i + 1;
    }
    out := ws[..i] + [w] + ws[i..];
    assert ws == ws[..i] + ws[i..];
    Placed(rank, ws, w, i);
  }

  lemma Placed(rank: TreeKey -> nat, ws: seq<TreeWrite>, w: TreeWrite, i: nat)
    requires InOrder(rank, ws) && i <= |ws|
    requires forall j | 0 <= j < i :: Ahead(rank, ws[j], w)
    requires i < |ws| ==> Ahead(rank, w, ws[i])
    ensures InOrder(rank, ws[..i] + [w] + ws[i..])
  {
    var out := ws[..i] + [w] + ws[i..];
    forall a, b | 0 <= a < b < |out| ensures Ahead(rank, out[a], out[b]) {
      assert a < i ==> out[a] == ws[a];
      assert a > i ==> out[a] == ws[a - 1];
      assert b > i ==> out[b] == ws[b - 1];
      if a == i && b > i + 1 {
        AheadTransitive(rank, w, ws[i], ws[b - 1]);
      }
    }
  }

  method Ordered(rank: TreeKey -> nat, ws: seq<TreeWrite>) returns (out: seq<TreeWrite>)
    ensures InOrder(rank, out) && multiset(out) == multiset(ws)
  {
    out := [];
    for i := 0 to |ws|
      invariant InOrder(rank, out) && multiset(out) == multiset(ws[..i])
    {
      out := Place(rank, out, ws[i]);
      assert ws[..i + 1] == ws[..i] + [ws[i]];
    }
    assert ws[..|ws|] == ws;
  }

  /** Distinct keys are distinct in any order, and so is everything else a section says. */
  lemma ReorderedSection(s: State, u: State, ws: seq<TreeWrite>, out: seq<TreeWrite>)
    requires Section(s, u, ws, AnyKey) && multiset(out) == multiset(ws)
    ensures Section(s, u, out, _ => true)
  {
    forall w ensures w in out <==> w in ws {
      assert w in multiset(out) <==> w in multiset(ws);
    }
    ReorderedOnce(ws, out);
    forall key ensures Settled(s, u, out, key) {
      assert AnyKey(key) && Settled(s, u, ws, key);
    }
  }

  lemma ReorderedOnce(ws: seq<TreeWrite>, out: seq<TreeWrite>)
    requires KeysOnce(ws) && multiset(out) == multiset(ws)
    ensures KeysOnce(out)
  {
    forall i, j | 0 <= i < j < |out| ensures out[i].key != out[j].key {
      if out[i].key == out[j].key {
        assert out[i] in multiset(ws) && out[j] in multiset(ws);
        var a :| 0 <= a < |ws| && ws[a] == out[i];
        var b :| 0 <= b < |ws| && ws[b] == out[j];
        assert a == b;
        TwiceCounted(out, i, j);
        OnceCounted(ws, a);
      }
    }
  }

  lemma TwiceCounted(ws: seq<TreeWrite>, i: nat, j: nat)
    requires i < j < |ws| && ws[i] == ws[j]
    ensures multiset(ws)[ws[i]] >= 2
  {
    assert ws == ws[..j] + [ws[j]] + ws[j + 1..];
    assert ws[i] in ws[..j];
    assert multiset(ws[..j])[ws[i]] >= 1;
  }

  lemma OnceCounted(ws: seq<TreeWrite>, a: nat)
    requires a < |ws| && KeysOnce(ws)
    ensures multiset(ws)[ws[a]] == 1
  {
    assert ws == ws[..a] + [ws[a]] + ws[a + 1..];
    assert ws[a] !in ws[..a] && ws[a] !in ws[a + 1..];
  }

  // ---------------------------------------------------------------------------
  // The writes
  // ---------------------------------------------------------------------------

  /** The tree's own reads: what the writes need of the state before the block. */
  function BoxIn(tree: AuthTree, id: BoxId): Option<Box> {
    if BoxKey(id) in tree && tree[BoxKey(id)].BoxRecord? then Some(tree[BoxKey(id)].box) else None
  }

  function RecordIn(tree: AuthTree, k: Key): Option<IdentityRecord> {
    if IdentityKey(k) in tree && tree[IdentityKey(k)].IdentityValue? then Some(tree[IdentityKey(k)].record) else None
  }

  function CastsIn(tree: AuthTree, k: Key): nat {
    if CastCountKey(k) in tree && tree[CastCountKey(k)].CastCount? then tree[CastCountKey(k)].count else 0
  }

  function PostIn(tree: AuthTree, post: PostId): Option<(Key, int)> {
    if PostKey(post) in tree && tree[PostKey(post)].PostValue?
        then Some((tree[PostKey(post)].author, tree[PostKey(post)].height)) else None
  }

  lemma TreeReads(tree: AuthTree, s: State)
    requires Represents(tree, s)
    ensures forall id :: BoxIn(tree, id) == if id in s.boxes then Some(s.boxes[id]) else None
    ensures forall k :: RecordIn(tree, k) == RecordOf(s.records, k)
    ensures forall k :: CastsOf(s.boxes, k) >= 0 && CastsIn(tree, k) == CastsOf(s.boxes, k)
    ensures forall p :: PostIn(tree, p) == if p in s.posts then Some((s.posts[p].author, s.posts[p].height)) else None
  {
    forall id ensures BoxIn(tree, id) == if id in s.boxes then Some(s.boxes[id]) else None {
      assert HoldsAt(tree, s, BoxKey(id));
    }
    forall k ensures RecordIn(tree, k) == RecordOf(s.records, k) {
      assert HoldsAt(tree, s, IdentityKey(k));
    }
    forall k ensures CastsOf(s.boxes, k) >= 0 && CastsIn(tree, k) == CastsOf(s.boxes, k) {
      assert HoldsAt(tree, s, CastCountKey(k));
      CastsNonNegative(s.boxes, k);
    }
    forall p ensures PostIn(tree, p) == if p in s.posts then Some((s.posts[p].author, s.posts[p].height)) else None {
      assert HoldsAt(tree, s, PostKey(p));
    }
  }

  /** One more element, emitted. */
  lemma {:induction false} EmitSnoc<T>(xs: seq<T>, x: T, f: T -> seq<TreeWrite>)
    ensures Emit(xs + [x], f) == Emit(xs, f) + f(x)
  {
    if xs == [] {
      assert xs + [x] == [x];
      assert Emit([x][1..], f) == [];
    } else {
      assert (xs + [x])[1..] == xs[1..] + [x];
      EmitSnoc(xs[1..], x, f);
    }
  }

  /** Each element's writes, in the elements' order. */
  method EmitAll<T>(xs: seq<T>, f: T -> seq<TreeWrite>) returns (ws: seq<TreeWrite>)
    ensures ws == Emit(xs, f)
  {
    ws := [];
    for i := 0 to |xs|
      invariant ws == Emit(xs[..i], f)
    {
      assert xs[..i + 1] == xs[..i] + [xs[i]];
      EmitSnoc(xs[..i], xs[i], f);
      ws := ws + f(xs[i]);
    }
    assert xs[..|xs|] == xs;
  }

  function SpentWriter(tree: AuthTree): Live -> seq<TreeWrite> {
    (l: Live) => Removes(Entries(l.id, l.box, DueIn(tree, l.box)))
  }

  /** A spent bond's due height, read from the tree. */
  function DueIn(tree: AuthTree, b: Box): int {
    if b.Bond? && RecordIn(tree, b.inviteePublicKey).Some? then RecordIn(tree, b.inviteePublicKey).value.invitedAtBlock
        else 0
  }

  function CreatedWriter(height: int): Live -> seq<TreeWrite> {
    (l: Live) => Inserts(Entries(l.id, l.box, height))
  }

  function MovedWrites(tree: AuthTree, written: Records, spent: seq<Live>, created: seq<Live>, k: Key): seq<TreeWrite> {
    var before := CastsIn(tree, k);
    if before + Casts(created, k) < Casts(spent, k) then []
    else
      var after := before + Casts(created, k) - Casts(spent, k);
      CastWrites(k, before, after)
      + LapsedWrites(k,
          Lapses(RecordIn(tree, k)) && before > 0,
          Lapses(if k in written then Some(written[k]) else RecordIn(tree, k)) && after > 0)
  }

  function MovedWriter(tree: AuthTree, written: Records, spent: seq<Live>, created: seq<Live>): Key -> seq<TreeWrite> {
    (k: Key) => MovedWrites(tree, written, spent, created, k)
  }

  function DroppedWriter(tree: AuthTree): PostId -> seq<TreeWrite> {
    (p: PostId) =>
      if PostIn(tree, p).Some? then [Update(PostKey(p), PostValue(PostIn(tree, p).value.0, PostIn(tree, p).value.1,
          false))] else []
  }

  lemma {:induction false} SpentFromTree(tree: AuthTree, s: State, spent: seq<Live>)
    requires Represents(tree, s)
    ensures Emit(spent, SpentWriter(tree)) == SpentWrites(s, spent)
  {
    if spent != [] {
      TreeReads(tree, s);
      SpentFromTree(tree, s, spent[1..]);
      assert DueIn(tree, spent[0].box) == GrantIn(s.records, spent[0].box);
    }
  }

  lemma {:induction false} CreatedFromList(created: seq<Live>, height: int)
    ensures Emit(created, CreatedWriter(height)) == CreatedWrites(created, height)
  {
    if created != [] {
      CreatedFromList(created[1..], height);
    }
  }

  lemma {:induction false} SameEmit<T(!new)>(xs: seq<T>, f: T -> seq<TreeWrite>, g: T -> seq<TreeWrite>)
    requires forall x :: f(x) == g(x)
    ensures Emit(xs, f) == Emit(xs, g)
  {
    if xs != [] {
      SameEmit(xs[1..], f, g);
    }
  }

  lemma MovedFromTree(tree: AuthTree, s: State, written: Records, spent: seq<Live>, created: seq<Live>, ks: seq<Key>)
    requires Represents(tree, s)
    ensures Emit(ks, MovedWriter(tree, written, spent, created)) == Emit(ks, IdentityWriter(s, written, spent, created))
  {
    TreeReads(tree, s);
    SameEmit(ks, MovedWriter(tree, written, spent, created), IdentityWriter(s, written, spent, created));
  }

  lemma DroppedFromTree(tree: AuthTree, s: State, ps: seq<PostId>)
    requires Represents(tree, s)
    ensures Emit(ps, DroppedWriter(tree)) == Emit(ps, WithdrawalWriter(s))
  {
    TreeReads(tree, s);
    SameEmit(ps, DroppedWriter(tree), WithdrawalWriter(s));
  }

  // ---------------------------------------------------------------------------
  // treeWritesOf
  // ---------------------------------------------------------------------------

  /** The spent boxes, resolved from the tree. */
  method SpentBoxes(tree: AuthTree, ghost s: State, ids: seq<BoxId>) returns (spent: seq<Live>)
    requires Represents(tree, s) && Distinct(ids) && forall id | id in ids :: id in s.boxes
    ensures LiveList(s.boxes, spent) && Ids(spent) == ids
  {
    spent := [];
    TreeReads(tree, s);
    for i := 0 to |ids|
      invariant |spent| == i
      invariant forall j | 0 <= j < i :: spent[j] == Live(ids[j], s.boxes[ids[j]])
    {
      var box := BoxIn(tree, ids[i]);
      assert ids[i] in ids;
      spent := spent + [Live(ids[i], box.value)];
    }
    assert Ids(spent) == ids;
  }

  method CreatedBoxes(created: map<BoxId, Box>, ids: seq<BoxId>) returns (ls: seq<Live>)
    requires Distinct(ids) && Members(ids) == created.Keys
    ensures LiveList(created, ls) && Ids(ls) == ids
  {
    ls := [];
    for i := 0 to |ids|
      invariant |ls| == i
      invariant forall j | 0 <= j < i :: ids[j] in created && ls[j] == Live(ids[j], created[ids[j]])
    {
      assert ids[i] in Members(ids);
      ls := ls + [Live(ids[i], created[ids[i]])];
    }
    assert Ids(ls) == ids;
  }

  lemma SpentIsList(s: State, u: State, created: map<BoxId, Box>, ids: seq<BoxId>, spent: seq<Live>)
    requires Netted(s.boxes, u.boxes, created, ids) && LiveList(s.boxes, spent) && Ids(spent) == ids
    ensures SpentList(s, u, spent)
  {
    IdsAreIdSet(spent);
  }

  lemma CreatedIsList(s: State, u: State, created: map<BoxId, Box>, spentIds: seq<BoxId>, ids: seq<BoxId>,
    ls: seq<Live>)
    requires Netted(s.boxes, u.boxes, created, spentIds) && LiveList(created, ls) && Ids(ls) == ids && Members(ids)
      == created.Keys
    ensures CreatedList(s, u, ls)
  {
    IdsAreIdSet(ls);
    forall id ensures id in IdSet(ls) <==> id in u.boxes && id !in s.boxes {
      assert id in IdSet(ls) <==> id in created;
    }
  }

  /** The nets of a block's effects. */
  method NetEffects(tree: AuthTree, ghost s: State, ghost u: State, effects: Effects, height: int) returns (n: Nets)
    requires Represents(tree, s) && Explains(s, u, height, effects)
    ensures NetsOf(s, u, n)
  {
    var createdMap, spentIds := NetBoxes(s, effects.mutations);
    var spent := SpentBoxes(tree, s, spentIds);
    var createdIds := ListOf(createdMap.Keys);
    var created := CreatedBoxes(createdMap, createdIds);
    SpentIsList(s, u, createdMap, spentIds, spent);
    CreatedIsList(s, u, createdMap, spentIds, createdIds, created);
    var last := LastWrites(s, effects.mutations);
    LastCarriesOver(s, u, effects, last);
    var identities := ListOf(Movers(spent) + Movers(created) + last.records.Keys);
    var recordKeys := ListOf(last.records.Keys);
    var nameKeys := ListOf(last.names.Keys);
    var holderKeys := ListOf(last.holders.Keys);
    n := Nets(spent, created, last, identities, recordKeys, nameKeys, holderKeys);
  }

  lemma LastCarriesOver(s: State, u: State, effects: Effects, last: Last)
    requires SameParts(u, PlayAll(s, effects.mutations)) && LastOf(s, PlayAll(s, effects.mutations), last)
    ensures LastOf(s, u, last)
  {
  }

  /** The writes before their ordering. */
  method CollectWrites(tree: AuthTree, ghost s: State, effects: Effects, height: int,
    n: Nets) returns (ws: seq<TreeWrite>)
    requires Represents(tree, s)
    ensures ws == BlockWrites(s, height, effects, n)
  {
    var spent := EmitAll(n.spent, SpentWriter(tree));
    var created := EmitAll(n.created, CreatedWriter(height));
    var records := EmitAll(n.recordKeys, RecordWriter(n.last.records));
    var moved := EmitAll(n.identities, MovedWriter(tree, n.last.records, n.spent, n.created));
    var names := EmitAll(n.nameKeys, NameWriter(n.last.names));
    var holders := EmitAll(n.holderKeys, HolderWriter(n.last.holders));
    var posts := EmitAll(effects.posts, PostWriter(height));
    var withdrawn := EmitAll(effects.withdrawals, DroppedWriter(tree));
    var likes := EmitAll(effects.likeRecords, LikeWriter());
    SpentFromTree(tree, s, n.spent);
    CreatedFromList(n.created, height);
    MovedFromTree(tree, s, n.last.records, n.spent, n.created, n.identities);
    DroppedFromTree(tree, s, effects.withdrawals);
    ws := (spent + created + records + moved + NetworkWrites(n.last.network)) + (names + holders)
        + (posts + withdrawn + likes);
  }

  /**
   * A block's writes take the tree of the state before it to the tree of the state after it: each insert
   * hits an absent key, each removal and update a present one, no key is written twice, and every index
   * entry, cast count and lapsed entry comes out as the new state decides it.
   */
  method TreeWritesOf(tree: AuthTree, ghost s: State, ghost u: State, effects: Effects, height: int,
    rank: TreeKey -> nat)
    returns (ws: seq<TreeWrite>)
    requires Represents(tree, s) && Explains(s, u, height, effects) && Indexable(s, u, height)
    ensures InOrder(rank, ws) && KeysOnce(ws)
    ensures PerformAll(tree, ws).Some? && Represents(PerformAll(tree, ws).value, u)
  {
    var n := NetEffects(tree, s, u, effects, height);
    var unordered := CollectWrites(tree, s, effects, height, n);
    BlockSection(s, u, height, effects, n);
    ws := Ordered(rank, unordered);
    ReorderedSection(s, u, unordered, ws);
    PerformedRepresents(tree, s, u, ws);
  }
}
