/** The whole of a block's tree writes. */
module TreeBlock {
  import opened Wrappers
  import opened Sums
  import opened Orders
  import opened Ledger
  import opened Engine
  import opened Applying
  import opened Coinbase
  import opened Queries
  import opened Invariant
  import opened Effects
  import opened Tree
  import opened TreeWrites

  // ---------------------------------------------------------------------------
  // Writes element by element
  // ---------------------------------------------------------------------------

  function Emit<T>(xs: seq<T>, f: T -> seq<TreeWrite>): seq<TreeWrite> {
    if xs == [] then [] else f(xs[0]) + Emit(xs[1..], f)
  }

  ghost predicate InSome<T(!new)>(xs: seq<T>, dom: (T, TreeKey) -> bool, key: TreeKey) {
    exists x :: x in xs && dom(x, key)
  }

  lemma Widen(s: State, u: State, ws: seq<TreeWrite>, p: TreeKey -> bool, q: TreeKey -> bool)
    requires Section(s, u, ws, p)
    requires forall key | p(key) :: q(key)
    requires forall key | q(key) && !p(key) :: TreeAt(u, key) == TreeAt(s, key)
    ensures Section(s, u, ws, q)
  {
    forall key | q(key) ensures Settled(s, u, ws, key) {
      assert p(key) ==> Settled(s, u, ws, key);
    }
  }

  lemma {:induction false} EmitSection<T(!new)>(s: State, u: State, xs: seq<T>, f: T -> seq<TreeWrite>,
    dom: (T, TreeKey) -> bool)
    requires Distinct(xs)
    requires forall x | x in xs :: Section(s, u, f(x), key => dom(x, key))
    requires forall x, y, key | x != y :: !(dom(x, key) && dom(y, key))
    ensures Section(s, u, Emit(xs, f), key => InSome(xs, dom, key))
    decreases |xs|
  {
    if xs != [] {
      var x, rest := xs[0], xs[1..];
      DistinctTail(xs);
      EmitSection(s, u, rest, f, dom);
      forall key ensures InSome(xs, dom, key) <==> dom(x, key) || InSome(rest, dom, key) {
        if InSome(xs, dom, key) {
          var y :| y in xs && dom(y, key);
          assert y == x || y in rest;
        }
      }
      JoinSections(s, u, f(x), Emit(rest, f), key => dom(x, key), key => InSome(rest, dom, key),
          key => InSome(xs, dom, key));
    }
  }

  lemma OneWrite(s: State, u: State, w: TreeWrite, p: TreeKey -> bool)
    requires p(w.key) && Right(w, TreeAt(s, w.key), TreeAt(u, w.key))
    requires forall key | p(key) && key != w.key :: TreeAt(u, key) == TreeAt(s, key)
    ensures Section(s, u, [w], p)
  {
    assert w in [w];
    forall key | p(key) ensures Settled(s, u, [w], key) {
      assert Writes([w], w.key);
    }
  }

  lemma NoWrite(s: State, u: State, p: TreeKey -> bool)
    requires forall key | p(key) :: TreeAt(u, key) == TreeAt(s, key)
    ensures Section(s, u, [], p)
  {
  }

  predicate IsIdentityKey(key: TreeKey) { key.IdentityKey? }
  predicate IsNetworkKey(key: TreeKey) { key.NetworkKey? }
  predicate IsNameKey(key: TreeKey) { key.NameKey? }
  predicate IsHolderKey(key: TreeKey) { key.HolderKey? }
  predicate IsLikeKey(key: TreeKey) { key.LikeKey? }
  predicate IsPostKey(key: TreeKey) { key.PostKey? }

  ghost function NewPostKey(s: State): TreeKey -> bool { (key: TreeKey) => key.PostKey? && key.post !in s.posts }
  ghost function OldPostKey(s: State): TreeKey -> bool { (key: TreeKey) => key.PostKey? && key.post in s.posts }

  // ---------------------------------------------------------------------------
  // Cast counts and lapsed entries
  // ---------------------------------------------------------------------------

  function Casts(ls: seq<Live>, k: Key): nat {
    if ls == [] then 0 else (if ls[0].box.Vouch? && ls[0].box.voucherId == k then 1 else 0) + Casts(ls[1..], k)
  }

  /** The vouchers whose vouch boxes the block moved. */
  function Movers(ls: seq<Live>): set<Key> {
    set l | l in ls && l.box.Vouch? :: l.box.voucherId
  }

  function CastWrites(k: Key, before: nat, after: nat): seq<TreeWrite> {
    if after == before then []
    else if after == 0 then [Remove(CastCountKey(k))]
    else if before == 0 then [Insert(CastCountKey(k), CastCount(after))]
    else [Update(CastCountKey(k), CastCount(after))]
  }

  predicate Lapses(r: Option<IdentityRecord>) { r.Some? && IsLapsedMember(r.value) }

  function LapsedWrites(k: Key, heldBefore: bool, heldAfter: bool): seq<TreeWrite> {
    if heldAfter && !heldBefore then [InsertOrUpdate(LapsedKey(k), IndexMarker)]
    else if heldBefore && !heldAfter then [Remove(LapsedKey(k))]
    else []
  }

  /** One identity's writes: its cast count where it moved, its lapsed entry where its condition flips. */
  ghost function IdentityWrites(s: State, written: Records, spent: seq<Live>, created: seq<Live>,
    k: Key): seq<TreeWrite> {
    var before := CastsOf(s.boxes, k);
    var after := before + Casts(created, k) - Casts(spent, k);
    if before < 0 || after < 0 then []
    else
      CastWrites(k, before, after)
      + LapsedWrites(k,
          Lapses(RecordOf(s.records, k)) && before > 0,
          Lapses(if k in written then Some(written[k]) else RecordOf(s.records, k)) && after > 0)
  }

  ghost function IdentityWriter(s: State, written: Records, spent: seq<Live>,
    created: seq<Live>): Key -> seq<TreeWrite> {
    (k: Key) => IdentityWrites(s, written, spent, created, k)
  }

  predicate CastDomain(key: TreeKey) { key.CastCountKey? || key.LapsedKey? }

  predicate IdentityDomain(k: Key, key: TreeKey) { key == CastCountKey(k) || key == LapsedKey(k) }

  lemma {:induction false} CastsAreSum(boxes: Boxes, ls: seq<Live>, k: Key)
    requires forall l | l in ls :: l.id in boxes && boxes[l.id] == l.box
    ensures forall id | id in Ids(ls) :: id in boxes
    ensures SeqSum(ValuesAt(boxes, Ids(ls)), CastWeight(k)) == Casts(ls, k)
  {
    if ls != [] {
      assert ls[0] in ls;
      CastsAreSum(boxes, ls[1..], k);
      assert Ids(ls) == [ls[0].id] + Ids(ls[1..]);
      assert ValuesAt(boxes, Ids(ls)) == [boxes[ls[0].id]] + ValuesAt(boxes, Ids(ls)[1..]);
    }
  }

  lemma IdsAreIdSet(ls: seq<Live>)
    ensures Members(Ids(ls)) == IdSet(ls)
  {
    forall id ensures id in Members(Ids(ls)) <==> id in IdSet(ls) {
      if id in Members(Ids(ls)) {
        var i :| 0 <= i < |Ids(ls)| && Ids(ls)[i] == id;
        assert ls[i] in ls;
      }
      if id in IdSet(ls) {
        var l :| l in ls && l.id == id;
        var i :| 0 <= i < |ls| && ls[i] == l;
        assert Ids(ls)[i] == id;
      }
    }
  }

  /** The count after is the count before, plus the vouches created, less the vouches spent. */
  lemma CastsMove(s: State, u: State, height: int, spent: seq<Live>, created: seq<Live>, k: Key)
    requires Indexable(s, u, height) && SpentList(s, u, spent) && CreatedList(s, u, created)
    ensures CastsOf(u.boxes, k) == CastsOf(s.boxes, k) + Casts(created, k) - Casts(spent, k)
    ensures CastsOf(s.boxes, k) >= 0 && CastsOf(u.boxes, k) >= 0
  {
    var w := CastWeight(k);
    CastsAreSum(s.boxes, spent, k);
    CastsAreSum(u.boxes, created, k);
    IdsAreIdSet(spent);
    IdsAreIdSet(created);
    MapSumRemoveAll(s.boxes, w, Ids(spent));
    MapSumRemoveAll(u.boxes, w, Ids(created));
    assert s.boxes - IdSet(spent) == u.boxes - IdSet(created);
    CastsNonNegative(s.boxes, k);
    CastsNonNegative(u.boxes, k);
  }

  lemma CastsNonNegative(boxes: Boxes, k: Key)
    ensures CastsOf(boxes, k) >= 0
  {
    MapSumBounds(boxes, CastWeight(k), Seed(0));
  }

  ghost function OnlyKey(k: TreeKey): TreeKey -> bool { (key: TreeKey) => key == k }

  lemma CastPart(s: State, u: State, k: Key)
    requires CastsOf(s.boxes, k) >= 0 && CastsOf(u.boxes, k) >= 0
    ensures Section(s, u, CastWrites(k, CastsOf(s.boxes, k), CastsOf(u.boxes, k)), OnlyKey(CastCountKey(k)))
  {
    var before, after := CastsOf(s.boxes, k), CastsOf(u.boxes, k);
    if after == before {
      NoWrite(s, u, OnlyKey(CastCountKey(k)));
    } else {
      OneWrite(s, u, CastWrites(k, before, after)[0], OnlyKey(CastCountKey(k)));
    }
  }

  lemma LapsedPart(s: State, u: State, k: Key)
    ensures Section(s, u, LapsedWrites(k, HoldsLapsed(s, k), HoldsLapsed(u, k)), OnlyKey(LapsedKey(k)))
  {
    if HoldsLapsed(s, k) == HoldsLapsed(u, k) {
      NoWrite(s, u, OnlyKey(LapsedKey(k)));
    } else {
      OneWrite(s, u, LapsedWrites(k, HoldsLapsed(s, k), HoldsLapsed(u, k))[0], OnlyKey(LapsedKey(k)));
    }
  }

  lemma IdentityWritesAre(s: State, u: State, height: int, written: Records, spent: seq<Live>, created: seq<Live>,
    k: Key)
    requires Indexable(s, u, height) && SpentList(s, u, spent) && CreatedList(s, u, created)
    requires u.records == s.records + written
    ensures CastsOf(s.boxes, k) >= 0 && CastsOf(u.boxes, k) >= 0
    ensures IdentityWrites(s, written, spent, created, k)
      == CastWrites(k, CastsOf(s.boxes, k), CastsOf(u.boxes, k)) + LapsedWrites(k, HoldsLapsed(s, k), HoldsLapsed(u, k))
  {
    CastsMove(s, u, height, spent, created, k);
  }

  lemma IdentitySection(s: State, u: State, height: int, written: Records, spent: seq<Live>, created: seq<Live>, k: Key)
    requires Indexable(s, u, height) && SpentList(s, u, spent) && CreatedList(s, u, created)
    requires u.records == s.records + written
    ensures Section(s, u, IdentityWrites(s, written, spent, created, k), key => IdentityDomain(k, key))
  {
    IdentityWritesAre(s, u, height, written, spent, created, k);
    BothParts(s, u, k);
  }

  lemma BothParts(s: State, u: State, k: Key)
    requires CastsOf(s.boxes, k) >= 0 && CastsOf(u.boxes, k) >= 0
    ensures Section(s, u, CastWrites(k, CastsOf(s.boxes, k), CastsOf(u.boxes, k))
      + LapsedWrites(k, HoldsLapsed(s, k), HoldsLapsed(u, k)),
      key => IdentityDomain(k, key))
  {
    CastPart(s, u, k);
    LapsedPart(s, u, k);
    JoinSections(s, u, CastWrites(k, CastsOf(s.boxes, k), CastsOf(u.boxes, k)),
      LapsedWrites(k, HoldsLapsed(s, k), HoldsLapsed(u, k)), OnlyKey(CastCountKey(k)), OnlyKey(LapsedKey(k)),
      key => IdentityDomain(k, key));
  }

  lemma {:induction false} NoMoverNoCasts(ls: seq<Live>, k: Key)
    requires k !in Movers(ls)
    ensures Casts(ls, k) == 0
  {
    if ls != [] {
      assert ls[0] in ls;
      assert forall l | l in ls[1..] :: l in ls;
      NoMoverNoCasts(ls[1..], k);
    }
  }

  lemma UnmovedIdentity(s: State, u: State, height: int, written: Records, spent: seq<Live>, created: seq<Live>, k: Key)
    requires Indexable(s, u, height) && SpentList(s, u, spent) && CreatedList(s, u, created)
    requires u.records == s.records + written
    requires k !in Movers(spent) && k !in Movers(created) && k !in written
    ensures TreeAt(u, CastCountKey(k)) == TreeAt(s, CastCountKey(k)) && TreeAt(u, LapsedKey(k))
      == TreeAt(s, LapsedKey(k))
  {
    CastsMove(s, u, height, spent, created, k);
    NoMoverNoCasts(spent, k);
    NoMoverNoCasts(created, k);
  }

  /** Every cast count and lapsed entry, over the identities whose record or casts the block moved. */
  lemma CastSection(s: State, u: State, height: int, written: Records, spent: seq<Live>, created: seq<Live>,
    identities: seq<Key>)
    requires Indexable(s, u, height) && SpentList(s, u, spent) && CreatedList(s, u, created)
    requires u.records == s.records + written
    requires Distinct(identities) && Members(identities) == Movers(spent) + Movers(created) + written.Keys
    ensures Section(s, u, Emit(identities, IdentityWriter(s, written, spent, created)), CastDomain)
  {
    var f := IdentityWriter(s, written, spent, created);
    forall k | k in identities ensures Section(s, u, f(k), key => IdentityDomain(k, key)) {
      IdentitySection(s, u, height, written, spent, created, k);
    }
    EmitSection(s, u, identities, f, IdentityDomain);
    forall key | CastDomain(key) && !InSome(identities, IdentityDomain, key) ensures TreeAt(u, key) == TreeAt(s, key) {
      var k := if key.CastCountKey? then key.voucher else key.identity;
      assert IdentityDomain(k, key) && k !in Members(identities);
      UnmovedIdentity(s, u, height, written, spent, created, k);
    }
    Widen(s, u, Emit(identities, f), key => InSome(identities, IdentityDomain, key), CastDomain);
  }

  // ---------------------------------------------------------------------------
  // Records, the network, names and holders
  // ---------------------------------------------------------------------------

  function RecordWrite(written: Records, k: Key): seq<TreeWrite> {
    if k in written then [InsertOrUpdate(IdentityKey(k), IdentityValue(written[k]))] else []
  }

  function RecordWriter(written: Records): Key -> seq<TreeWrite> { (k: Key) => RecordWrite(written, k) }

  lemma RecordSection(s: State, u: State, written: Records, ks: seq<Key>)
    requires u.records == s.records + written && Distinct(ks) && Members(ks) == written.Keys
    ensures Section(s, u, Emit(ks, RecordWriter(written)), IsIdentityKey)
  {
    var f := RecordWriter(written);
    var dom := (k: Key, key: TreeKey) => key == IdentityKey(k);
    forall k | k in ks ensures Section(s, u, f(k), key => dom(k, key)) {
      assert k in Members(ks);
      OneWrite(s, u, f(k)[0], key => dom(k, key));
    }
    EmitSection(s, u, ks, f, dom);
    forall key: TreeKey | key.IdentityKey? && !InSome(ks, dom, key) ensures TreeAt(u, key) == TreeAt(s, key) {
      assert dom(key.identity, key) && key.identity !in Members(ks);
    }
    Widen(s, u, Emit(ks, f), key => InSome(ks, dom, key), IsIdentityKey);
  }

  function NetworkWrites(network: Option<int>): seq<TreeWrite> {
    if network.Some? then [Update(NetworkKey, NetworkValue(network.value))] else []
  }

  lemma NetworkSection(s: State, u: State, network: Option<int>)
    requires network.Some? ==> u.memberCount == network.value
    requires network.None? ==> u.memberCount == s.memberCount
    ensures Section(s, u, NetworkWrites(network), IsNetworkKey)
  {
    if network.Some? {
      OneWrite(s, u, Update(NetworkKey, NetworkValue(network.value)), IsNetworkKey);
    } else {
      NoWrite(s, u, IsNetworkKey);
    }
  }

  function NameWrite(names: map<string, (bool, Option<UsernameRow>)>, name: string): seq<TreeWrite> {
    if name !in names then []
    else if names[name].1.Some? then
      [InsertOrUpdate(NameKey(name), NameValue(names[name].1.value.boxId, names[name].1.value.claimedAtBlock))]
    else if names[name].0 then [Remove(NameKey(name))]
    else []
  }

  function NameWriter(names: map<string, (bool, Option<UsernameRow>)>): string -> seq<TreeWrite> {
    (k: string) => NameWrite(names, k)
  }

  lemma NameSection(s: State, u: State, names: map<string, (bool, Option<UsernameRow>)>, ks: seq<string>)
    requires Written(s.names, u.names, names) && Distinct(ks) && Members(ks) == names.Keys
    ensures Section(s, u, Emit(ks, NameWriter(names)), IsNameKey)
  {
    var f := NameWriter(names);
    var dom := (k: string, key: TreeKey) => key == NameKey(k);
    forall k | k in ks ensures Section(s, u, f(k), key => dom(k, key)) {
      assert k in Members(ks);
      if f(k) == [] {
        NoWrite(s, u, key => dom(k, key));
      } else {
        OneWrite(s, u, f(k)[0], key => dom(k, key));
      }
    }
    EmitSection(s, u, ks, f, dom);
    forall key: TreeKey | key.NameKey? && !InSome(ks, dom, key) ensures TreeAt(u, key) == TreeAt(s, key) {
      assert dom(key.name, key) && key.name !in Members(ks);
    }
    Widen(s, u, Emit(ks, f), key => InSome(ks, dom, key), IsNameKey);
  }

  function HolderWrite(holders: map<Key, (bool, Option<UsernameRow>)>, owner: Key): seq<TreeWrite> {
    if owner !in holders then []
    else if holders[owner].1.Some? then [InsertOrUpdate(HolderKey(owner), HolderValue(holders[owner].1.value.boxId))]
    else if holders[owner].0 then [Remove(HolderKey(owner))]
    else []
  }

  function HolderWriter(holders: map<Key, (bool, Option<UsernameRow>)>): Key -> seq<TreeWrite> {
    (k: Key) => HolderWrite(holders, k)
  }

  lemma HolderSection(s: State, u: State, holders: map<Key, (bool, Option<UsernameRow>)>, ks: seq<Key>)
    requires Written(s.holders, u.holders, holders) && Distinct(ks) && Members(ks) == holders.Keys
    ensures Section(s, u, Emit(ks, HolderWriter(holders)), IsHolderKey)
  {
    var f := HolderWriter(holders);
    var dom := (k: Key, key: TreeKey) => key == HolderKey(k);
    forall k | k in ks ensures Section(s, u, f(k), key => dom(k, key)) {
      assert k in Members(ks);
      if f(k) == [] {
        NoWrite(s, u, key => dom(k, key));
      } else {
        OneWrite(s, u, f(k)[0], key => dom(k, key));
      }
    }
    EmitSection(s, u, ks, f, dom);
    forall key: TreeKey | key.HolderKey? && !InSome(ks, dom, key) ensures TreeAt(u, key) == TreeAt(s, key) {
      assert dom(key.owner, key) && key.owner !in Members(ks);
    }
    Widen(s, u, Emit(ks, f), key => InSome(ks, dom, key), IsHolderKey);
  }

  // ---------------------------------------------------------------------------
  // Posts and likes
  // ---------------------------------------------------------------------------

  function PostWrite(height: int, post: (PostId, Key)): seq<TreeWrite> {
    [Insert(PostKey(post.0), PostValue(post.1, height, true))]
  }

  function PostWriter(height: int): ((PostId, Key)) -> seq<TreeWrite> { (p: (PostId, Key)) => PostWrite(height, p) }

  function WithdrawalWriter(s: State): PostId -> seq<TreeWrite> { (p: PostId) => WithdrawalWrite(s, p) }

  function LikeWriter(): ((PostId, Key)) -> seq<TreeWrite> { (l: (PostId, Key)) => LikeWrite(l) }

  function WithdrawalWrite(s: State, post: PostId): seq<TreeWrite> {
    if post in s.posts then [Update(PostKey(post), PostValue(s.posts[post].author, s.posts[post].height, false))]
        else []
  }

  function LikeWrite(like: (PostId, Key)): seq<TreeWrite> {
    [Insert(LikeKey(like.0, like.1), LikeMarker)]
  }

  /** What the effects say of posts and likes: each new, confirmed or withdrawn once, and nothing else moved. */
  ghost predicate PostsExplained(s: State, u: State, height: int, effects: Effects) {
    && Distinct(effects.posts) && Distinct(effects.withdrawals) && Distinct(effects.likeRecords)
    && (forall p, q | p in effects.posts && q in effects.posts && p.0 == q.0 :: p == q)
    && (forall p | p in effects.posts :: p.0 !in s.posts && p.0 in u.posts && u.posts[p.0] == PostRecord(p.1, height,
       true))
    && (forall p | p in effects.withdrawals :: p in s.posts && p in u.posts && u.posts[p] == s.posts[p].(live := false))
    && (forall id | id in s.posts && id !in effects.withdrawals :: id in u.posts && u.posts[id] == s.posts[id])
    && (forall id | id in u.posts && id !in s.posts :: exists p :: p in effects.posts && p.0 == id)
    && (forall like | like in effects.likeRecords :: like !in s.likes)
    && u.likes == s.likes + Members(effects.likeRecords)
  }

  lemma ConfirmedSection(s: State, u: State, height: int, effects: Effects)
    requires PostsExplained(s, u, height, effects)
    ensures Section(s, u, Emit(effects.posts, PostWriter(height)), NewPostKey(s))
  {
    var ps := effects.posts;
    var f := PostWriter(height);
    var dom := (p: (PostId, Key), key: TreeKey) => p in ps && key == PostKey(p.0);
    forall p | p in ps ensures Section(s, u, f(p), key => dom(p, key)) {
      OneWrite(s, u, f(p)[0], key => dom(p, key));
    }
    EmitSection(s, u, ps, f, dom);
    forall key: TreeKey | key.PostKey? && key.post !in s.posts && !InSome(ps, dom, key)
      ensures TreeAt(u, key) == TreeAt(s, key)
    {
      forall p | p in ps ensures p.0 != key.post {
        assert dom(p, PostKey(p.0));
      }
    }
    Widen(s, u, Emit(ps, f), key => InSome(ps, dom, key), NewPostKey(s));
  }

  lemma Renamed(s: State, u: State, ws: seq<TreeWrite>, p: TreeKey -> bool, q: TreeKey -> bool)
    requires Section(s, u, ws, p) && forall key :: p(key) <==> q(key)
    ensures Section(s, u, ws, q)
  {
    forall key | q(key) ensures Settled(s, u, ws, key) {
      assert p(key);
    }
  }

  lemma WithdrawnWrites(s: State, u: State, height: int, effects: Effects, p: PostId)
    requires PostsExplained(s, u, height, effects) && p in effects.withdrawals
    ensures Section(s, u, WithdrawalWriter(s)(p), key => key == PostKey(p))
  {
    OneWrite(s, u, WithdrawalWriter(s)(p)[0], key => key == PostKey(p));
  }

  lemma WithdrawnSection(s: State, u: State, height: int, effects: Effects)
    requires PostsExplained(s, u, height, effects)
    ensures Section(s, u, Emit(effects.withdrawals, WithdrawalWriter(s)), OldPostKey(s))
  {
    var ps := effects.withdrawals;
    var f := WithdrawalWriter(s);
    var dom := (p: PostId, key: TreeKey) => key == PostKey(p);
    forall p | p in ps ensures Section(s, u, f(p), key => dom(p, key)) {
      WithdrawnWrites(s, u, height, effects, p);
      Renamed(s, u, f(p), key => key == PostKey(p), key => dom(p, key));
    }
    EmitSection(s, u, ps, f, dom);
    forall key: TreeKey | key.PostKey? && key.post in s.posts && !InSome(ps, dom, key)
      ensures TreeAt(u, key) == TreeAt(s, key)
    {
      assert dom(key.post, key);
    }
    Widen(s, u, Emit(ps, f), key => InSome(ps, dom, key), OldPostKey(s));
  }

  lemma LikeSection(s: State, u: State, height: int, effects: Effects)
    requires PostsExplained(s, u, height, effects)
    ensures Section(s, u, Emit(effects.likeRecords, LikeWriter()), IsLikeKey)
  {
    var ls := effects.likeRecords;
    var dom := (l: (PostId, Key), key: TreeKey) => key == LikeKey(l.0, l.1);
    forall l | l in ls ensures Section(s, u, LikeWriter()(l), key => dom(l, key)) {
      assert l in Members(ls);
      OneWrite(s, u, LikeWrite(l)[0], key => dom(l, key));
    }
    forall x: (PostId, Key), y: (PostId, Key), key | x != y ensures !(dom(x, key) && dom(y, key)) {
      assert x == (x.0, x.1) && y == (y.0, y.1);
    }
    EmitSection(s, u, ls, LikeWriter(), dom);
    forall key: TreeKey | key.LikeKey? && !InSome(ls, dom, key) ensures TreeAt(u, key) == TreeAt(s, key) {
      assert dom((key.post, key.liker), key) && (key.post, key.liker) !in Members(ls);
    }
    Widen(s, u, Emit(ls, LikeWriter()), key => InSome(ls, dom, key), IsLikeKey);
  }
}
