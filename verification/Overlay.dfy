/** The block-local layer every read and write of a block goes through. */
module Overlays {
  import opened Wrappers
  import opened Sums
  import opened Orders
  import opened Ledger
  import opened Engine
  import opened Body
  import opened Coinbase
  import opened Queries
  import opened StateReads
  import opened Sorting
  import opened Effects

  datatype Standing = LivePost | WithdrawnPost | NoPost

  /** The view's entries, with the block's own over them; a written none is a removal. */
  function Over<K(!new), V(!new)>(base: map<K, V>, written: map<K, Option<V>>): (m: map<K, V>)
    ensures forall k :: k in m <==> (if k in written then written[k].Some? else k in base)
    ensures forall k | k in m :: m[k] == if k in written then written[k].value else base[k]
  {
    map k | k in base.Keys + written.Keys && (if k in written then written[k].Some? else true) ::
      if k in written then written[k].value else base[k]
  }

  lemma OverPut<K(!new), V(!new)>(base: map<K, V>, written: map<K, Option<V>>, k: K, v: Option<V>)
    ensures Over(base, written[k := v]) == PutOrDrop(Over(base, written), k, v)
  {
  }

  /** The base boxes and the inserted, less the spent. */
  function BoxesOver(base: Boxes, inserted: Boxes, spent: Boxes): (m: Boxes) {
    (base + inserted) - spent.Keys
  }

  ghost predicate SpentKnown(base: Boxes, inserted: Boxes, spent: Boxes) {
    forall id | id in spent :: (id in inserted && spent[id] == inserted[id]) || (id in base && spent[id] == base[id])
  }

  lemma OverInsert(base: Boxes, inserted: Boxes, spent: Boxes, id: BoxId, box: Box)
    requires id !in base && id !in inserted && SpentKnown(base, inserted, spent)
    ensures BoxesOver(base, inserted[id := box], spent) == BoxesOver(base, inserted, spent)[id := box]
    ensures SpentKnown(base, inserted[id := box], spent)
  {
    assert id !in spent;
  }

  lemma OverConsume(base: Boxes, inserted: Boxes, spent: Boxes, id: BoxId)
    requires id in BoxesOver(base, inserted, spent) && inserted.Keys !! base.Keys && SpentKnown(base, inserted, spent)
    ensures var box := BoxesOver(base, inserted, spent)[id];
      && BoxesOver(base, inserted, spent[id := box]) == BoxesOver(base, inserted, spent) - {id}
      && SpentKnown(base, inserted, spent[id := box])
  {
    var box := BoxesOver(base, inserted, spent)[id];
    assert spent[id := box].Keys == spent.Keys + {id};
    assert BoxesOver(base, inserted, spent[id := box]) == BoxesOver(base, inserted, spent) - {id};
  }

  predicate IsAdded(inserted: Boxes, spent: Boxes, p: Box -> bool, l: Live) {
    l.id in inserted && l.id !in spent && inserted[l.id] == l.box && p(l.box)
  }

  lemma LivesOver(base: Boxes, inserted: Boxes, spent: Boxes, p: Box -> bool, l: Live)
    requires inserted.Keys !! base.Keys
    ensures l in LivesWhere(BoxesOver(base, inserted, spent), p)
      <==> IsAdded(inserted, spent, p, l) || IsAdded(base, spent, p, l)
  {
    var m := BoxesOver(base, inserted, spent);
    assert l == Live(l.id, l.box);
    if l.id in m && m[l.id] == l.box && p(l.box) {
      assert l == Live(l.id, m[l.id]);
    }
  }

  /** Boxes the block neither spent nor inserted are listed as before. */
  lemma UntouchedLives(base: Boxes, inserted: Boxes, spent: Boxes, p: Box -> bool, q: Box -> bool)
    requires inserted.Keys !! base.Keys && SpentKnown(base, inserted, spent)
    requires forall id | id in base :: p(base[id]) <==> q(base[id])
    requires forall id | id in spent && id in base :: !q(spent[id])
    requires forall id | id in inserted :: !p(inserted[id])
    ensures LivesWhere(BoxesOver(base, inserted, spent), p) == LivesWhere(base, q)
  {
    forall l ensures l in LivesWhere(BoxesOver(base, inserted, spent), p) <==> l in LivesWhere(base, q) {
      LivesOver(base, inserted, spent, p, l);
    }
  }

  /** The mutations, played over the view, give a state's boxes, records, count, names and holders. */
  ghost predicate PlayedTo(view: State, ms: seq<Mutation>, now: State) {
    var played := PlayAll(view, ms);
    && AllLegal(view, ms)
    && played.boxes == now.boxes && played.records == now.records && played.memberCount == now.memberCount
    && played.names == now.names && played.holders == now.holders
  }

  ghost predicate SameLedger(a: State, b: State) {
    a.boxes == b.boxes && a.records == b.records && a.memberCount == b.memberCount && a.names == b.names && a.holders
        == b.holders
  }

  lemma PlayedNext(view: State, ms: seq<Mutation>, now: State, m: Mutation, next: State)
    requires PlayedTo(view, ms, now) && Legal(view, now, m) && SameLedger(next, Play(now, m))
    ensures PlayedTo(view, ms + [m], next)
  {
    PlayedSnoc(view, ms, m);
  }

  lemma PutOver(below: Records, written: Records, identity: Key, record: IdentityRecord)
    ensures below + written[identity := record] == (below + written)[identity := record]
  {
  }

  predicate InvitedIn(r: Option<IdentityRecord>, maxInvitedAt: int) {
    r.Some? && 0 < r.value.invitedAtBlock <= maxInvitedAt
  }

  function InvitedUpTo(maxInvitedAt: int): Option<IdentityRecord> -> bool {
    (r: Option<IdentityRecord>) => InvitedIn(r, maxInvitedAt)
  }

  predicate LapsedRecord(r: Option<IdentityRecord>) { r.Some? && IsLapsedMember(r.value) }

  class BlockOverlay {
    const ctx: Ctx
    const view: State
    var inserted: Boxes
    var spent: Boxes
    var records: Records
    var network: Option<int>
    var names: map<string, Option<UsernameRow>>
    var holders: map<Key, Option<UsernameRow>>
    var topology: map<PostId, (Key, int)>
    var withdrawn: set<PostId>
    var likes: set<(PostId, Key)>
    var mutations: seq<Mutation>
    var likeRecords: seq<(PostId, Key)>
    var withdrawals: seq<PostId>

    /** The state as the block has left it. */
    function Now(): State
      reads this
    {
      State(
        BoxesOver(view.boxes, inserted, spent),
        view.records + records,
        if network.Some? then network.value else view.memberCount,
        Over(view.names, names),
        Over(view.holders, holders),
        PostsNow(),
        view.likes + likes)
    }

    /** The post record keeps a post's first confirmation; a post the block confirmed is live. */
    function PostsNow(): map<PostId, PostRecord>
      reads this
    {
      map p | p in view.posts.Keys + topology.Keys ::
        if p in view.posts then view.posts[p].(live := view.posts[p].live && p !in withdrawn)
        else PostRecord(topology[p].0, topology[p].1, p !in withdrawn)
    }

    /** The ids an insert may not take: every one live before the block, and every one it inserted. */
    function Taken(): set<BoxId>
      reads this
    {
      view.boxes.Keys + inserted.Keys
    }

    ghost predicate Valid()
      reads this
    {
      && inserted.Keys !! view.boxes.Keys
      && SpentKnown(view.boxes, inserted, spent)
      && PlayedTo(view, mutations, Now())
      && withdrawn == Members(withdrawals)
    }

    constructor (ctx: Ctx, view: State)
      ensures Valid() && this.ctx == ctx && this.view == view && Now() == view
      ensures inserted == map[] && spent == map[] && records == map[] && network.None? && topology == map[] && likes
        == {}
      ensures mutations == [] && likeRecords == [] && withdrawals == []
    {
      this.ctx := ctx;
      this.view := view;
      inserted, spent, records, network := map[], map[], map[], None;
      names, holders, topology, withdrawn, likes := map[], map[], map[], {}, {};
      mutations, likeRecords, withdrawals := [], [], [];
      new;
      assert Now().boxes == view.boxes && Now().records == view.records;
      assert Now().names == view.names && Now().holders == view.holders && Now().posts == view.posts;
    }

    // -------------------------------------------------------------------------
    // Keyed reads
    // -------------------------------------------------------------------------

    function GetBox(id: BoxId): (b: Option<Box>)
      reads this
      requires Valid()
      ensures b == if id in Now().boxes then Some(Now().boxes[id]) else None
    {
      if id in spent then None
      else if id in inserted then Some(inserted[id])
      else if id in view.boxes then Some(view.boxes[id])
      else None
    }

    function GetIdentityRecord(identity: Key): (r: Option<IdentityRecord>)
      reads this
      ensures r == RecordOf(Now().records, identity)
    {
      if identity in records then Some(records[identity]) else RecordOf(view.records, identity)
    }

    function GetNetworkRecord(): (memberCount: int)
      reads this
      ensures memberCount == Now().memberCount
    {
      if network.Some? then network.value else view.memberCount
    }

    function GetUsername(name: string): (row: Option<UsernameRow>)
      reads this
      ensures row == if name in Now().names then Some(Now().names[name]) else None
    {
      if name in names then names[name] else if name in view.names then Some(view.names[name]) else None
    }

    function GetUsernameByOwner(owner: Key): (row: Option<UsernameRow>)
      reads this
      ensures row == if owner in Now().holders then Some(Now().holders[owner]) else None
    {
      if owner in holders then holders[owner] else if owner in view.holders then Some(view.holders[owner]) else None
    }

    function GetTopologyAuthor(post: PostId): (author: Option<Key>)
      reads this
      ensures author == TopologyAuthor(Now(), post)
    {
      if post in view.posts then Some(view.posts[post].author)
      else if post in topology then Some(topology[post].0)
      else None
    }

    function GetTopologyHeight(post: PostId): (height: Option<int>)
      reads this
      ensures height == if post in Now().posts then Some(Now().posts[post].height) else None
    {
      if post in view.posts then Some(view.posts[post].height)
      else if post in topology then Some(topology[post].1)
      else None
    }

    function GetPostStanding(post: PostId): (standing: Standing)
      reads this
      ensures standing.LivePost? <==> post in Now().posts && Now().posts[post].live
      ensures standing.NoPost? <==> post !in Now().posts && post !in withdrawn
    {
      if post in withdrawn then WithdrawnPost
      else if post in view.posts then (if view.posts[post].live then LivePost else WithdrawnPost)
      else if post in topology then LivePost
      else NoPost
    }

    function HasLikeRecord(target: PostId, liker: Key): (has: bool)
      reads this
      ensures has <==> (target, liker) in Now().likes
    {
      (target, liker) in likes || (target, liker) in view.likes
    }

    // -------------------------------------------------------------------------
    // Composed queries
    // -------------------------------------------------------------------------

    /** The block's live inserts that the query lists. */
    method Added(p: Box -> bool) returns (ls: seq<Live>)
      ensures Distinct(ls) && forall l :: l in ls <==> IsAdded(inserted, spent, p, l)
    {
      ls := [];
      var left := inserted.Keys;
      while left != {}
        invariant left <= inserted.Keys && Distinct(ls)
        invariant forall l :: l in ls <==> IsAdded(inserted, spent, p, l) && l.id !in left
        decreases |left|
      {
        var id :| id in left;
        if id !in spent && p(inserted[id]) {
          var l := Live(id, inserted[id]);
          assert l !in ls;
          DistinctJoin(ls, [l]);
          ls := ls + [l];
        }
        left := left - {id};
      }
    }

    /** The view's answer less the block's spends, plus the block's live inserts, in the query's order. */
    method Compose(fromView: seq<Live>, p: Box -> bool, key: LiveKey) returns (ls: seq<Live>)
      requires Valid() && RanksIds(ctx, key)
      requires fromView == Sorted(LivesWhere(view.boxes, p), key)
      ensures ls == Sorted(LivesWhere(Now().boxes, p), key)
    {
      var kept := LessSpent(fromView, spent.Keys);
      var added := Added(p);
      ComposedMembers(fromView, p, key, kept, added);
      LivesApart(ctx, Now().boxes, p, key);
      if added == [] {
        SortedInOrder(LivesWhere(view.boxes, p), key);
        SortedLists(LivesWhere(view.boxes, p), key);
        LessSpentOrdered(fromView, spent.Keys, key);
        SortedIsUnique(LivesWhere(Now().boxes, p), key, kept);
        ls := kept;
      } else {
        ls := SortByKey(kept + added, key);
      }
    }

    lemma ComposedMembers(fromView: seq<Live>, p: Box -> bool, key: LiveKey, kept: seq<Live>, added: seq<Live>)
      requires Valid()
      requires fromView == Sorted(LivesWhere(view.boxes, p), key) && kept == LessSpent(fromView, spent.Keys)
      requires Distinct(added) && forall l :: l in added <==> IsAdded(inserted, spent, p, l)
      ensures Distinct(kept + added) && Members(kept + added) == LivesWhere(Now().boxes, p)
      ensures added == [] ==> Members(kept) == LivesWhere(Now().boxes, p)
    {
      SortedInOrder(LivesWhere(view.boxes, p), key);
      SortedLists(LivesWhere(view.boxes, p), key);
      LessSpentOrdered(fromView, spent.Keys, key);
      forall l ensures l in kept <==> IsAdded(view.boxes, spent, p, l) {
        assert l in fromView <==> l in Members(fromView);
      }
      forall i, j | 0 <= i < |kept| && 0 <= j < |added| ensures kept[i] != added[j] {
        assert kept[i] in kept && added[j] in added;
      }
      DistinctJoin(kept, added);
      forall l ensures l in Members(kept + added) <==> l in LivesWhere(Now().boxes, p) {
        LivesOver(view.boxes, inserted, spent, p, l);
        assert l in kept + added <==> l in kept || l in added;
      }
      assert added == [] ==> kept + added == kept;
    }

    method GetKarmaBoxes(owner: Key, fromView: seq<Live>) returns (ls: seq<Live>)
      requires Valid() && RanksApart(ctx) && fromView == KarmaBoxes(ctx, view.boxes, owner)
      ensures ls == KarmaBoxes(ctx, Now().boxes, owner)
    {
      ByRankRanks(ctx);
      ls := Compose(fromView, KarmaOf(owner), ByValue(ctx));
    }

    method GetLikeAccrualBoxes(author: Key, fromView: seq<Live>) returns (ls: seq<Live>)
      requires Valid() && RanksApart(ctx) && fromView == AccrualBoxes(ctx, view.boxes, author)
      ensures ls == AccrualBoxes(ctx, Now().boxes, author)
    {
      ByRankRanks(ctx);
      ls := Compose(fromView, AccrualOf(author), ByRank(ctx));
    }

    method GetVouchEscrowsFor(voucher: Key, fromView: seq<Live>) returns (ls: seq<Live>)
      requires Valid() && RanksApart(ctx) && fromView == EscrowBoxes(ctx, view.boxes, voucher)
      ensures ls == EscrowBoxes(ctx, Now().boxes, voucher)
    {
      ByRankRanks(ctx);
      ls := Compose(fromView, EscrowOf(voucher), ByRank(ctx));
    }

    method GetVouchBoxes(voucher: Key, target: Key, fromView: seq<Live>) returns (ls: seq<Live>)
      requires Valid() && RanksApart(ctx) && fromView == PairBoxes(ctx, view.boxes, voucher, target)
      ensures ls == PairBoxes(ctx, Now().boxes, voucher, target)
    {
      ByRankRanks(ctx);
      ls := Compose(fromView, PairOf(voucher, target), ByRank(ctx));
    }

    // -------------------------------------------------------------------------
    // Limited queries
    // -------------------------------------------------------------------------

    /** Whether the block spent or inserted a box `p` admits. */
    function Touched(p: Box -> bool): bool
      reads this
    {
      (exists id | id in spent :: p(spent[id])) || (exists id | id in inserted :: p(inserted[id]))
    }

    lemma UntouchedSame(p: Box -> bool)
      requires Valid() && !Touched(p)
      ensures LivesWhere(Now().boxes, p) == LivesWhere(view.boxes, p)
    {
      UntouchedLives(view.boxes, inserted, spent, p, p);
    }

    /** A protocol type's one box, or the tripwire where the block wrote one. */
    function GetProtocolBox(p: Box -> bool, fromView: Option<Live>): (r: Option<Option<Live>>)
      reads this
      requires Valid() && fromView == FirstLive(ctx, view.boxes, p)
      ensures r.Some? ==> r.value == FirstLive(ctx, Now().boxes, p)
      ensures r.None? <==> Touched(p)
    {
      if Touched(p) then None else UntouchedSame(p); Some(fromView)
    }

    /** Whether a record the block wrote answers a membership question differently from the view's. */
    predicate RecordWritesMove(inSet: Option<IdentityRecord> -> bool)
      reads this
    {
      exists k | k in records :: inSet(Some(records[k])) != inSet(RecordOf(view.records, k))
    }

    /** A grant height, once set, is not moved. */
    predicate GrantHeightsKept()
      reads this
    {
      forall k | k in records && k in view.records && view.records[k].invitedAtBlock != 0 ::
        records[k].invitedAtBlock == view.records[k].invitedAtBlock
    }

    predicate BondsTouched(maxInvitedAt: int)
      reads this
      requires Valid()
    {
      || (exists id | id in spent :: spent[id].Bond?)
      || (exists id | id in inserted ::
            inserted[id].Bond? && InvitedIn(GetIdentityRecord(inserted[id].inviteePublicKey), maxInvitedAt))
      || RecordWritesMove(InvitedUpTo(maxInvitedAt))
    }

    lemma BondsUntouchedSame(maxInvitedAt: int)
      requires Valid() && !BondsTouched(maxInvitedAt) && GrantHeightsKept()
      ensures DueBonds(Now(), maxInvitedAt) == DueBonds(view, maxInvitedAt)
    {
      forall d ensures d in DueBonds(Now(), maxInvitedAt) <==> d in DueBonds(view, maxInvitedAt) {
        BondDueSame(d.bond.id, maxInvitedAt);
      }
    }

    ghost predicate DueIn(s: State, id: BoxId, maxInvitedAt: int) {
      id in s.boxes && InvitedBy(s.records, s.boxes[id], maxInvitedAt)
    }

    ghost predicate DueAlike(a: State, b: State, id: BoxId)
      requires id in a.boxes && a.boxes[id].Bond? && a.boxes[id].inviteePublicKey in a.records
    {
      && id in b.boxes && b.boxes[id] == a.boxes[id]
      && a.boxes[id].inviteePublicKey in b.records
      && a.records[a.boxes[id].inviteePublicKey].invitedAtBlock
         == b.records[a.boxes[id].inviteePublicKey].invitedAtBlock
    }

    lemma BondDueSame(id: BoxId, maxInvitedAt: int)
      requires Valid() && !BondsTouched(maxInvitedAt) && GrantHeightsKept()
      ensures DueIn(Now(), id, maxInvitedAt) <==> DueIn(view, id, maxInvitedAt)
      ensures DueIn(Now(), id, maxInvitedAt) ==> DueAlike(Now(), view, id)
    {
      if id in view.boxes && view.boxes[id].Bond? {
        var k := view.boxes[id].inviteePublicKey;
        assert id !in spent;
        assert k in records ==>
            InvitedIn(Some(records[k]), maxInvitedAt) == InvitedIn(RecordOf(view.records, k), maxInvitedAt);
      } else if id in inserted && inserted[id].Bond? {
        assert !InvitedIn(GetIdentityRecord(inserted[id].inviteePublicKey), maxInvitedAt);
      }
    }

    /** The bonds due, or the tripwire; the state's own answer while no grant height already set has moved. */
    function GetBondsInvitedAt(maxInvitedAt: int, fromView: seq<Live>): (r: Option<seq<Live>>)
      reads this
      requires Valid() && fromView == BondsInvitedAt(ctx, view, maxInvitedAt)
      ensures r.Some? && GrantHeightsKept() ==> r.value == BondsInvitedAt(ctx, Now(), maxInvitedAt)
      ensures r.None? <==> BondsTouched(maxInvitedAt)
    {
      if BondsTouched(maxInvitedAt) then None
      else
        assert GrantHeightsKept() ==> DueBonds(Now(), maxInvitedAt) == DueBonds(view, maxInvitedAt) by {
          if GrantHeightsKept() {
            BondsUntouchedSame(maxInvitedAt);
          }
        }
        Some(fromView)
    }

    predicate EscrowsTouched(height: int)
      reads this
    {
      || (exists id | id in spent :: spent[id].VouchEscrow?)
      || (exists id | id in inserted :: ReleasableBy(height)(inserted[id]))
    }

    function GetVouchEscrowsReleasableAt(height: int, fromView: seq<Live>): (r: Option<seq<Live>>)
      reads this
      requires Valid() && fromView == EscrowsReleasableAt(ctx, view.boxes, height)
      ensures r.Some? ==> r.value == EscrowsReleasableAt(ctx, Now().boxes, height)
      ensures r.None? <==> EscrowsTouched(height)
    {
      if EscrowsTouched(height) then None
      else
        UntouchedLives(view.boxes, inserted, spent, ReleasableBy(height), ReleasableBy(height));
        Some(fromView)
    }

    predicate LapsesTouched()
      reads this
      requires Valid()
    {
      || (exists id | id in spent :: spent[id].Vouch?)
      || (exists id | id in inserted :: inserted[id].Vouch? && LapsedRecord(GetIdentityRecord(inserted[id].voucherId)))
      || RecordWritesMove(LapsedRecord)
    }

    lemma LapsesUntouchedSame()
      requires Valid() && !LapsesTouched()
      ensures LivesWhere(Now().boxes, LapsedIn(Now().records)) == LivesWhere(view.boxes, LapsedIn(view.records))
    {
      forall id | id in view.boxes
        ensures LapsedIn(Now().records)(view.boxes[id]) <==> LapsedIn(view.records)(view.boxes[id])
      {
        if view.boxes[id].Vouch? {
          var k := view.boxes[id].voucherId;
          assert k in records ==> LapsedRecord(Some(records[k])) == LapsedRecord(RecordOf(view.records, k));
        }
      }
      forall id | id in inserted ensures !LapsedIn(Now().records)(inserted[id]) {
        assert inserted[id].Vouch? ==> !LapsedRecord(GetIdentityRecord(inserted[id].voucherId));
      }
      UntouchedLives(view.boxes, inserted, spent, LapsedIn(Now().records), LapsedIn(view.records));
    }

    function GetLapsedVouches(fromView: seq<Live>): (r: Option<seq<Live>>)
      reads this
      requires Valid() && fromView == LapsedVouches(view)
      ensures r.Some? ==> r.value == LapsedVouches(Now())
      ensures r.None? <==> LapsesTouched()
    {
      if LapsesTouched() then None else LapsesUntouchedSame(); Some(fromView)
    }

    // -------------------------------------------------------------------------
    // Writes
    // -------------------------------------------------------------------------

    /** Everything but the boxes is as it was. */
    twostate predicate OnlyBoxesMove()
      reads this
    {
      Now() == old(Now()).(boxes := Now().boxes) && Kept()
    }

    twostate predicate Kept()
      reads this
    {
      likeRecords == old(likeRecords) && withdrawals == old(withdrawals)
    }

    /** No mutation is added, and no box moves. */
    twostate predicate BoxWritesKept()
      reads this
    {
      mutations == old(mutations) && inserted == old(inserted) && spent == old(spent)
    }

    method InsertBox(id: BoxId, box: Box) returns (ok: bool)
      requires Valid()
      modifies this`inserted, this`mutations
      ensures Valid() && OnlyBoxesMove()
      ensures ok <==> id !in old(inserted) && id !in view.boxes
      ensures Now().boxes == if ok then old(Now()).boxes[id := box] else old(Now()).boxes
      ensures inserted == if ok then old(inserted)[id := box] else old(inserted)
    {
      ok := id !in inserted && id !in view.boxes;
      if ok {
        OverInsert(view.boxes, inserted, spent, id, box);
        inserted := inserted[id := box];
        mutations := mutations + [InsertedBox(id, box)];
        PlayedNext(view, old(mutations), old(Now()), InsertedBox(id, box), Now());
      }
    }

    method ConsumeBox(id: BoxId) returns (ok: bool)
      requires Valid()
      modifies this`spent, this`mutations
      ensures Valid() && OnlyBoxesMove()
      ensures ok <==> id in old(Now()).boxes
      ensures Now().boxes == if ok then old(Now()).boxes - {id} else old(Now()).boxes
    {
      var box := GetBox(id);
      ok := box.Some?;
      if ok {
        OverConsume(view.boxes, inserted, spent, id);
        spent := spent[id := box.value];
        mutations := mutations + [RemovedBox(id)];
        PlayedNext(view, old(mutations), old(Now()), RemovedBox(id), Now());
      }
    }

    method PutIdentityRecord(identity: Key, record: IdentityRecord)
      requires Valid()
      modifies this`records, this`mutations
      ensures Valid() && Kept() && records == old(records)[identity := record]
      ensures Now() == old(Now()).(records := old(Now()).records[identity := record])
    {
      records := records[identity := record];
      mutations := mutations + [PutRecord(identity, record)];
      PutOver(view.records, old(records), identity, record);
      PlayedNext(view, old(mutations), old(Now()), PutRecord(identity, record), Now());
    }

    method PutNetworkRecord(memberCount: int)
      requires Valid()
      modifies this`network, this`mutations
      ensures Valid() && Kept()
      ensures Now() == old(Now()).(memberCount := memberCount)
    {
      network := Some(memberCount);
      mutations := mutations + [PutNetwork(memberCount)];
      PlayedNext(view, old(mutations), old(Now()), PutNetwork(memberCount), Now());
    }

    method WriteName(name: string, row: Option<UsernameRow>)
      requires Valid()
      modifies this`names, this`mutations
      ensures Valid() && Kept()
      ensures Now() == old(Now()).(names := PutOrDrop(old(Now()).names, name, row))
    {
      var held := GetUsername(name).Some?;
      OverPut(view.names, names, name, row);
      names := names[name := row];
      mutations := mutations + [PutName(name, row, held)];
      PlayedNext(view, old(mutations), old(Now()), PutName(name, row, held), Now());
    }

    method WriteHolder(owner: Key, row: Option<UsernameRow>)
      requires Valid()
      modifies this`holders, this`mutations
      ensures Valid() && Kept()
      ensures Now() == old(Now()).(holders := PutOrDrop(old(Now()).holders, owner, row))
    {
      var held := GetUsernameByOwner(owner).Some?;
      OverPut(view.holders, holders, owner, row);
      holders := holders[owner := row];
      mutations := mutations + [PutHolder(owner, row, held)];
      PlayedNext(view, old(mutations), old(Now()), PutHolder(owner, row, held), Now());
    }

    /** A claim: the name record and its owner's. */
    method PutUsernameRow(row: UsernameRow)
      requires Valid()
      modifies this`names, this`holders, this`mutations
      ensures Valid() && Kept()
      ensures Now() == PutUsername(old(Now()), row)
    {
      WriteName(row.nameLower, Some(row));
      WriteHolder(row.owner, Some(row));
    }

    /** A burn: both records removed; a name no record holds writes nothing. */
    method DeleteUsernameRow(name: string)
      requires Valid()
      modifies this`names, this`holders, this`mutations
      ensures Valid() && Kept()
      ensures Now() == DeleteUsername(old(Now()), name)
    {
      var existing := GetUsername(name);
      if existing.Some? {
        WriteName(name, None);
        WriteHolder(existing.value.owner, None);
      }
    }

    /** A post the block confirms, with its author and height; an earlier confirmation stands. */
    method ConfirmPost(post: PostId, author: Key, height: int)
      requires Valid()
      modifies this`topology
      ensures Valid() && Kept() && BoxWritesKept()
      ensures topology == if post in old(topology) then old(topology) else old(topology)[post := (author, height)]
      ensures Now() == old(Now()).(posts :=
        if post in old(Now()).posts then old(Now()).posts
        else old(Now()).posts[post := PostRecord(author, height, post !in withdrawn)])
    {
      if post !in topology {
        topology := topology[post := (author, height)];
      }
      assert Now().posts ==
        if post in old(Now()).posts then old(Now()).posts
        else old(Now()).posts[post := PostRecord(author, height, post !in withdrawn)];
    }

    /** A post withdrawn is not live from here on; an id no record holds is remembered all the same. */
    method WithdrawPost(post: PostId)
      requires Valid()
      modifies this`withdrawn, this`withdrawals
      ensures Valid() && withdrawals == old(withdrawals) + [post] && likeRecords == old(likeRecords)
      ensures withdrawn == old(withdrawn) + {post} && BoxWritesKept()
      ensures Now() == old(Now()).(posts :=
        if post in old(Now()).posts then old(Now()).posts[post := old(Now()).posts[post].(live := false)]
            else old(Now()).posts)
    {
      withdrawn := withdrawn + {post};
      withdrawals := withdrawals + [post];
      assert withdrawn == Members(withdrawals);
      assert Now().posts ==
        if post in old(Now()).posts then old(Now()).posts[post := old(Now()).posts[post].(live := false)]
            else old(Now()).posts;
    }

    method InsertLikeRecord(target: PostId, liker: Key)
      requires Valid()
      modifies this`likes, this`likeRecords
      ensures Valid() && likeRecords == old(likeRecords) + [(target, liker)] && withdrawals == old(withdrawals)
      ensures likes == old(likes) + {(target, liker)} && BoxWritesKept()
      ensures Now() == old(Now()).(likes := old(Now()).likes + {(target, liker)})
    {
      likes := likes + {(target, liker)};
      likeRecords := likeRecords + [(target, liker)];
      assert Now().likes == old(Now()).likes + {(target, liker)};
    }
  }
}
