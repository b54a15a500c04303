/** A block's posts and withdrawals over the overlay, and what its effects say of them. */
module ApplyPosts {
  import opened Wrappers
  import opened Sums
  import opened Ledger
  import opened Engine
  import opened Body
  import opened Blocks
  import opened Effects
  import opened TreeBlock
  import opened Sorting
  import opened Overlays
  import opened ApplyBody

  // ---------------------------------------------------------------------------
  // Confirming
  // ---------------------------------------------------------------------------

  /** The posts the entries carry, in committed order. */
  function PostsIn(entries: seq<Tx>): (posts: seq<(PostId, Key)>) {
    if entries == [] then []
    else
      var core := entries[0].core;
      (if core.payload.Post? then [(PostOf(core), core.payload.author)] else []) + PostsIn(entries[1..])
  }

  ghost predicate NamesPost(posts: seq<(PostId, Key)>, id: PostId) {
    exists p :: p in posts && p.0 == id
  }

  lemma OneMorePost(posts: seq<(PostId, Key)>, post: (PostId, Key))
    ensures forall p :: p in posts + [post] <==> p in posts || p == post
    ensures forall id :: NamesPost(posts + [post], id) <==> NamesPost(posts, id) || id == post.0
  {
    var more := posts + [post];
    forall id ensures NamesPost(more, id) <==> NamesPost(posts, id) || id == post.0 {
      if NamesPost(posts, id) {
        var p :| p in posts && p.0 == id;
        assert p in more;
      }
      assert post in more;
    }
  }

  ghost predicate PostsListed(rows: map<PostId, (Key, int)>, posts: seq<(PostId, Key)>, height: int) {
    && (forall p | p in posts :: p.0.PostOf? && p.0.creator.payload.Post? && p.1 == p.0.creator.payload.author)
    && (forall p | p in posts :: p.0 in rows)
    && (forall id | id in rows :: NamesPost(posts, id) && rows[id] == (id.creator.payload.author, height))
  }

  /** The overlay's rows are the listed posts', at this height. */
  ghost predicate PostsNoted(state: BlockOverlay, posts: seq<(PostId, Key)>, height: int)
    reads state
  {
    PostsListed(state.topology, posts, height)
  }

  method ConfirmOne(state: BlockOverlay, core: TxCore, height: nat,
    posts: seq<(PostId, Key)>) returns (more: seq<(PostId, Key)>)
    requires state.Valid() && state.withdrawn == {} && PostsNoted(state, posts, height)
    modifies state`topology
    ensures state.Valid() && state.Kept() && state.BoxWritesKept() && PostsNoted(state, more, height)
    ensures state.Now() == old(state.Now()).(posts := ConfirmPost(old(state.Now()).posts, core, height))
    ensures more == posts + if core.payload.Post? then [(PostOf(core), core.payload.author)] else []
  {
    more := posts;
    if core.payload.Post? {
      var post := (PostOf(core), core.payload.author);
      more := posts + [post];
      state.ConfirmPost(post.0, post.1, height);
      OneMorePost(posts, post);
    }
  }

  lemma ConfirmUnrolls(posts: map<PostId, PostRecord>, entries: seq<Tx>, i: nat, height: nat)
    requires i < |entries|
    ensures ConfirmPosts(posts, entries[i..], height)
      == ConfirmPosts(ConfirmPost(posts, entries[i].core, height), entries[i + 1..], height)
  {
    assert entries[i..][1..] == entries[i + 1..];
  }

  lemma {:induction false} PostsJoin(a: seq<Tx>, b: seq<Tx>)
    ensures PostsIn(a + b) == PostsIn(a) + PostsIn(b)
  {
    if a == [] {
      assert a + b == b;
    } else {
      assert (a + b)[1..] == a[1..] + b;
      PostsJoin(a[1..], b);
    }
  }

  lemma PostsSnoc(entries: seq<Tx>, i: nat)
    requires i < |entries|
    ensures PostsIn(entries[..i + 1])
      == PostsIn(entries[..i])
      + if entries[i].core.payload.Post? then [(PostOf(entries[i].core), entries[i].core.payload.author)] else []
  {
    assert entries[..i + 1] == entries[..i] + [entries[i]];
    PostsJoin(entries[..i], [entries[i]]);
    assert PostsIn([entries[i]][1..]) == [];
  }

  method ConfirmBody(state: BlockOverlay, entries: seq<Tx>, height: nat) returns (posts: seq<(PostId, Key)>)
    requires state.Valid() && state.withdrawn == {} && state.topology == map[]
    modifies state`topology
    ensures state.Valid() && state.Kept() && state.BoxWritesKept() && PostsNoted(state, posts, height)
    ensures state.Now() == old(state.Now()).(posts := ConfirmPosts(old(state.Now()).posts, entries, height))
    ensures posts == PostsIn(entries)
  {
    posts := [];
    ghost var start := state.Now();
    assert entries[0..] == entries;
    for i := 0 to |entries|
      invariant state.Valid() && state.Kept() && state.BoxWritesKept() && PostsNoted(state, posts, height)
      invariant state.Now() == start.(posts := state.Now().posts)
      invariant ConfirmPosts(state.Now().posts, entries[i..], height) == ConfirmPosts(start.posts, entries, height)
      invariant posts == PostsIn(entries[..i])
    {
      ConfirmUnrolls(state.Now().posts, entries, i, height);
      PostsSnoc(entries, i);
      posts := ConfirmOne(state, entries[i].core, height, posts);
    }
    assert entries[..|entries|] == entries;
  }

  // ---------------------------------------------------------------------------
  // Withdrawing
  // ---------------------------------------------------------------------------

  ghost predicate WithdrawalsListed(held: map<PostId, PostRecord>, withdrawn: set<PostId>, withdrawals: seq<PostId>) {
    Distinct(withdrawals) && withdrawn == Members(withdrawals) && forall p | p in withdrawals :: p in held
  }

  /** Each withdrawal is of a post the view holds, once. */
  ghost predicate WithdrawalsNoted(state: BlockOverlay)
    reads state
  {
    WithdrawalsListed(state.view.posts, state.withdrawn, state.withdrawals)
  }

  /** One entry's withdrawal, refused for a post of this block or one not live. */
  method WithdrawOne(state: BlockOverlay, core: TxCore, height: nat, ghost posts: seq<(PostId, Key)>) returns (ok: bool)
    requires state.Valid() && WithdrawalsNoted(state) && PostsNoted(state, posts, height)
    modifies state`withdrawn, state`withdrawals
    ensures state.Valid() && WithdrawalsNoted(state) && state.likeRecords == old(state.likeRecords)
      && state.BoxWritesKept()
    ensures ok <==> ApplyWithdrawal(old(state.Now()).posts, core, height).Some?
    ensures ok ==>
      state.Now() == old(state.Now()).(posts := ApplyWithdrawal(old(state.Now()).posts, core, height).value)
  {
    if !core.payload.PostWithdraw? || state.GetTopologyAuthor(core.payload.postId).None? {
      return true;
    }
    var post := core.payload.postId;
    var confirmedAt := state.GetTopologyHeight(post);
    if confirmedAt.value >= height || !state.GetPostStanding(post).LivePost? {
      return false;
    }
    assert post !in state.withdrawals;
    assert post in state.view.posts;
    DistinctSnoc(state.withdrawals, post);
    state.WithdrawPost(post);
    ok := true;
  }

  method WithdrawBody(state: BlockOverlay, entries: seq<Tx>, height: nat,
    ghost posts: seq<(PostId, Key)>) returns (ok: bool)
    requires state.Valid() && WithdrawalsNoted(state) && PostsNoted(state, posts, height)
    modifies state`withdrawn, state`withdrawals
    ensures state.Valid() && WithdrawalsNoted(state) && state.likeRecords == old(state.likeRecords)
      && state.BoxWritesKept()
    ensures ok <==> ApplyWithdrawals(old(state.Now()).posts, entries, height).Some?
    ensures ok ==>
      state.Now() == old(state.Now()).(posts := ApplyWithdrawals(old(state.Now()).posts, entries, height).value)
  {
    assert entries[0..] == entries;
    for i := 0 to |entries|
      invariant state.Valid() && WithdrawalsNoted(state) && state.likeRecords == old(state.likeRecords)
        && state.BoxWritesKept()
      invariant state.Now() == old(state.Now()).(posts := state.Now().posts)
      invariant ApplyWithdrawals(state.Now().posts, entries[i..], height)
        == ApplyWithdrawals(old(state.Now()).posts, entries, height)
    {
      assert entries[i..][0] == entries[i] && entries[i..][1..] == entries[i + 1..];
      ok := WithdrawOne(state, entries[i].core, height, posts);
      if !ok {
        return;
      }
    }
    ok := true;
  }

  // ---------------------------------------------------------------------------
  // What the effects say
  // ---------------------------------------------------------------------------

  function EffectsOf(state: BlockOverlay, posts: seq<(PostId, Key)>): Effects
    reads state
  {
    Effects(state.mutations, posts, state.likeRecords, state.withdrawals)
  }

  /** The listed posts are new to the view, each once. */
  ghost predicate PostsAreNew(view: State, posts: seq<(PostId, Key)>) {
    && Distinct(posts)
    && (forall p, q | p in posts && q in posts && p.0 == q.0 :: p == q)
    && forall p | p in posts :: p.0 !in view.posts
  }

  lemma PostsAreExplained(state: BlockOverlay, posts: seq<(PostId, Key)>, height: int)
    requires state.Valid() && PostsNoted(state, posts, height) && WithdrawalsNoted(state) && LikesNoted(state)
    requires PostsAreNew(state.view, posts)
    ensures PostsExplained(state.view, state.Now(), height, EffectsOf(state, posts))
  {
    var s, u := state.view, state.Now();
    forall id | id in u.posts && id !in s.posts ensures exists p :: p in posts && p.0 == id {
      assert NamesPost(posts, id);
    }
    assert u.likes == s.likes + Members(state.likeRecords);
  }
}
