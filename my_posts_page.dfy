/** The "My Posts" page: the signed-in user's posts under three tabs, with the
    archive and mark-returned actions. */
module MyPostsPage {
  import opened Types
  import opened Seqs
  import opened AppContext

  datatype Tab = AllTab | ActiveTab | ArchivedTab

  function ByAuthor(userId: string): Post -> bool {
    (p: Post) => p.authorId == userId
  }

  /** `posts.filter(post => post.authorId === user.id)`, in store order. */
  function MyPosts(posts: seq<Post>, userId: string): (r: seq<Post>)
    ensures forall i :: 0 <= i < |r| ==> r[i].authorId == userId && r[i] in posts
    ensures forall i :: 0 <= i < |posts| && posts[i].authorId == userId ==> posts[i] in r
    ensures IsSubsequence(r, posts)
  {
    FilterIsSubsequence(posts, ByAuthor(userId));
    Filter(posts, ByAuthor(userId))
  }

  /** Archived and returned posts are closed; every other status is open. */
  predicate Closed(p: Post) {
    p.status == Archived || p.status == Returned
  }

  /** The per-tab predicate of `filteredPosts`. */
  function OnTab(tab: Tab): Post -> bool {
    match tab
    case AllTab => (p: Post) => true
    case ActiveTab => (p: Post) => !Closed(p)
    case ArchivedTab => (p: Post) => Closed(p)
  }

  /** `filteredPosts`: the user's posts on the selected tab, in store order.
      "All" shows every one, "Active" the open ones, "Archived" the closed ones. */
  function Shown(mine: seq<Post>, tab: Tab): (r: seq<Post>)
    ensures tab == AllTab ==> r == mine
    ensures tab == ActiveTab ==> (forall i :: 0 <= i < |r| ==> r[i] in mine && !Closed(r[i]))
                                 && (forall i :: 0 <= i < |mine| && !Closed(mine[i]) ==> mine[i] in r)
    ensures tab == ArchivedTab ==> (forall i :: 0 <= i < |r| ==> r[i] in mine && Closed(r[i]))
                                   && (forall i :: 0 <= i < |mine| && Closed(mine[i]) ==> mine[i] in r)
    ensures IsSubsequence(r, mine)
  {
    FilterIsSubsequence(mine, OnTab(tab));
    if tab == AllTab then FilterKeepsAll(mine, OnTab(AllTab)); Filter(mine, OnTab(tab))
    else Filter(mine, OnTab(tab))
  }

  /** The tab badges: "All" counts every post of the user, and "Active" and
      "Archived" split them without overlap. */
  lemma TabCountsPartition(mine: seq<Post>)
    ensures |Shown(mine, AllTab)| == |mine|
    ensures |Shown(mine, ActiveTab)| + |Shown(mine, ArchivedTab)| == |mine|
    ensures forall p: Post :: !(OnTab(ActiveTab)(p) && OnTab(ArchivedTab)(p))
  {
    FilterKeepsAll(mine, OnTab(AllTab));
    FilterComplementCount(mine, OnTab(ActiveTab), OnTab(ArchivedTab));
  }

  /** "Mark as Returned" is offered only for a post being returned. */
  function CanMarkReturned(p: Post): (r: bool)
    ensures r ==> OnTab(ActiveTab)(p)
  {
    p.status == Returning
  }

  /** "Archive" is offered only for an active or claimed post, never together
      with "Mark as Returned". */
  function CanArchive(p: Post): (r: bool)
    ensures r ==> OnTab(ActiveTab)(p) && !CanMarkReturned(p)
  {
    p.status == Active || p.status == Claimed
  }

  /** `handleArchive`: `updatePost(postId, { status: 'archived' })`. */
  method HandleArchive(store: Store, postId: string, clock: nat)
    modifies store
    ensures store.posts == UpdatedPosts(old(store.posts), postId, StatusPatch(Archived), clock)
    ensures store.claims == old(store.claims) && store.notifications == old(store.notifications)
    ensures store.chatMessages == old(store.chatMessages) && store.meetings == old(store.meetings)
  {
    store.UpdatePost(postId, StatusPatch(Archived), clock);
  }

  /** `handleMarkReturned`: `updatePost(postId, { status: 'returned' })`. */
  method HandleMarkReturned(store: Store, postId: string, clock: nat)
    modifies store
    ensures store.posts == UpdatedPosts(old(store.posts), postId, StatusPatch(Returned), clock)
    ensures store.claims == old(store.claims) && store.notifications == old(store.notifications)
    ensures store.chatMessages == old(store.chatMessages) && store.meetings == old(store.meetings)
  {
    store.UpdatePost(postId, StatusPatch(Returned), clock);
  }

  /** Archiving or marking returned one of the user's posts moves it from the
      "Active" tab to the "Archived" tab; it stays the user's post. */
  lemma ClosingMovesToArchivedTab(posts: seq<Post>, userId: string, postId: string,
                                  s: PostStatus, now: Time, k: int)
    requires s == Archived || s == Returned
    requires 0 <= k < |posts| && posts[k].id == postId && posts[k].authorId == userId
    ensures var after := UpdatedPosts(posts, postId, StatusPatch(s), now);
            after[k] in Shown(MyPosts(after, userId), ArchivedTab)
            && after[k] !in Shown(MyPosts(after, userId), ActiveTab)
  {
    var after := UpdatedPosts(posts, postId, StatusPatch(s), now);
    var mine := MyPosts(after, userId);
    assert after[k].authorId == userId && Closed(after[k]);
    var j :| 0 <= j < |mine| && mine[j] == after[k];
  }
}
