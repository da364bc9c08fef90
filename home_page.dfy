/** The home feed: the search box and the two filters over all posts, the
    report button, which only notifies the current user, and `handleClaim`,
    which is passed to each post card as `onClaim` but never called by it:
    the card's Claim button navigates to the claim page instead. */
module HomePage {
  import opened Optional
  import opened Types
  import opened Seqs
  import opened Text
  import opened AppContext

  datatype TypeFilter = AllTypes | OnlyType(t: ItemType)

  /** `lower(term)` occurs in the lowercased title, description or location.
      The empty term matches every post, and a matching term is no longer
      than the field it occurs in. */
  function MatchesSearch(p: Post, term: string): (r: bool)
    ensures term == "" ==> r
    ensures r ==> |term| <= |p.title| || |term| <= |p.description| || |term| <= |p.location|
  {
    assert term == "" ==> OccursAt(Lower(p.title), Lower(term), 0);
    Contains(Lower(p.title), Lower(term)) || Contains(Lower(p.description), Lower(term))
    || Contains(Lower(p.location), Lower(term))
  }

  predicate MatchesType(p: Post, tf: TypeFilter) {
    tf.AllTypes? || p.itemType == tf.t
  }

  /** The category filter is the string of the select; "all" lets every post through. */
  predicate MatchesCategory(p: Post, category: string) {
    category == "all" || p.category == category
  }

  function Criteria(term: string, tf: TypeFilter, category: string): Post -> bool {
    (p: Post) => MatchesSearch(p, term) && MatchesType(p, tf) && MatchesCategory(p, category)
  }

  /** `filteredPosts`: the posts meeting all three criteria, in store order. */
  function FilteredPosts(posts: seq<Post>, term: string, tf: TypeFilter, category: string): (r: seq<Post>)
    ensures forall i :: 0 <= i < |r| ==>
      r[i] in posts && MatchesSearch(r[i], term) && MatchesType(r[i], tf) && MatchesCategory(r[i], category)
    ensures forall i ::
      (0 <= i < |posts| && MatchesSearch(posts[i], term) && MatchesType(posts[i], tf)
       && MatchesCategory(posts[i], category)) ==> posts[i] in r
    ensures IsSubsequence(r, posts)
  {
    FilterIsSubsequence(posts, Criteria(term, tf, category));
    Filter(posts, Criteria(term, tf, category))
  }

  /** With an empty search box and both filters on "all" every post is shown. */
  lemma EmptySearchShowsAll(posts: seq<Post>)
    ensures FilteredPosts(posts, "", AllTypes, "all") == posts
  {
    forall i | 0 <= i < |posts|
      ensures Criteria("", AllTypes, "all")(posts[i])
    {
      assert OccursAt(Lower(posts[i].title), Lower(""), 0);
    }
    FilterKeepsAll(posts, Criteria("", AllTypes, "all"));
  }

  /** An occurrence of `a + b` starts with an occurrence of `a`. */
  lemma ContainsPrefixOfNeedle(hay: string, a: string, b: string)
    requires Contains(hay, a + b)
    ensures Contains(hay, a)
  {
    var i :| OccursAt(hay, a + b, i);
    assert hay[i..i + |a|] == hay[i..i + |a + b|][..|a|];
    assert OccursAt(hay, a, i);
  }

  /** Typing more characters into the search box never brings a post back. */
  lemma LongerSearchHidesMore(p: Post, term: string, more: string, tf: TypeFilter, category: string)
    requires Criteria(term + more, tf, category)(p)
    ensures Criteria(term, tf, category)(p)
  {
    assert Lower(term + more) == Lower(term) + Lower(more);
    if Contains(Lower(p.title), Lower(term + more)) {
      ContainsPrefixOfNeedle(Lower(p.title), Lower(term), Lower(more));
    } else if Contains(Lower(p.description), Lower(term + more)) {
      ContainsPrefixOfNeedle(Lower(p.description), Lower(term), Lower(more));
    } else {
      ContainsPrefixOfNeedle(Lower(p.location), Lower(term), Lower(more));
    }
  }

  /** The search ignores the case of ASCII letters in the term. */
  lemma SearchIgnoresCase(p: Post, term: string)
    ensures MatchesSearch(p, Lower(term)) <==> MatchesSearch(p, term)
  {
    assert Lower(Lower(term)) == Lower(term);
  }

  /** The type and category filters only narrow the search: the posts they
      let through are the posts the search alone shows, filtered again. */
  lemma FiltersOnlyNarrow(posts: seq<Post>, term: string, tf: TypeFilter, category: string)
    ensures FilteredPosts(posts, term, tf, category)
            == Filter(FilteredPosts(posts, term, AllTypes, "all"), Criteria(term, tf, category))
    ensures |FilteredPosts(posts, term, tf, category)| <= |FilteredPosts(posts, term, AllTypes, "all")|
  {
    FilterNarrower(posts, Criteria(term, tf, category), Criteria(term, AllTypes, "all"));
  }

  /** The report is acknowledged to the reporter, not sent to the post's author. */
  function ReportNotice(user: User, postId: string): (r: NotificationDraft)
    ensures r.userId == user.id && r.noticeType == StatusUpdate && !r.isRead
    ensures r.relatedId == Some(postId)
  {
    NotificationDraft(user.id, StatusUpdate, "Report Submitted",
      "Thank you for reporting this post. We will review it shortly.", false, Some(postId))
  }

  /** The notice of `handleClaim` (passed as `onClaim` but never called by
      the post card): it only acknowledges the claim to the claimant. */
  function ClaimNoticeFor(user: User, postId: string): (r: NotificationDraft)
    ensures r.userId == user.id && r.noticeType == ClaimNotice && !r.isRead
    ensures r.relatedId == Some(postId)
  {
    NotificationDraft(user.id, ClaimNotice, "Claim Submitted",
      "Your claim has been submitted and is being reviewed.", false, Some(postId))
  }

  /** `handleReport`: one unread notice to the reporting user; the post's
      `reports` count is not changed. */
  method HandleReport(store: Store, user: User, postId: string, clock: nat)
    modifies store
    ensures store.notifications == [NewNotification(ReportNotice(user, postId), clock)] + old(store.notifications)
    ensures store.posts == old(store.posts) && store.claims == old(store.claims)
    ensures store.chatMessages == old(store.chatMessages) && store.meetings == old(store.meetings)
  {
    store.AddNotification(ReportNotice(user, postId), clock);
  }

  /** `handleClaim`, passed as `onClaim` but never called by the post card:
      one unread notice to the claiming user; no claim is written. */
  method HandleClaim(store: Store, user: User, postId: string, clock: nat)
    modifies store
    ensures store.notifications == [NewNotification(ClaimNoticeFor(user, postId), clock)] + old(store.notifications)
    ensures store.posts == old(store.posts) && store.claims == old(store.claims)
    ensures store.chatMessages == old(store.chatMessages) && store.meetings == old(store.meetings)
  {
    store.AddNotification(ClaimNoticeFor(user, postId), clock);
  }
}
