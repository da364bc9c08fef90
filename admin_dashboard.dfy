/** The admin dashboard's post review: the pending and reported lists and the
    approve and reject actions, each of which notifies the post's author. */
module AdminDashboard {
  import opened Optional
  import opened Types
  import opened Seqs
  import opened AppContext

  function IsActive(p: Post): bool {
    p.status == Active
  }

  function IsReported(p: Post): bool {
    p.reports > 0
  }

  /** `posts.filter(post => post.status === 'active')`. */
  function PendingPosts(posts: seq<Post>): (r: seq<Post>)
    ensures forall i :: 0 <= i < |r| ==> r[i].status == Active && r[i] in posts
    ensures forall i :: 0 <= i < |posts| && posts[i].status == Active ==> posts[i] in r
    ensures IsSubsequence(r, posts)
  {
    FilterIsSubsequence(posts, IsActive);
    Filter(posts, IsActive)
  }

  /** `posts.filter(post => post.reports > 0)`. */
  function ReportedPosts(posts: seq<Post>): (r: seq<Post>)
    ensures forall i :: 0 <= i < |r| ==> r[i].reports > 0 && r[i] in posts
    ensures forall i :: 0 <= i < |posts| && posts[i].reports > 0 ==> posts[i] in r
    ensures IsSubsequence(r, posts)
  {
    FilterIsSubsequence(posts, IsReported);
    Filter(posts, IsReported)
  }

  /** `posts.find(p => p.id === postId)?.authorId || '1'`: the author of the
      first post with the id, or "1" when there is none or its author id is
      the empty string (which `||` treats as false). */
  function Recipient(posts: seq<Post>, postId: string): (r: string)
    ensures r != ""
    ensures (forall i :: 0 <= i < |posts| ==> posts[i].id != postId) ==> r == "1"
    ensures forall i :: IsFirstMatch(posts, HasId(postId), i) ==>
      r == if posts[i].authorId == "" then "1" else posts[i].authorId
  {
    var found := Find(posts, HasId(postId));
    var r := if found.Some? && found.value.authorId != "" then found.value.authorId else "1";
    assert forall i :: IsFirstMatch(posts, HasId(postId), i) ==>
      r == if posts[i].authorId == "" then "1" else posts[i].authorId by {
      forall i | IsFirstMatch(posts, HasId(postId), i)
        ensures r == if posts[i].authorId == "" then "1" else posts[i].authorId
      {
        var j :| IsFirstMatch(posts, HasId(postId), j) && posts[j] == found.value;
        FirstMatchUnique(posts, HasId(postId), i, j);
      }
    }
    r
  }

  /** An unread status notice about the post to its author, never to nobody. */
  function ApprovedNotice(posts: seq<Post>, postId: string): (r: NotificationDraft)
    ensures r.userId == Recipient(posts, postId) && r.userId != ""
    ensures r.noticeType == StatusUpdate && !r.isRead && r.relatedId == Some(postId)
  {
    NotificationDraft(Recipient(posts, postId), StatusUpdate, "Post Approved",
      "Your post has been reviewed and approved by our team.", false, Some(postId))
  }

  /** An unread status notice about the post to its author, never to nobody. */
  function RejectedNotice(posts: seq<Post>, postId: string): (r: NotificationDraft)
    ensures r.userId == Recipient(posts, postId) && r.userId != ""
    ensures r.noticeType == StatusUpdate && !r.isRead && r.relatedId == Some(postId)
  {
    NotificationDraft(Recipient(posts, postId), StatusUpdate, "Post Rejected",
      "Your post has been reviewed and requires modifications.", false, Some(postId))
  }

  /** `handleApprovePost`: one notice to the author; no post changes. */
  method ApprovePost(store: Store, postId: string, clock: nat)
    modifies store
    ensures store.notifications == [NewNotification(ApprovedNotice(old(store.posts), postId), clock)]
                                   + old(store.notifications)
    ensures store.posts == old(store.posts) && store.claims == old(store.claims)
    ensures store.chatMessages == old(store.chatMessages) && store.meetings == old(store.meetings)
  {
    store.AddNotification(ApprovedNotice(store.posts, postId), clock);
  }

  /** `handleRejectPost`: the post is archived, then its author is notified;
      the recipient is looked up in the list as rendered, before the update. */
  method RejectPost(store: Store, postId: string, updateClock: nat, noticeClock: nat)
    modifies store
    ensures store.posts == UpdatedPosts(old(store.posts), postId, StatusPatch(Archived), updateClock)
    ensures store.notifications == [NewNotification(RejectedNotice(old(store.posts), postId), noticeClock)]
                                   + old(store.notifications)
    ensures store.claims == old(store.claims)
    ensures store.chatMessages == old(store.chatMessages) && store.meetings == old(store.meetings)
  {
    var rendered := store.posts;
    store.UpdatePost(postId, StatusPatch(Archived), updateClock);
    store.AddNotification(RejectedNotice(rendered, postId), noticeClock);
  }

  /** A rejected post leaves the pending list: no post with that id is still active. */
  lemma RejectedLeavesPending(posts: seq<Post>, postId: string, now: Time)
    ensures forall i :: 0 <= i < |PendingPosts(UpdatedPosts(posts, postId, StatusPatch(Archived), now))| ==>
      PendingPosts(UpdatedPosts(posts, postId, StatusPatch(Archived), now))[i].id != postId
  {
    var after := UpdatedPosts(posts, postId, StatusPatch(Archived), now);
    var pending := PendingPosts(after);
    forall i | 0 <= i < |pending|
      ensures pending[i].id != postId
    {
      var k :| 0 <= k < |after| && after[k] == pending[i];
    }
  }

  /** The recipient depends on the ids and authors of the posts only. */
  lemma RecipientByIdsAndAuthors(a: seq<Post>, b: seq<Post>, postId: string)
    requires |a| == |b|
    requires forall i :: 0 <= i < |a| ==> a[i].id == b[i].id && a[i].authorId == b[i].authorId
    ensures Recipient(a, postId) == Recipient(b, postId)
  {
    var f := Find(a, HasId(postId));
    if f.Some? {
      var i :| IsFirstMatch(a, HasId(postId), i) && a[i] == f.value;
      assert IsFirstMatch(b, HasId(postId), i);
    } else {
      assert forall i :: 0 <= i < |b| ==> b[i].id != postId by {
        forall i | 0 <= i < |b| ensures b[i].id != postId {
          assert !HasId(postId)(a[i]);
        }
      }
    }
  }

  /** Reading the recipient after the rejection gives the same author: the
      status patch leaves ids and authors alone. */
  lemma RecipientSurvivesReject(posts: seq<Post>, postId: string, now: Time)
    ensures Recipient(UpdatedPosts(posts, postId, StatusPatch(Archived), now), postId) == Recipient(posts, postId)
  {
    RecipientByIdsAndAuthors(UpdatedPosts(posts, postId, StatusPatch(Archived), now), posts, postId);
  }
}
