/** The full-page claim form for the post named in the route: it refuses a
    missing post and the viewer's own post, collects up to five supporting
    images and a description of at least 50 characters, and writes the claim
    and two notices. */
module ClaimItemPage {
  import opened Optional
  import opened Types
  import opened Seqs
  import opened Text
  import opened AppContext
  import ImageList

  const MaxSupportingImages: nat := 5

  const MockSupportingImages: seq<string> := [
    "https://images.pexels.com/photos/1667088/pexels-photo-1667088.jpeg",
    "https://images.pexels.com/photos/1666069/pexels-photo-1666069.jpeg",
    "https://images.pexels.com/photos/1927673/pexels-photo-1927673.jpeg",
    "https://images.pexels.com/photos/279949/pexels-photo-279949.jpeg",
    "https://images.pexels.com/photos/1092644/pexels-photo-1092644.jpeg"
  ]

  /** What the page renders before any submission. */
  datatype PageView = ItemNotFound | OwnItem | ClaimFormFor(post: Post)

  /** `posts.find(p => p.id === postId)`, then the two guards: no post is
      "Item Not Found", the viewer's own post is "Cannot Claim Own Item", and
      only otherwise is the form shown, for the first post with that id. */
  function View(posts: seq<Post>, postId: string, user: User): (r: PageView)
    ensures r.ItemNotFound? <==> forall i :: 0 <= i < |posts| ==> posts[i].id != postId
    ensures r.OwnItem? ==> exists i :: IsFirstMatch(posts, HasId(postId), i) && posts[i].authorId == user.id
    ensures r.ClaimFormFor? ==>
      r.post.id == postId && r.post.authorId != user.id
      && exists i :: IsFirstMatch(posts, HasId(postId), i) && posts[i] == r.post
  {
    match Find(posts, HasId(postId))
    case None => ItemNotFound
    case Some(p) => if p.authorId == user.id then OwnItem else ClaimFormFor(p)
  }

  /** The first post with the id decides: if it is the viewer's, no form is
      offered, whatever later posts share the id. */
  lemma OwnPostNeverOffered(posts: seq<Post>, postId: string, user: User, i: nat)
    requires i < |posts| && posts[i].id == postId && posts[i].authorId == user.id
    requires forall j :: 0 <= j < i ==> posts[j].id != postId
    ensures View(posts, postId, user) == OwnItem
  {
  }

  /** `required` and `minLength: 50` on the claim details, in UTF-16 code units. */
  predicate DetailsValid(details: string) {
    Utf16Length(details) >= 50
  }

  function SubmittedClaim(post: Post, user: User, details: string, images: seq<string>, now: Time): ClaimDraft {
    ClaimDraft(post.id, user.id, user.username, Pending, details, Some(now), Some(images),
               None, None, None, None, Some(false))
  }

  /** The author's notice: an unread claim notice about the post that names
      the claimant and the item. */
  function AuthorNotice(post: Post, user: User): (r: NotificationDraft)
    ensures r.userId == post.authorId && r.noticeType == ClaimNotice && !r.isRead
    ensures r.relatedId == Some(post.id)
    ensures Contains(r.message, user.username) && Contains(r.message, post.title)
  {
    var middle := " has submitted a claim for your " + ItemTypeName(post.itemType) + " item \"";
    var message := user.username + middle + post.title + "\".";
    ContainsInMiddle("", user.username, middle + post.title + "\".");
    assert "" + user.username + (middle + post.title + "\".") == message;
    ContainsInMiddle(user.username + middle, post.title, "\".");
    NotificationDraft(post.authorId, ClaimNotice, "New Claim Received", message, false, Some(post.id))
  }

  /** The claimant's notice: an unread claim notice about the post that names the item. */
  function ClaimantNotice(post: Post, user: User): (r: NotificationDraft)
    ensures r.userId == user.id && r.noticeType == ClaimNotice && !r.isRead
    ensures r.relatedId == Some(post.id)
    ensures Contains(r.message, post.title)
  {
    ContainsInMiddle("Your claim for \"", post.title, "\" has been submitted and is pending review.");
    NotificationDraft(user.id, ClaimNotice, "Claim Submitted Successfully",
      "Your claim for \"" + post.title + "\" has been submitted and is pending review.",
      false, Some(post.id))
  }

  datatype Outcome = NotFound | OwnPost | Invalid | Submitted

  class ClaimPage {
    const postId: string
    const user: User
    var supportingImages: seq<string>
    var isSubmitting: bool
    var submitSuccess: bool
    var submitError: string

    predicate Valid()
      reads this
    {
      |supportingImages| <= MaxSupportingImages
    }

    constructor (postId: string, user: User)
      ensures this.postId == postId && this.user == user
      ensures supportingImages == [] && !isSubmitting && !submitSuccess && submitError == ""
      ensures Valid()
    {
      this.postId := postId;
      this.user := user;
      supportingImages := [];
      isSubmitting := false;
      submitSuccess := false;
      submitError := "";
    }

    /** `handleAddSupportingImage`; `pick` is the index `Math.random` selects. */
    method AddSupportingImage(pick: nat)
      requires pick < |MockSupportingImages|
      requires Valid()
      modifies this`supportingImages
      ensures supportingImages == ImageList.Add(old(supportingImages), MaxSupportingImages, MockSupportingImages[pick])
      ensures Valid()
    {
      supportingImages := ImageList.Add(supportingImages, MaxSupportingImages, MockSupportingImages[pick]);
    }

    /** `removeSupportingImage(index)`. */
    method RemoveSupportingImage(index: int)
      requires Valid()
      modifies this`supportingImages
      ensures supportingImages == ImageList.RemoveAt(old(supportingImages), index)
      ensures Valid()
    {
      supportingImages := ImageList.RemoveAt(supportingImages, index);
    }

    /** The writes of a valid submission for `post`: the claim, then the
        author's notice, then the claimant's. */
    method Record(store: Store, post: Post, details: string, now: Time,
                  claimClock: nat, authorClock: nat, claimantClock: nat)
      modifies this`isSubmitting, this`submitError, this`submitSuccess, store
      ensures store.claims == [NewClaim(SubmittedClaim(post, user, details, supportingImages, now), claimClock)]
                              + old(store.claims)
      ensures store.notifications == [NewNotification(ClaimantNotice(post, user), claimantClock),
                                      NewNotification(AuthorNotice(post, user), authorClock)]
                                     + old(store.notifications)
      ensures submitSuccess && submitError == "" && !isSubmitting
      ensures store.posts == old(store.posts) && store.chatMessages == old(store.chatMessages)
      ensures store.meetings == old(store.meetings)
    {
      isSubmitting := true;
      submitError := "";
      var claim := SubmittedClaim(post, user, details, supportingImages, now);
      var toAuthor, toClaimant := AuthorNotice(post, user), ClaimantNotice(post, user);
      store.AddClaim(claim, claimClock);
      store.AddNotification(toAuthor, authorClock);
      store.AddNotification(toClaimant, claimantClock);
      submitSuccess := true;
      isSubmitting := false;
    }

    /** A submission of `details`. Without a claimable post there is no form,
        so nothing is written; invalid details are not submitted. Otherwise
        one pending claim with the details, the images, `createdAt = now` and
        `adminReviewed = false` (and no chat id) is added, then the author's
        notice, then the claimant's; no chat message is written. */
    method Submit(store: Store, details: string, now: Time, claimClock: nat, authorClock: nat, claimantClock: nat)
      returns (outcome: Outcome)
      modifies this, store
      ensures var v := View(old(store.posts), postId, user);
        (v.ItemNotFound? <==> outcome == NotFound)
        && (v.OwnItem? <==> outcome == OwnPost)
        && (v.ClaimFormFor? && !DetailsValid(details) <==> outcome == Invalid)
        && (v.ClaimFormFor? && DetailsValid(details) <==> outcome == Submitted)
      ensures outcome != Submitted ==>
        store.claims == old(store.claims) && store.notifications == old(store.notifications)
        && submitSuccess == old(submitSuccess) && isSubmitting == old(isSubmitting)
        && submitError == old(submitError)
      ensures outcome == Submitted ==>
        var post := View(old(store.posts), postId, user).post;
        store.claims == [NewClaim(SubmittedClaim(post, user, details, old(supportingImages), now), claimClock)]
                        + old(store.claims)
        && store.notifications == [NewNotification(ClaimantNotice(post, user), claimantClock),
                                   NewNotification(AuthorNotice(post, user), authorClock)]
                                  + old(store.notifications)
        && submitSuccess && submitError == "" && !isSubmitting
      ensures supportingImages == old(supportingImages)
      ensures store.posts == old(store.posts) && store.chatMessages == old(store.chatMessages)
      ensures store.meetings == old(store.meetings)
    {
      var v := View(store.posts, postId, user);
      if v.ItemNotFound? {
        return NotFound;
      } else if v.OwnItem? {
        return OwnPost;
      } else if !DetailsValid(details) {
        return Invalid;
      }
      Record(store, v.post, details, now, claimClock, authorClock, claimantClock);
      return Submitted;
    }
  }
}
