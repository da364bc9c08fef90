/** The claim modal, which none of the modelled pages renders: up to three proof images, the
    claim form, and a submission that writes four records (the claim, the
    first message of its chat, a notice to the author, a notice to the
    claimant) before showing the confirmation step. */
module ClaimModalComponent {
  import opened Optional
  import opened Types
  import opened Text
  import opened AppContext
  import ImageList
  import ChatWindowComponent

  datatype Step = FormStep | ConfirmationStep

  /** The form's fields; an unselected contact method is `None`. */
  datatype ClaimForm = ClaimForm(
    message: string, contactMethod: Option<ContactMethod>,
    proofDescription: string, additionalInfo: string)

  const MaxProofImages: nat := 3

  const MockProofImages: seq<string> := [
    "https://images.pexels.com/photos/1667088/pexels-photo-1667088.jpeg",
    "https://images.pexels.com/photos/1666069/pexels-photo-1666069.jpeg",
    "https://images.pexels.com/photos/1927673/pexels-photo-1927673.jpeg"
  ]

  /** The form submits only with a message of at least 20 characters, counted
      as JavaScript counts them, and a chosen contact method. */
  predicate FormValid(f: ClaimForm) {
    Utf16Length(f.message) >= 20 && f.contactMethod.Some?
  }

  /** `claim-${post.id}-${user.id}-${Date.now()}`. */
  function ChatIdFor(postId: string, userId: string, clock: nat): string {
    "claim-" + postId + "-" + userId + "-" + Decimal(clock)
  }

  /** For one post and one claimant, chat ids taken at distinct clock readings
      are distinct, and only those are. */
  lemma ChatIdsDifferByClock(postId: string, userId: string, c1: nat, c2: nat)
    ensures ChatIdFor(postId, userId, c1) == ChatIdFor(postId, userId, c2) <==> c1 == c2
  {
    var prefix := "claim-" + postId + "-" + userId + "-";
    assert ChatIdFor(postId, userId, c1) == prefix + Decimal(c1);
    assert ChatIdFor(postId, userId, c2) == prefix + Decimal(c2);
    if ChatIdFor(postId, userId, c1) == ChatIdFor(postId, userId, c2) {
      assert Decimal(c1) == (prefix + Decimal(c1))[|prefix|..];
      assert Decimal(c2) == (prefix + Decimal(c2))[|prefix|..];
      DecimalInjective(c1, c2);
    }
  }

  /** The opening chat message: the item's kind, then the claim message verbatim. */
  function Greeting(t: ItemType, message: string): (r: string)
    ensures |r| >= |message| && r[|r| - |message|..] == message
    ensures Contains(r, message)
  {
    var prefix := "Hi! I believe this " + ItemTypeName(t) + " item belongs to me. ";
    var r := prefix + message;
    assert r[|prefix|..] == message;
    assert OccursAt(r, message, |prefix|) by {
      assert r[|prefix|..|prefix| + |message|] == message;
    }
    r
  }

  function SubmittedClaim(post: Post, user: User, f: ClaimForm, images: seq<string>, chatId: string): ClaimDraft {
    ClaimDraft(post.id, user.id, user.username, Pending, f.message, None, Some(images),
               Some(f.proofDescription), f.contactMethod, Some(f.additionalInfo), Some(chatId), None)
  }

  function SeedMessage(post: Post, user: User, f: ClaimForm, chatId: string): MessageDraft {
    MessageDraft(chatId, user.id, user.username, Greeting(post.itemType, f.message), Some(false))
  }

  /** The author's notice: an unread claim notice about the post that names
      the claimant and the item. */
  function AuthorNotice(post: Post, user: User): (r: NotificationDraft)
    ensures r.userId == post.authorId && r.noticeType == ClaimNotice && !r.isRead
    ensures r.relatedId == Some(post.id)
    ensures Contains(r.message, user.username) && Contains(r.message, post.title)
  {
    var middle := " has claimed your " + ItemTypeName(post.itemType) + " item \"";
    var message := user.username + middle + post.title + "\".";
    ContainsInMiddle("", user.username, middle + post.title + "\".");
    assert "" + user.username + (middle + post.title + "\".") == message;
    ContainsInMiddle(user.username + middle, post.title, "\".");
    NotificationDraft(post.authorId, ClaimNotice, "New Claim Received", message, false, Some(post.id))
  }

  /** The claimant's notice: an unread claim notice about the post that names the item. */
  function ClaimantNotice(post: Post, user: User): (r: NotificationDraft)
    ensures r.userId == user.id && r.noticeType == ClaimNotice && !r.isRead
    ensures r.relatedId == Some(post.id)
    ensures Contains(r.message, post.title)
  {
    ContainsInMiddle("Your claim for \"", post.title, "\" has been submitted and is being reviewed.");
    NotificationDraft(user.id, ClaimNotice, "Claim Submitted",
      "Your claim for \"" + post.title + "\" has been submitted and is being reviewed.",
      false, Some(post.id))
  }

  /** The seeded message opens the thread the claim points to: it is the last
      message of that thread, after whatever the thread already held. */
  lemma SeedMessageJoinsClaimThread(ms: seq<ChatMessage>, post: Post, user: User, f: ClaimForm,
                                    images: seq<string>, chatClock: nat, claimClock: nat, messageClock: nat)
    ensures var chatId := ChatIdFor(post.id, user.id, chatClock);
            var m := NewMessage(SeedMessage(post, user, f, chatId), messageClock);
            NewClaim(SubmittedClaim(post, user, f, images, chatId), claimClock).chatId == Some(m.chatId)
            && ChatWindowComponent.Thread(ms + [m], m.chatId) == ChatWindowComponent.Thread(ms, m.chatId) + [m]
  {
    var chatId := ChatIdFor(post.id, user.id, chatClock);
    var m := NewMessage(SeedMessage(post, user, f, chatId), messageClock);
    ChatWindowComponent.ThreadAfterAppend(ms, m, m.chatId);
  }

  class ClaimModal {
    const post: Post
    const user: User
    var step: Step
    var proofImages: seq<string>
    var isSubmitting: bool

    predicate Valid()
      reads this
    {
      |proofImages| <= MaxProofImages
    }

    constructor (post: Post, user: User)
      ensures this.post == post && this.user == user
      ensures step == FormStep && proofImages == [] && !isSubmitting
      ensures Valid()
    {
      this.post := post;
      this.user := user;
      step := FormStep;
      proofImages := [];
      isSubmitting := false;
    }

    /** `handleAddProofImage`; `pick` is the index `Math.random` selects. */
    method AddProofImage(pick: nat)
      requires pick < |MockProofImages|
      requires Valid()
      modifies this`proofImages
      ensures proofImages == ImageList.Add(old(proofImages), MaxProofImages, MockProofImages[pick])
      ensures Valid()
    {
      proofImages := ImageList.Add(proofImages, MaxProofImages, MockProofImages[pick]);
    }

    /** `removeProofImage(index)`. */
    method RemoveProofImage(index: int)
      requires Valid()
      modifies this`proofImages
      ensures proofImages == ImageList.RemoveAt(old(proofImages), index)
      ensures Valid()
    {
      proofImages := ImageList.RemoveAt(proofImages, index);
    }

    /** The four writes of a valid form, with the chat id `chatId`. */
    method Record(store: Store, f: ClaimForm, chatId: string,
                  claimClock: nat, messageClock: nat, authorClock: nat, claimantClock: nat)
      modifies this`isSubmitting, store
      ensures store.claims == [NewClaim(SubmittedClaim(post, user, f, proofImages, chatId), claimClock)]
                              + old(store.claims)
      ensures store.chatMessages == old(store.chatMessages) + [NewMessage(SeedMessage(post, user, f, chatId), messageClock)]
      ensures store.notifications == [NewNotification(ClaimantNotice(post, user), claimantClock),
                                      NewNotification(AuthorNotice(post, user), authorClock)]
                                     + old(store.notifications)
      ensures !isSubmitting
      ensures store.posts == old(store.posts) && store.meetings == old(store.meetings)
    {
      isSubmitting := true;
      var claim, seed := SubmittedClaim(post, user, f, proofImages, chatId), SeedMessage(post, user, f, chatId);
      var toAuthor, toClaimant := AuthorNotice(post, user), ClaimantNotice(post, user);
      store.AddClaim(claim, claimClock);
      store.AddChatMessage(seed, messageClock);
      store.AddNotification(toAuthor, authorClock);
      store.AddNotification(toClaimant, claimantClock);
      isSubmitting := false;
    }

    /** `handleSubmit(onSubmit)`: an invalid form changes nothing. A valid one
        adds the pending claim with its chat id, appends the greeting to that
        chat, adds the author's notice and then the claimant's (which ends up
        first), and moves to the confirmation step. Whether the claimant wrote
        the post is not checked. Each `...Clock` is the `Date.now()` reading of
        one write. */
    method Submit(store: Store, f: ClaimForm,
                  chatClock: nat, claimClock: nat, messageClock: nat, authorClock: nat, claimantClock: nat)
      returns (submitted: bool)
      modifies this, store
      ensures submitted == FormValid(f)
      ensures !submitted ==>
        store.claims == old(store.claims) && store.chatMessages == old(store.chatMessages)
        && store.notifications == old(store.notifications)
        && step == old(step) && isSubmitting == old(isSubmitting)
      ensures submitted ==>
        var chatId := ChatIdFor(post.id, user.id, chatClock);
        store.claims == [NewClaim(SubmittedClaim(post, user, f, old(proofImages), chatId), claimClock)] + old(store.claims)
        && store.chatMessages == old(store.chatMessages) + [NewMessage(SeedMessage(post, user, f, chatId), messageClock)]
        && store.notifications == [NewNotification(ClaimantNotice(post, user), claimantClock),
                                   NewNotification(AuthorNotice(post, user), authorClock)] + old(store.notifications)
        && step == ConfirmationStep && !isSubmitting
      ensures proofImages == old(proofImages)
      ensures store.posts == old(store.posts) && store.meetings == old(store.meetings)
    {
      if !FormValid(f) {
        return false;
      }
      Record(store, f, ChatIdFor(post.id, user.id, chatClock), claimClock, messageClock, authorClock, claimantClock);
      step := ConfirmationStep;
      return true;
    }

    /** `handleClose`, the "Got it!" button of the confirmation step (the X
        button calls `onClose` directly): `onSuccess` runs only from the
        confirmation step, `onClose` always. Since a successful `Submit` ends
        on the confirmation step, closing after it calls `onSuccess`. */
    method HandleClose() returns (callsOnSuccess: bool, callsOnClose: bool)
      ensures callsOnSuccess <==> step == ConfirmationStep
      ensures callsOnClose
    {
      callsOnSuccess := step == ConfirmationStep;
      callsOnClose := true;
    }
  }
}
