/** The application's in-memory data layer: five lists and the operations that
    replace them. Posts, claims and notifications are prepended on creation;
    chat messages and meetings are appended. Updates rewrite every record whose
    id matches and leave all others as they were; an unknown id changes nothing.
    Every id is the decimal string of the clock reading taken at creation
    (`Date.now().toString()`), so ids are unique only when the readings are. */
module AppContext {
  import opened Optional
  import opened Types
  import opened Seqs
  import Text

  /** The id a record created at clock reading `clock` receives. */
  function IdFor(clock: nat): string {
    Text.Decimal(clock)
  }

  // ----- What callers pass to the add operations (the record minus the fields the store fills in)

  datatype PostDraft = PostDraft(
    title: string, category: string, itemType: ItemType, description: string,
    privateDetails: string, location: string, photos: seq<string>,
    authorId: string, authorName: string, status: PostStatus,
    likes: int, reports: int, claimId: Option<string>)

  datatype ClaimDraft = ClaimDraft(
    postId: string, claimantId: string, claimantName: string, status: ClaimStatus,
    message: string, createdAt: Option<Time>, proofImages: Option<seq<string>>,
    proofDescription: Option<string>, contactMethod: Option<ContactMethod>,
    additionalInfo: Option<string>, chatId: Option<string>, adminReviewed: Option<bool>)

  datatype NotificationDraft = NotificationDraft(
    userId: string, noticeType: NotificationType, title: string, message: string,
    isRead: bool, relatedId: Option<string>)

  datatype MessageDraft = MessageDraft(
    chatId: string, senderId: string, senderName: string, message: string, isPreset: Option<bool>)

  datatype MeetingDraft = MeetingDraft(
    chatId: string, scheduledBy: string, date: Time, location: string, status: MeetingStatus)

  // ----- Creation: each add operation stamps the caller's draft with the id
  // and the timestamps it fills in, and keeps every field of the draft

  function PostDraftOf(p: Post): PostDraft {
    PostDraft(p.title, p.category, p.itemType, p.description, p.privateDetails, p.location,
              p.photos, p.authorId, p.authorName, p.status, p.likes, p.reports, p.claimId)
  }

  /** `addPost`: the id and both timestamps come from the clock reading. */
  function NewPost(d: PostDraft, clock: nat): (r: Post)
    ensures PostDraftOf(r) == d
    ensures r.id == IdFor(clock) && r.createdAt == clock && r.updatedAt == clock
  {
    Post(IdFor(clock), d.title, d.category, d.itemType, d.description, d.privateDetails,
         d.location, d.photos, d.authorId, d.authorName, d.status, clock, clock,
         d.likes, d.reports, d.claimId)
  }

  function ClaimDraftOf(c: Claim): ClaimDraft {
    ClaimDraft(c.postId, c.claimantId, c.claimantName, c.status, c.message, c.createdAt,
               c.proofImages, c.proofDescription, c.contactMethod, c.additionalInfo,
               c.chatId, c.adminReviewed)
  }

  /** `addClaim` fills in `id` and `updatedAt` only; `createdAt` is whatever the caller gave. */
  function NewClaim(d: ClaimDraft, clock: nat): (r: Claim)
    ensures ClaimDraftOf(r) == d
    ensures r.id == IdFor(clock) && r.updatedAt == clock && r.createdAt == d.createdAt
  {
    Claim(IdFor(clock), d.postId, d.claimantId, d.claimantName, d.status, d.message,
          d.createdAt, clock, d.proofImages, d.proofDescription, d.contactMethod,
          d.additionalInfo, d.chatId, d.adminReviewed)
  }

  function NotificationDraftOf(n: Notification): NotificationDraft {
    NotificationDraft(n.userId, n.noticeType, n.title, n.message, n.isRead, n.relatedId)
  }

  /** `addNotification`: the id and `createdAt` come from the clock reading. */
  function NewNotification(d: NotificationDraft, clock: nat): (r: Notification)
    ensures NotificationDraftOf(r) == d
    ensures r.id == IdFor(clock) && r.createdAt == clock
  {
    Notification(IdFor(clock), d.userId, d.noticeType, d.title, d.message, d.isRead, clock, d.relatedId)
  }

  function MessageDraftOf(m: ChatMessage): MessageDraft {
    MessageDraft(m.chatId, m.senderId, m.senderName, m.message, m.isPreset)
  }

  /** `addChatMessage`: the id and `timestamp` come from the clock reading. */
  function NewMessage(d: MessageDraft, clock: nat): (r: ChatMessage)
    ensures MessageDraftOf(r) == d
    ensures r.id == IdFor(clock) && r.timestamp == clock
  {
    ChatMessage(IdFor(clock), d.chatId, d.senderId, d.senderName, d.message, clock, d.isPreset)
  }

  function MeetingDraftOf(m: Meeting): MeetingDraft {
    MeetingDraft(m.chatId, m.scheduledBy, m.date, m.location, m.status)
  }

  /** `scheduleMeeting` fills in the id only; the meeting's date is the caller's. */
  function NewMeeting(d: MeetingDraft, clock: nat): (r: Meeting)
    ensures MeetingDraftOf(r) == d
    ensures r.id == IdFor(clock)
  {
    Meeting(IdFor(clock), d.chatId, d.scheduledBy, d.date, d.location, d.status)
  }

  // ----- Partial records: `None` is a key the patch does not carry

  datatype PostPatch = PostPatch(
    id: Option<string>, title: Option<string>, category: Option<string>,
    itemType: Option<ItemType>, description: Option<string>, privateDetails: Option<string>,
    location: Option<string>, photos: Option<seq<string>>, authorId: Option<string>,
    authorName: Option<string>, status: Option<PostStatus>, createdAt: Option<Time>,
    likes: Option<int>, reports: Option<int>, claimId: Option<string>)

  datatype ClaimPatch = ClaimPatch(
    id: Option<string>, postId: Option<string>, claimantId: Option<string>,
    claimantName: Option<string>, status: Option<ClaimStatus>, message: Option<string>,
    createdAt: Option<Time>, proofImages: Option<seq<string>>, proofDescription: Option<string>,
    contactMethod: Option<ContactMethod>, additionalInfo: Option<string>,
    chatId: Option<string>, adminReviewed: Option<bool>)

  datatype MeetingPatch = MeetingPatch(
    id: Option<string>, chatId: Option<string>, scheduledBy: Option<string>,
    date: Option<Time>, location: Option<string>, status: Option<MeetingStatus>)

  /** `{ status }`: the only post patch the pages send. */
  function StatusPatch(s: PostStatus): PostPatch {
    PostPatch(None, None, None, None, None, None, None, None, None, None, Some(s), None, None, None, None)
  }

  /** `{ ...post, ...updates }`. */
  function MergePost(p: Post, u: PostPatch): Post {
    Post(u.id.GetOr(p.id), u.title.GetOr(p.title), u.category.GetOr(p.category),
         u.itemType.GetOr(p.itemType), u.description.GetOr(p.description),
         u.privateDetails.GetOr(p.privateDetails), u.location.GetOr(p.location),
         u.photos.GetOr(p.photos), u.authorId.GetOr(p.authorId), u.authorName.GetOr(p.authorName),
         u.status.GetOr(p.status), u.createdAt.GetOr(p.createdAt), p.updatedAt,
         u.likes.GetOr(p.likes), u.reports.GetOr(p.reports),
         if u.claimId.Some? then u.claimId else p.claimId)
  }

  function MergeClaim(c: Claim, u: ClaimPatch): Claim {
    Claim(u.id.GetOr(c.id), u.postId.GetOr(c.postId), u.claimantId.GetOr(c.claimantId),
          u.claimantName.GetOr(c.claimantName), u.status.GetOr(c.status), u.message.GetOr(c.message),
          if u.createdAt.Some? then u.createdAt else c.createdAt, c.updatedAt,
          if u.proofImages.Some? then u.proofImages else c.proofImages,
          if u.proofDescription.Some? then u.proofDescription else c.proofDescription,
          if u.contactMethod.Some? then u.contactMethod else c.contactMethod,
          if u.additionalInfo.Some? then u.additionalInfo else c.additionalInfo,
          if u.chatId.Some? then u.chatId else c.chatId,
          if u.adminReviewed.Some? then u.adminReviewed else c.adminReviewed)
  }

  function MergeMeeting(m: Meeting, u: MeetingPatch): Meeting {
    Meeting(u.id.GetOr(m.id), u.chatId.GetOr(m.chatId), u.scheduledBy.GetOr(m.scheduledBy),
            u.date.GetOr(m.date), u.location.GetOr(m.location), u.status.GetOr(m.status))
  }

  // ----- The list rewrites behind the update operations

  /** `updatePost`: every post with the id gets the patch and `updatedAt = now`;
      the others, the length and the order are kept; an unknown id is a no-op. */
  function UpdatedPosts(ps: seq<Post>, id: string, patch: PostPatch, now: Time): (r: seq<Post>)
    ensures |r| == |ps|
    ensures forall i :: 0 <= i < |ps| && ps[i].id == id ==> r[i] == MergePost(ps[i], patch).(updatedAt := now)
    ensures forall i :: 0 <= i < |ps| && ps[i].id != id ==> r[i] == ps[i]
    ensures patch.id.None? ==> forall i :: 0 <= i < |ps| ==> r[i].id == ps[i].id
    ensures (forall i :: 0 <= i < |ps| ==> ps[i].id != id) ==> r == ps
  {
    MapWhere(ps, (p: Post) => p.id == id, (p: Post) => MergePost(p, patch).(updatedAt := now))
  }

  /** `updateClaim`, with the same shape as `updatePost`. */
  function UpdatedClaims(cs: seq<Claim>, id: string, patch: ClaimPatch, now: Time): (r: seq<Claim>)
    ensures |r| == |cs|
    ensures forall i :: 0 <= i < |cs| && cs[i].id == id ==> r[i] == MergeClaim(cs[i], patch).(updatedAt := now)
    ensures forall i :: 0 <= i < |cs| && cs[i].id != id ==> r[i] == cs[i]
    ensures patch.id.None? ==> forall i :: 0 <= i < |cs| ==> r[i].id == cs[i].id
    ensures (forall i :: 0 <= i < |cs| ==> cs[i].id != id) ==> r == cs
  {
    MapWhere(cs, (c: Claim) => c.id == id, (c: Claim) => MergeClaim(c, patch).(updatedAt := now))
  }

  /** `markNotificationRead`: every notification with the id becomes read, nothing else changes. */
  function MarkedRead(ns: seq<Notification>, id: string): (r: seq<Notification>)
    ensures |r| == |ns|
    ensures forall i :: 0 <= i < |ns| && ns[i].id == id ==> r[i] == ns[i].(isRead := true)
    ensures forall i :: 0 <= i < |ns| && ns[i].id != id ==> r[i] == ns[i]
    ensures (forall i :: 0 <= i < |ns| ==> ns[i].id != id) ==> r == ns
  {
    MapWhere(ns, (n: Notification) => n.id == id, (n: Notification) => n.(isRead := true))
  }

  /** `updateMeeting`: the patch is merged and no timestamp is refreshed. */
  function UpdatedMeetings(ms: seq<Meeting>, id: string, patch: MeetingPatch): (r: seq<Meeting>)
    ensures |r| == |ms|
    ensures forall i :: 0 <= i < |ms| && ms[i].id == id ==> r[i] == MergeMeeting(ms[i], patch)
    ensures forall i :: 0 <= i < |ms| && ms[i].id != id ==> r[i] == ms[i]
    ensures patch.date.None? ==> forall i :: 0 <= i < |ms| ==> r[i].date == ms[i].date
    ensures (forall i :: 0 <= i < |ms| ==> ms[i].id != id) ==> r == ms
  {
    MapWhere(ms, (m: Meeting) => m.id == id, (m: Meeting) => MergeMeeting(m, patch))
  }

  /** Marking a notification read twice is the same as marking it once. */
  lemma MarkReadIdempotent(ns: seq<Notification>, id: string)
    ensures MarkedRead(MarkedRead(ns, id), id) == MarkedRead(ns, id)
  {
  }

  /** A status patch sets the status and `updatedAt` of the matching posts and
      nothing else; any status is accepted, whatever the current one is. */
  lemma StatusUpdateChangesOnlyStatus(ps: seq<Post>, id: string, s: PostStatus, now: Time, i: int)
    requires 0 <= i < |ps| && ps[i].id == id
    ensures UpdatedPosts(ps, id, StatusPatch(s), now)[i] == ps[i].(status := s, updatedAt := now)
  {
  }

  /** The seed posts: ids "1" and "2", both active, created one and two days
      before the provider mounts at clock reading `now`. */
  function SeedPosts(now: Time): (r: seq<Post>)
    ensures |r| == 2 && r[0].id == "1" && r[1].id == "2"
    ensures forall i :: 0 <= i < |r| ==> r[i].status == Active && r[i].reports == 0 && r[i].claimId.None?
  {
    [ Post("1", "Lost iPhone 14 Pro", "Electronics", Lost, PhoneDescription, PhoneDetails,
           "Central Park, New York", [PhonePhoto],
           "1", "John Doe", Active, now - 86400000, now - 86400000, 12, 0, None),
      Post("2", "Found Car Keys", "Keys", Found, KeysDescription, KeysDetails,
           "Downtown Coffee Shop, Main Street", [KeysPhoto],
           "2", "Jane Smith", Active, now - 172800000, now - 172800000, 8, 0, None) ]
  }

  const PhoneDescription: string := "Black iPhone 14 Pro with blue case. Lost near Central Park entrance."
  const PhoneDetails: string := "Has a small scratch on the back, serial number starts with F2L..."
  const PhonePhoto: string := "https://images.pexels.com/photos/1092644/pexels-photo-1092644.jpeg"
  const KeysDescription: string := "Found Honda car keys with blue keychain near downtown coffee shop."
  const KeysDetails: string := "Keys have a Honda logo and two additional keys, keychain says \"Best Dad\""
  const KeysPhoto: string := "https://images.pexels.com/photos/279949/pexels-photo-279949.jpeg"

  // ----- Ids

  /** `p => p.id === postId`, the lookup predicate of `posts.find`. */
  function HasId(postId: string): Post -> bool {
    (p: Post) => p.id == postId
  }

  function PostIds(ps: seq<Post>): seq<string> {
    Map(ps, (p: Post) => p.id)
  }

  function NotificationIds(ns: seq<Notification>): seq<string> {
    Map(ns, (n: Notification) => n.id)
  }

  /** When every id in a list came from an earlier clock reading, the id of a
      later reading is fresh. */
  lemma {:induction false} LaterClockIdIsFresh(ids: seq<string>, clocks: seq<nat>, clock: nat)
    requires |ids| == |clocks|
    requires forall i :: 0 <= i < |ids| ==> ids[i] == IdFor(clocks[i]) && clocks[i] < clock
    ensures IdFor(clock) !in ids
  {
    if IdFor(clock) in ids {
      var i :| 0 <= i < |ids| && ids[i] == IdFor(clock);
      Text.DecimalInjective(clocks[i], clock);
    }
  }

  /** Adding a post whose id is fresh keeps the post ids distinct. */
  lemma FreshPostKeepsIdsDistinct(ps: seq<Post>, d: PostDraft, clock: nat)
    requires Distinct(PostIds(ps)) && IdFor(clock) !in PostIds(ps)
    ensures Distinct(PostIds([NewPost(d, clock)] + ps))
  {
    var ids := PostIds([NewPost(d, clock)] + ps);
    assert ids == [IdFor(clock)] + PostIds(ps);
  }

  /** Adding a notification whose id is fresh keeps the notification ids distinct. */
  lemma FreshNotificationKeepsIdsDistinct(ns: seq<Notification>, d: NotificationDraft, clock: nat)
    requires Distinct(NotificationIds(ns)) && IdFor(clock) !in NotificationIds(ns)
    ensures Distinct(NotificationIds([NewNotification(d, clock)] + ns))
  {
    var ids := NotificationIds([NewNotification(d, clock)] + ns);
    assert ids == [IdFor(clock)] + NotificationIds(ns);
  }

  /** Two notifications added at the same clock reading share their id. */
  lemma SameClockSameId(d1: NotificationDraft, d2: NotificationDraft, clock: nat, ns: seq<Notification>)
    ensures !Distinct(NotificationIds([NewNotification(d2, clock), NewNotification(d1, clock)] + ns))
  {
    var ids := NotificationIds([NewNotification(d2, clock), NewNotification(d1, clock)] + ns);
    assert ids[0] == ids[1];
  }

  /** The five lists. Each method is one provider operation; `clock` is the
      reading of `Date.now()` that operation takes. */
  class Store {
    var posts: seq<Post>
    var claims: seq<Claim>
    var notifications: seq<Notification>
    var chatMessages: seq<ChatMessage>
    var meetings: seq<Meeting>

    /** The provider's initial state, mounted at clock reading `now`. */
    constructor (now: Time)
      ensures posts == SeedPosts(now)
      ensures claims == [] && notifications == [] && chatMessages == [] && meetings == []
    {
      posts := SeedPosts(now);
      claims := [];
      notifications := [];
      chatMessages := [];
      meetings := [];
    }

    method AddPost(d: PostDraft, clock: nat)
      modifies this
      ensures posts == [NewPost(d, clock)] + old(posts)
      ensures claims == old(claims) && notifications == old(notifications)
      ensures chatMessages == old(chatMessages) && meetings == old(meetings)
    {
      posts := [NewPost(d, clock)] + posts;
    }

    method UpdatePost(id: string, patch: PostPatch, clock: nat)
      modifies this
      ensures posts == UpdatedPosts(old(posts), id, patch, clock)
      ensures claims == old(claims) && notifications == old(notifications)
      ensures chatMessages == old(chatMessages) && meetings == old(meetings)
    {
      posts := UpdatedPosts(posts, id, patch, clock);
    }

    method AddClaim(d: ClaimDraft, clock: nat)
      modifies this
      ensures claims == [NewClaim(d, clock)] + old(claims)
      ensures posts == old(posts) && notifications == old(notifications)
      ensures chatMessages == old(chatMessages) && meetings == old(meetings)
    {
      claims := [NewClaim(d, clock)] + claims;
    }

    method UpdateClaim(id: string, patch: ClaimPatch, clock: nat)
      modifies this
      ensures claims == UpdatedClaims(old(claims), id, patch, clock)
      ensures posts == old(posts) && notifications == old(notifications)
      ensures chatMessages == old(chatMessages) && meetings == old(meetings)
    {
      claims := UpdatedClaims(claims, id, patch, clock);
    }

    method AddNotification(d: NotificationDraft, clock: nat)
      modifies this
      ensures notifications == [NewNotification(d, clock)] + old(notifications)
      ensures posts == old(posts) && claims == old(claims)
      ensures chatMessages == old(chatMessages) && meetings == old(meetings)
    {
      notifications := [NewNotification(d, clock)] + notifications;
    }

    method MarkNotificationRead(id: string)
      modifies this
      ensures notifications == MarkedRead(old(notifications), id)
      ensures posts == old(posts) && claims == old(claims)
      ensures chatMessages == old(chatMessages) && meetings == old(meetings)
    {
      notifications := MarkedRead(notifications, id);
    }

    method AddChatMessage(d: MessageDraft, clock: nat)
      modifies this
      ensures chatMessages == old(chatMessages) + [NewMessage(d, clock)]
      ensures posts == old(posts) && claims == old(claims)
      ensures notifications == old(notifications) && meetings == old(meetings)
    {
      chatMessages := chatMessages + [NewMessage(d, clock)];
    }

    method ScheduleMeeting(d: MeetingDraft, clock: nat)
      modifies this
      ensures meetings == old(meetings) + [NewMeeting(d, clock)]
      ensures posts == old(posts) && claims == old(claims)
      ensures notifications == old(notifications) && chatMessages == old(chatMessages)
    {
      meetings := meetings + [NewMeeting(d, clock)];
    }

    method UpdateMeeting(id: string, patch: MeetingPatch)
      modifies this
      ensures meetings == UpdatedMeetings(old(meetings), id, patch)
      ensures posts == old(posts) && claims == old(claims)
      ensures notifications == old(notifications) && chatMessages == old(chatMessages)
    {
      meetings := UpdatedMeetings(meetings, id, patch);
    }
  }
}
