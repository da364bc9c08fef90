/** The records of the application and the string unions of their fields.
    Dates are milliseconds since the epoch; an optional TypeScript field is an
    `Option`. */
module Types {
  import opened Optional

  type Time = int

  datatype AccountType = UserAccount | AdminAccount

  datatype User = User(
    id: string,
    username: string,
    email: string,
    phoneNumber: string,
    accountType: AccountType,
    isVerified: bool)

  datatype ItemType = Lost | Found

  datatype PostStatus = Active | Claimed | Returning | Returned | Archived

  datatype Post = Post(
    id: string,
    title: string,
    category: string,
    itemType: ItemType,
    description: string,
    privateDetails: string,
    location: string,
    photos: seq<string>,
    authorId: string,
    authorName: string,
    status: PostStatus,
    createdAt: Time,
    updatedAt: Time,
    likes: int,
    reports: int,
    claimId: Option<string>)

  datatype ClaimStatus = Pending | Approved | ClaimReturning | Completed | Rejected

  datatype ContactMethod = ByEmail | ByPhone | ByBoth

  /** The declared `Claim` has the first eight fields. The claim forms also
      store `proofImages`, `proofDescription`, `contactMethod`,
      `additionalInfo`, `chatId` and `adminReviewed`, which the declaration
      does not list, so they are optional here; `createdAt` is optional because
      the claim modal does not supply it and the store does not set it. */
  datatype Claim = Claim(
    id: string,
    postId: string,
    claimantId: string,
    claimantName: string,
    status: ClaimStatus,
    message: string,
    createdAt: Option<Time>,
    updatedAt: Time,
    proofImages: Option<seq<string>>,
    proofDescription: Option<string>,
    contactMethod: Option<ContactMethod>,
    additionalInfo: Option<string>,
    chatId: Option<string>,
    adminReviewed: Option<bool>)

  datatype ChatMessage = ChatMessage(
    id: string,
    chatId: string,
    senderId: string,
    senderName: string,
    message: string,
    timestamp: Time,
    isPreset: Option<bool>)

  datatype MeetingStatus = Scheduled | Cancelled | MeetingCompleted

  datatype Meeting = Meeting(
    id: string,
    chatId: string,
    scheduledBy: string,
    date: Time,
    location: string,
    status: MeetingStatus)

  datatype NotificationType = ClaimNotice | MessageNotice | MeetingNotice | StatusUpdate

  datatype Notification = Notification(
    id: string,
    userId: string,
    noticeType: NotificationType,
    title: string,
    message: string,
    isRead: bool,
    createdAt: Time,
    relatedId: Option<string>)

  // The string literals of the unions, as they appear in messages and filters.

  function ItemTypeName(t: ItemType): string {
    match t
    case Lost => "lost"
    case Found => "found"
  }

  function PostStatusName(s: PostStatus): string {
    match s
    case Active => "active"
    case Claimed => "claimed"
    case Returning => "returning"
    case Returned => "returned"
    case Archived => "archived"
  }

  function ClaimStatusName(s: ClaimStatus): string {
    match s
    case Pending => "pending"
    case Approved => "approved"
    case ClaimReturning => "returning"
    case Completed => "completed"
    case Rejected => "rejected"
  }

  function MeetingStatusName(s: MeetingStatus): string {
    match s
    case Scheduled => "scheduled"
    case Cancelled => "cancelled"
    case MeetingCompleted => "completed"
  }

  function NotificationTypeName(t: NotificationType): string {
    match t
    case ClaimNotice => "claim"
    case MessageNotice => "message"
    case MeetingNotice => "meeting"
    case StatusUpdate => "status_update"
  }
}
