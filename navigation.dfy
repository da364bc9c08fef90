/** The navigation bar: the unread badge and the entries of the desktop and
    mobile menus. */
module NavigationComponent {
  import opened Optional
  import opened Types
  import opened Seqs
  import opened AppContext
  import NotificationsPage

  function IsUnread(n: Notification): bool {
    !n.isRead
  }

  /** `notifications.filter(n => !n.isRead).length`, over every user's notifications. */
  function UnreadCount(ns: seq<Notification>): nat {
    |Filter(ns, IsUnread)|
  }

  function UnreadOf(userId: string): Notification -> bool {
    (n: Notification) => !n.isRead && n.userId == userId
  }

  function UnreadOfOthers(userId: string): Notification -> bool {
    (n: Notification) => !n.isRead && n.userId != userId
  }

  /** The badge counts the signed-in user's unread notifications and every
      other user's as well. */
  lemma UnreadCountSpansUsers(ns: seq<Notification>, userId: string)
    ensures UnreadCount(ns) == |Filter(ns, UnreadOf(userId))| + |Filter(ns, UnreadOfOthers(userId))|
  {
    FilterSplitCount(ns, IsUnread, UnreadOf(userId), UnreadOfOthers(userId));
  }

  /** So "Mark All Read" on the notifications page does not clear the badge
      while another user has unread notifications: with distinct ids the
      count drops to exactly the other users' unread notifications. */
  lemma BadgeAfterMarkAll(ns: seq<Notification>, userId: string)
    requires Distinct(NotificationIds(ns))
    ensures UnreadCount(NotificationsPage.MarkedReadAll(ns, NotificationsPage.UnreadIds(NotificationsPage.Feed(ns, userId))))
            == |Filter(ns, UnreadOfOthers(userId))|
  {
    var after := NotificationsPage.MarkedReadAll(ns, NotificationsPage.UnreadIds(NotificationsPage.Feed(ns, userId)));
    NotificationsPage.MarkAllReadsUser(ns, userId);
    FilterKeepsNone(after, UnreadOf(userId));
    OthersUnchangedByMarkAll(ns, userId);
    UnreadCountSpansUsers(after, userId);
  }

  /** The other users' unread notifications survive "Mark All Read" as they were. */
  lemma OthersUnchangedByMarkAll(ns: seq<Notification>, userId: string)
    requires Distinct(NotificationIds(ns))
    ensures Filter(NotificationsPage.MarkedReadAll(ns, NotificationsPage.UnreadIds(NotificationsPage.Feed(ns, userId))),
                   UnreadOfOthers(userId))
            == Filter(ns, UnreadOfOthers(userId))
  {
    var after := NotificationsPage.MarkedReadAll(ns, NotificationsPage.UnreadIds(NotificationsPage.Feed(ns, userId)));
    forall k | 0 <= k < |ns| && (UnreadOfOthers(userId)(ns[k]) || UnreadOfOthers(userId)(after[k]))
      ensures ns[k] == after[k]
    {
      NotificationsPage.MarkedReadAllSpec(ns, NotificationsPage.UnreadIds(NotificationsPage.Feed(ns, userId)));
      NotificationsPage.MarkAllKeepsOtherUsers(ns, userId, k);
    }
    FilterAgreeing(ns, after, UnreadOfOthers(userId));
  }

  /** One entry of the menu; `badge` is present on "Notifications" only. */
  datatype NavItem = NavItem(path: string, caption: string, badge: Option<int>)

  function BaseItems(unread: nat): seq<NavItem> {
    [ NavItem("/home", "Home", None),
      NavItem("/create", "Create Post", None),
      NavItem("/claims", "Active Claims", None),
      NavItem("/notifications", "Notifications", Some(unread)),
      NavItem("/my-posts", "My Posts", None) ]
  }

  const AdminItem: NavItem := NavItem("/admin", "Admin", None)

  /** `navItems`: the five base entries, then `push` of the Admin entry when
      `user?.accountType === 'admin'`. */
  method NavItems(user: Option<User>, unread: nat) returns (items: seq<NavItem>)
    ensures |items| >= 5 && items[..5] == BaseItems(unread)
    ensures user.Some? && user.value.accountType == AdminAccount ==> items == BaseItems(unread) + [AdminItem]
    ensures !(user.Some? && user.value.accountType == AdminAccount) ==> items == BaseItems(unread)
    ensures (exists i :: 0 <= i < |items| && items[i].path == "/admin")
            <==> user.Some? && user.value.accountType == AdminAccount
  {
    items := BaseItems(unread);
    if user.Some? && user.value.accountType == AdminAccount {
      items := items + [AdminItem];
      assert items[5].path == "/admin";
    }
  }

  /** `navItems.slice(0, 4)` of the menu `NavItems` builds: the mobile bar
      ends with "Notifications" and its badge, and never shows "My Posts" or
      "Admin", whoever is signed in. */
  function MobileItems(items: seq<NavItem>, unread: nat): (r: seq<NavItem>)
    requires |items| >= 5 && items[..5] == BaseItems(unread)
    ensures |r| == 4 && r == BaseItems(unread)[..4]
    ensures r[3].path == "/notifications" && r[3].badge == Some(unread)
    ensures forall i :: 0 <= i < |r| ==> r[i].path != "/admin" && r[i].path != "/my-posts"
  {
    assert items[..4] == items[..5][..4];
    items[..4]
  }

  /** What the badge expression leaves in the page. */
  datatype Rendered = NothingRendered | TextNode(text: string) | CountBubble(count: int)

  /** `{item.badge && item.badge > 0 && <span>{item.badge}</span>}` as
      JavaScript evaluates it: an absent badge gives `undefined` and a
      negative one `false` (both render nothing), a positive one the count
      bubble, and a zero badge the number 0, which React renders as the text "0". */
  function BadgeAsWritten(badge: Option<int>): (r: Rendered)
    ensures badge == Some(0) ==> r == TextNode("0")
    ensures badge != Some(0) ==> r == Badge(badge)
  {
    match badge
    case None => NothingRendered
    case Some(n) => if n == 0 then TextNode("0") else if n > 0 then CountBubble(n) else NothingRendered
  }

  /** With nothing unread, the Notifications entry shows a stray "0". */
  lemma ZeroBadgeShowsStrayZero(ns: seq<Notification>)
    requires forall i :: 0 <= i < |ns| ==> ns[i].isRead
    ensures BadgeAsWritten(BaseItems(UnreadCount(ns))[3].badge) == TextNode("0")
  {
    FilterKeepsNone(ns, IsUnread);
  }

  /** The badge as intended: the count bubble exactly when the count is positive. */
  function Badge(badge: Option<int>): (r: Rendered)
    ensures r != NothingRendered <==> badge.Some? && badge.value > 0
    ensures r != NothingRendered ==> r == CountBubble(badge.value)
  {
    if badge.Some? && badge.value > 0 then CountBubble(badge.value) else NothingRendered
  }

  /** The Notifications entry shows a bubble exactly when some notification is unread. */
  lemma NotificationsBubbleIffUnread(ns: seq<Notification>)
    ensures Badge(BaseItems(UnreadCount(ns))[3].badge) != NothingRendered
            <==> exists i :: 0 <= i < |ns| && !ns[i].isRead
  {
    if exists i :: 0 <= i < |ns| && !ns[i].isRead {
      var i :| 0 <= i < |ns| && !ns[i].isRead;
      assert ns[i] in Filter(ns, IsUnread);
    } else {
      FilterKeepsNone(ns, IsUnread);
    }
  }
}
