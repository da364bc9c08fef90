/** The notifications page: the signed-in user's feed, the "Mark All Read"
    button (shown while the feed holds an unread notification) and marking a
    single notification read by clicking it. */
module NotificationsPage {
  import opened Optional
  import opened Types
  import opened Seqs
  import opened AppContext

  function ForUser(userId: string): Notification -> bool {
    (n: Notification) => n.userId == userId
  }

  /** `notifications.filter(n => n.userId === user.id)`: the user's
      notifications, in store order (newest first). */
  function Feed(ns: seq<Notification>, userId: string): (r: seq<Notification>)
    ensures forall i :: 0 <= i < |r| ==> r[i].userId == userId && r[i] in ns
    ensures forall i :: 0 <= i < |ns| && ns[i].userId == userId ==> ns[i] in r
    ensures IsSubsequence(r, ns)
  {
    FilterIsSubsequence(ns, ForUser(userId));
    Filter(ns, ForUser(userId))
  }

  /** `userNotifications.some(n => !n.isRead)`: whether "Mark All Read" is shown. */
  predicate AnyUnread(feed: seq<Notification>) {
    exists i :: 0 <= i < |feed| && !feed[i].isRead
  }

  /** The ids the mark-all loop passes to `markNotificationRead`, in feed order. */
  function UnreadIds(feed: seq<Notification>): seq<string>
    decreases |feed|
  {
    if feed == [] then []
    else UnreadIds(feed[..|feed| - 1]) + (if feed[|feed| - 1].isRead then [] else [feed[|feed| - 1].id])
  }

  /** An id is passed exactly when some unread notification of the feed carries it. */
  lemma {:induction false} UnreadIdsSpec(feed: seq<Notification>, id: string)
    ensures id in UnreadIds(feed) <==> exists i :: 0 <= i < |feed| && !feed[i].isRead && feed[i].id == id
    decreases |feed|
  {
    if feed != [] {
      var init := feed[..|feed| - 1];
      UnreadIdsSpec(init, id);
      if exists i :: 0 <= i < |init| && !init[i].isRead && init[i].id == id {
        var i :| 0 <= i < |init| && !init[i].isRead && init[i].id == id;
        assert feed[i] == init[i];
      }
      if exists i :: 0 <= i < |feed| && !feed[i].isRead && feed[i].id == id {
        var i :| 0 <= i < |feed| && !feed[i].isRead && feed[i].id == id;
        if i < |init| {
          assert init[i] == feed[i];
        }
      }
    }
  }

  /** `markNotificationRead` applied to each id in turn. */
  function MarkedReadAll(ns: seq<Notification>, ids: seq<string>): (r: seq<Notification>)
    ensures |r| == |ns|
    decreases |ids|
  {
    if ids == [] then ns
    else MarkedRead(MarkedReadAll(ns, ids[..|ids| - 1]), ids[|ids| - 1])
  }

  /** Marking a list of ids marks exactly the notifications whose id is in
      the list, keeping length and order. */
  lemma {:induction false} MarkedReadAllSpec(ns: seq<Notification>, ids: seq<string>)
    ensures |MarkedReadAll(ns, ids)| == |ns|
    ensures forall k :: 0 <= k < |ns| ==>
      MarkedReadAll(ns, ids)[k] == if ns[k].id in ids then ns[k].(isRead := true) else ns[k]
    decreases |ids|
  {
    if ids != [] {
      var init := ids[..|ids| - 1];
      MarkedReadAllSpec(ns, init);
      assert ids == init + [ids[|ids| - 1]];
      forall k | 0 <= k < |ns|
        ensures MarkedReadAll(ns, ids)[k] == if ns[k].id in ids then ns[k].(isRead := true) else ns[k]
      {
        assert ns[k].id in ids <==> ns[k].id in init || ns[k].id == ids[|ids| - 1];
      }
    }
  }

  /** Every notification of `userId` in `ns` is read. */
  predicate AllReadFor(ns: seq<Notification>, userId: string) {
    forall k :: 0 <= k < |ns| && ns[k].userId == userId ==> ns[k].isRead
  }

  lemma NoUnreadInFeed(ns: seq<Notification>, userId: string)
    requires AllReadFor(ns, userId)
    ensures !AnyUnread(Feed(ns, userId))
  {
    var feed := Feed(ns, userId);
    forall i | 0 <= i < |feed|
      ensures feed[i].isRead
    {
      var k :| 0 <= k < |ns| && ns[k] == feed[i];
    }
  }

  lemma MarkAllReadsUser(ns: seq<Notification>, userId: string)
    ensures AllReadFor(MarkedReadAll(ns, UnreadIds(Feed(ns, userId))), userId)
  {
    var feed := Feed(ns, userId);
    var ids := UnreadIds(feed);
    var r := MarkedReadAll(ns, ids);
    MarkedReadAllSpec(ns, ids);
    forall k | 0 <= k < |r| && r[k].userId == userId
      ensures r[k].isRead
    {
      if !ns[k].isRead {
        assert ns[k] in feed;
        var j :| 0 <= j < |feed| && feed[j] == ns[k];
        UnreadIdsSpec(feed, ns[k].id);
        assert ns[k].id in ids;
      }
    }
  }

  /** After "Mark All Read" the user's feed holds no unread notification, so the
      button disappears. */
  lemma FeedAllReadAfterMarkAll(ns: seq<Notification>, userId: string)
    ensures !AnyUnread(Feed(MarkedReadAll(ns, UnreadIds(Feed(ns, userId))), userId))
  {
    MarkAllReadsUser(ns, userId);
    NoUnreadInFeed(MarkedReadAll(ns, UnreadIds(Feed(ns, userId))), userId);
  }

  /** With distinct notification ids, "Mark All Read" leaves every other
      user's notification as it was. */
  lemma MarkAllKeepsOtherUsers(ns: seq<Notification>, userId: string, k: int)
    requires Distinct(NotificationIds(ns))
    requires 0 <= k < |ns| && ns[k].userId != userId
    ensures MarkedReadAll(ns, UnreadIds(Feed(ns, userId)))[k] == ns[k]
  {
    var feed := Feed(ns, userId);
    var ids := UnreadIds(feed);
    FeedAvoidsOtherIds(ns, userId, k);
    UnreadIdsSpec(feed, ns[k].id);
    MarkedReadAllSpec(ns, ids);
  }

  /** With distinct ids, no notification of the feed carries the id of another
      user's notification. */
  lemma FeedAvoidsOtherIds(ns: seq<Notification>, userId: string, k: int)
    requires Distinct(NotificationIds(ns))
    requires 0 <= k < |ns| && ns[k].userId != userId
    ensures forall i :: 0 <= i < |Feed(ns, userId)| ==> Feed(ns, userId)[i].id != ns[k].id
  {
    var feed := Feed(ns, userId);
    forall i | 0 <= i < |feed|
      ensures feed[i].id != ns[k].id
    {
      var j :| 0 <= j < |ns| && ns[j] == feed[i];
      assert j != k;
      assert NotificationIds(ns)[j] != NotificationIds(ns)[k];
    }
  }

  /** Without distinct ids the promise fails: when a claim's two notices were
      added at the same clock reading, the claimant's "Mark All Read" also
      marks the post author's notice read. */
  lemma MarkAllReachesSharedId(author: string, claimant: string, clock: nat)
    requires author != claimant
    ensures var ns := [NewNotification(NotificationDraft(claimant, ClaimNotice, "", "", false, None), clock),
                       NewNotification(NotificationDraft(author, ClaimNotice, "", "", false, None), clock)];
            ns[1].userId != claimant && !ns[1].isRead
            && MarkedReadAll(ns, UnreadIds(Feed(ns, claimant)))[1].isRead
  {
    var ns := [NewNotification(NotificationDraft(claimant, ClaimNotice, "", "", false, None), clock),
               NewNotification(NotificationDraft(author, ClaimNotice, "", "", false, None), clock)];
    var feed := Feed(ns, claimant);
    assert ns[0] in feed;
    UnreadIdsSpec(feed, ns[0].id);
    MarkedReadAllSpec(ns, UnreadIds(feed));
  }

  /** A second "Mark All Read" passes no id, so it changes nothing. */
  lemma SecondMarkAllIsNoOp(ns: seq<Notification>, userId: string)
    ensures var once := MarkedReadAll(ns, UnreadIds(Feed(ns, userId)));
            UnreadIds(Feed(once, userId)) == []
            && MarkedReadAll(once, UnreadIds(Feed(once, userId))) == once
  {
    var once := MarkedReadAll(ns, UnreadIds(Feed(ns, userId)));
    FeedAllReadAfterMarkAll(ns, userId);
    var feed := Feed(once, userId);
    if UnreadIds(feed) != [] {
      UnreadIdsSpec(feed, UnreadIds(feed)[0]);
    }
  }

  /** With distinct ids, marking one notification read changes that one only. */
  lemma MarkOneChangesOnlyIt(ns: seq<Notification>, k: int)
    requires Distinct(NotificationIds(ns))
    requires 0 <= k < |ns|
    ensures MarkedRead(ns, ns[k].id)[k] == ns[k].(isRead := true)
    ensures forall j :: 0 <= j < |ns| && j != k ==> MarkedRead(ns, ns[k].id)[j] == ns[j]
  {
    forall j | 0 <= j < |ns| && j != k
      ensures ns[j].id != ns[k].id
    {
      assert NotificationIds(ns)[j] != NotificationIds(ns)[k];
    }
  }

  lemma UnreadIdsStep(feed: seq<Notification>, i: int)
    requires 0 <= i < |feed|
    ensures UnreadIds(feed[..i + 1]) == UnreadIds(feed[..i]) + (if feed[i].isRead then [] else [feed[i].id])
  {
    assert feed[..i + 1][..i] == feed[..i];
  }

  lemma MarkedReadAllSnoc(ns: seq<Notification>, ids: seq<string>, id: string)
    ensures MarkedReadAll(ns, ids + [id]) == MarkedRead(MarkedReadAll(ns, ids), id)
  {
    assert (ids + [id])[..|ids|] == ids;
  }

  /** One turn of the mark-all loop extends the marked prefix of the feed by one. */
  lemma MarkAllStep(ns: seq<Notification>, feed: seq<Notification>, i: int)
    requires 0 <= i < |feed|
    ensures MarkedReadAll(ns, UnreadIds(feed[..i + 1])) ==
      if feed[i].isRead then MarkedReadAll(ns, UnreadIds(feed[..i]))
      else MarkedRead(MarkedReadAll(ns, UnreadIds(feed[..i])), feed[i].id)
  {
    UnreadIdsStep(feed, i);
    if !feed[i].isRead {
      MarkedReadAllSnoc(ns, UnreadIds(feed[..i]), feed[i].id);
    } else {
      assert UnreadIds(feed[..i]) + [] == UnreadIds(feed[..i]);
    }
  }

  /** `handleMarkAllAsRead`: for each notification of the feed as rendered,
      an unread one is passed to `markNotificationRead`. */
  method MarkAllAsRead(store: Store, user: User)
    modifies store
    ensures store.notifications ==
      MarkedReadAll(old(store.notifications), UnreadIds(Feed(old(store.notifications), user.id)))
    ensures store.posts == old(store.posts) && store.claims == old(store.claims)
    ensures store.chatMessages == old(store.chatMessages) && store.meetings == old(store.meetings)
  {
    var before := store.notifications;
    var feed := Feed(before, user.id);
    var i := 0;
    while i < |feed|
      invariant 0 <= i <= |feed|
      invariant store.notifications == MarkedReadAll(before, UnreadIds(feed[..i]))
      invariant store.posts == old(store.posts) && store.claims == old(store.claims)
      invariant store.chatMessages == old(store.chatMessages) && store.meetings == old(store.meetings)
    {
      MarkAllStep(before, feed, i);
      if !feed[i].isRead {
        store.MarkNotificationRead(feed[i].id);
      }
      i := i + 1;
    }
    assert feed[..|feed|] == feed;
  }

  /** A click on a notification: an unread one is marked read, a read one is left. */
  method ClickNotification(store: Store, n: Notification)
    modifies store
    ensures store.notifications == if n.isRead then old(store.notifications) else MarkedRead(old(store.notifications), n.id)
    ensures store.posts == old(store.posts) && store.claims == old(store.claims)
    ensures store.chatMessages == old(store.chatMessages) && store.meetings == old(store.meetings)
  {
    if !n.isRead {
      store.MarkNotificationRead(n.id);
    }
  }
}
