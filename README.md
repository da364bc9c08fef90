# Lost-and-found prototype: a verified model of its data layer and handlers

This project models the in-memory core of a React lost-and-found application.
In the application, users post lost or found items and claim other users' items.
Claimants and authors then talk in a per-claim chat and schedule a hand-over meeting.
Everyone receives notifications.

The model has three layers:

- **The data store.** The application provider keeps five lists: posts, claims, notifications, chat messages and meetings. This is `AppContext.Store`, a class with five `seq` fields. Its methods mirror the provider's nine operations.
  - Posts, claims and notifications are prepended; chat messages and meetings are appended.
  - An update rewrites every record with the given id and keeps all others.
  - Every id is the decimal string of the clock reading at creation. So two records created in the same millisecond share an id.
- **The pages and components that drive the store.** Each of these is a module: the claim modal, the claim page, the chat window, the notifications page, My Posts, the admin dashboard, the post form, the home feed, the active-claims page, sign-up, the route guards and the navigation bar.
  - Each handler is a method taking the store.
  - Each page's local state that a handler changes (image lists, step flags, form fields, the code slots) is a small class.
  - Selections are functions over the store's lists: the filters, `find`, the tab counts and the guards.
- **Helper modules.** `Seqs` holds `filter`, `find` and `map` with their algebra: subsequence, concatenation, counting and sortedness. `Text` holds the JavaScript string operations the handlers rely on: `toString` of a clock reading, `trim`, ASCII `toLowerCase`, `includes` and `length`, which counts UTF-16 code units. `ImageList` holds the three bounded image lists.

What is proved, besides each operation's exact effect on the store:

- updates keep length, order and ids, and an unknown id is a no-op;
- marking read is idempotent;
- each thread is the chat-id subsequence of the message list and stays chronological;
- both claim flows write exactly their three or four records, in order;
- "Mark All Read" leaves the user's feed with nothing unread;
- "Mark All Read" leaves other users' notifications alone when ids are distinct, but can reach another user's notification when two notices share a clock reading;
- a second "Mark All Read" changes nothing;
- the My Posts tabs partition the user's posts;
- the search filter shows everything for an empty term and never brings a post back as the term grows;
- the scheduled-meeting lookup returns the first scheduled meeting of the chat, and a meeting once closed is never shown again;
- the six-slot code verifies iff the slots are "1" to "6";
- each route shows its page to its audience and to no one else;
- the badge counts every user's unread notifications.

Points where the code is followed over the intended design:

- Ids are `Date.now().toString()` and are not unique. Every result that needs distinct ids says so in its precondition.
- `addClaim` does not set `createdAt`. The claim modal leaves it out, and the claim page sets it. So `Claim.createdAt` is optional.
- The declared `Claim` lacks the fields the two claim forms store. Here they are optional fields.
- The claim modal submits without checking whether the claimant wrote the post. Only the claim page refuses self-claims.
- The home feed's Claim button goes to `/claim/:id`: PostCard's own `handleClaim` navigates there and never calls `onClaim`. So `HomePage.handleClaim` and `ClaimModal` are unused; both are modelled as written.

Clock readings (`Date.now()`, `new Date()`) are method parameters, one per write. The random image pick is an index parameter. The date-fns strings of the meeting announcement are string parameters.

## Model

| member | source | states |
|---|---|---|
| Text.Decimal | src/context/AppContext.tsx:77 | the id text of a clock reading is a non-empty string of decimal digits |
| Text.DecimalInjective | src/context/AppContext.tsx:77 | two clock readings give the same id iff they are equal |
| Text.Trim | src/components/ChatWindow.tsx:36 | `trim` is empty exactly for empty and whitespace-only text (the ECMAScript whitespace and line-terminator set), and a non-empty result starts and ends with a non-whitespace character |
| Text.Lower | src/pages/HomePage.tsx:19-21 | lowercasing keeps the length and maps each character through ASCII `toLowerCase` |
| Text.Contains | src/pages/HomePage.tsx:19-21 | `includes` holds iff the needle occurs at some position of the text |
| Text.Utf16Length | src/pages/SignUpPage.tsx:40 | JavaScript's `length` counts UTF-16 code units: between one and two per character, and one per character exactly when none lies outside the Basic Multilingual Plane |
| AppContext.NewPost | src/context/AppContext.tsx:74-82 | `addPost` keeps every field the caller gave (the draft projection gives the draft back) and takes the id and both timestamps from the clock reading |
| AppContext.NewClaim | src/context/AppContext.tsx:90-97 | `addClaim` keeps every field the caller gave, including `createdAt`, and takes the id and `updatedAt` from the clock reading |
| AppContext.NewNotification | src/context/AppContext.tsx:105-112 | `addNotification` keeps every field the caller gave and takes the id and `createdAt` from the clock reading |
| AppContext.NewMessage | src/context/AppContext.tsx:120-127 | `addChatMessage` keeps every field the caller gave and takes the id and `timestamp` from the clock reading |
| AppContext.NewMeeting | src/context/AppContext.tsx:129-135 | `scheduleMeeting` keeps every field the caller gave, the date included, and takes only the id from the clock reading |
| AppContext.UpdatedPosts | src/context/AppContext.tsx:84-88 | `updatePost` keeps length and order; every post with the id gets the patch and `updatedAt = now`; every other post is unchanged; a patch without `id` keeps every id; an unknown id changes nothing |
| AppContext.UpdatedClaims | src/context/AppContext.tsx:99-103 | the same for `updateClaim` |
| AppContext.MarkedRead | src/context/AppContext.tsx:114-118 | `markNotificationRead` sets `isRead` on every notification with the id and on no other; an unknown id changes nothing |
| AppContext.UpdatedMeetings | src/context/AppContext.tsx:137-141 | `updateMeeting` merges the patch into the meetings with the id; it refreshes no timestamp and keeps every date the patch does not set |
| AppContext.MarkReadIdempotent | src/context/AppContext.tsx:114-118 | marking the same id read twice equals marking it once |
| AppContext.StatusUpdateChangesOnlyStatus | src/context/AppContext.tsx:84-88 | a `{ status }` patch changes a matching post's status and `updatedAt` only, whatever the old status was |
| AppContext.SeedPosts | src/context/AppContext.tsx:32-67 | the initial posts are two, with ids "1" and "2", both active, unreported and unclaimed |
| AppContext.LaterClockIdIsFresh | src/context/AppContext.tsx:77 | an id taken after every id of a list was taken is not in the list |
| AppContext.FreshPostKeepsIdsDistinct | src/context/AppContext.tsx:74-82 | prepending a post with a fresh id keeps post ids distinct |
| AppContext.FreshNotificationKeepsIdsDistinct | src/context/AppContext.tsx:105-112 | prepending a notification with a fresh id keeps notification ids distinct |
| AppContext.SameClockSameId | src/context/AppContext.tsx:105-112 | two notifications added at one clock reading break id distinctness |
| AppContext.Store.constructor | src/context/AppContext.tsx:32-72 | the provider starts with the two seed posts and four empty lists |
| AppContext.Store.AddPost | src/context/AppContext.tsx:74-82 | the new post, stamped with the clock, is put first before the old list; the other lists are unchanged |
| AppContext.Store.UpdatePost | src/context/AppContext.tsx:84-88 | posts become `UpdatedPosts` of the old posts; nothing else changes |
| AppContext.Store.AddClaim | src/context/AppContext.tsx:90-97 | the new claim is put first before the old claims; nothing else changes |
| AppContext.Store.UpdateClaim | src/context/AppContext.tsx:99-103 | claims become `UpdatedClaims` of the old claims; nothing else changes |
| AppContext.Store.AddNotification | src/context/AppContext.tsx:105-112 | the new notification is put first before the old ones; nothing else changes |
| AppContext.Store.MarkNotificationRead | src/context/AppContext.tsx:114-118 | notifications become `MarkedRead` of the old ones; nothing else changes |
| AppContext.Store.AddChatMessage | src/context/AppContext.tsx:120-127 | the new message is appended after the old messages; nothing else changes |
| AppContext.Store.ScheduleMeeting | src/context/AppContext.tsx:129-135 | the new meeting is appended after the old meetings; nothing else changes |
| AppContext.Store.UpdateMeeting | src/context/AppContext.tsx:137-141 | meetings become `UpdatedMeetings` of the old ones; nothing else changes |
| ImageList.Add | src/components/ClaimModal.tsx:38-43 | below the bound the image is appended, at the bound nothing changes, and a list within the bound stays within it |
| ImageList.RemoveAt | src/components/ClaimModal.tsx:45-47 | removing index i drops exactly position i and keeps the rest in order; an index outside the list drops nothing |
| ChatWindowComponent.Thread | src/components/ChatWindow.tsx:33 | a thread is the order-preserving subsequence of all messages with that chat id, and holds every such message |
| ChatWindowComponent.ThreadAfterAppend | src/components/ChatWindow.tsx:33 | appending a message extends its own thread by it and leaves every other thread unchanged |
| ChatWindowComponent.ThreadIsChronological | src/components/ChatWindow.tsx:33 | a thread of a chronological message list is chronological |
| ChatWindowComponent.AppendKeepsChronological | src/context/AppContext.tsx:120-127 | appending a message stamped no earlier than all others keeps the list chronological |
| ChatWindowComponent.Announcement | src/components/ChatWindow.tsx:63-66 | the meeting announcement contains the location and is not blank, so it is always sent |
| ChatWindowComponent.OfferedPresets | src/components/ChatWindow.tsx:122 | exactly the first four presets are offered, none blank |
| ChatWindowComponent.ChatWindow.constructor | src/components/ChatWindow.tsx:12-17 | the input, the modal flag and the three meeting fields start empty |
| ChatWindowComponent.ChatWindow.SendMessage | src/components/ChatWindow.tsx:35-47 | blank text changes nothing; otherwise one message with the untrimmed text, this chat id, the user as sender and the given preset flag is appended, and the input is cleared |
| ChatWindowComponent.ChatWindow.SendTyped | src/components/ChatWindow.tsx:149-152 | the send button and Enter send the typed text as a non-preset message |
| ChatWindowComponent.ChatWindow.SendPreset | src/components/ChatWindow.tsx:122-125 | a quick reply appends one of the four offered presets with `isPreset = true` |
| ChatWindowComponent.ChatWindow.ScheduleMeetingHandler | src/components/ChatWindow.tsx:49-72 | with an empty date, time or location nothing changes; otherwise one scheduled meeting by the user is appended, then the preset announcement naming the location, and the modal and fields are reset |
| ClaimModalComponent.ChatIdsDifferByClock | src/components/ClaimModal.tsx:55 | for one post and claimant, two chat ids are equal iff they were taken at the same clock reading |
| ClaimModalComponent.Greeting | src/components/ClaimModal.tsx:76 | the opening chat message ends with the claim message verbatim |
| ClaimModalComponent.SeedMessageJoinsClaimThread | src/components/ClaimModal.tsx:55-78 | the claim's chat id is the seeded message's, and that message becomes the last of the claim's thread |
| ClaimModalComponent.AuthorNotice | src/components/ClaimModal.tsx:81-88 | the author's notice is an unread claim notice to the post's author about the post, and its text names the claimant and the item |
| ClaimModalComponent.ClaimantNotice | src/components/ClaimModal.tsx:91-98 | the claimant's notice is an unread claim notice to the claimant about the post, and its text names the item |
| ClaimModalComponent.ClaimModal.constructor | src/components/ClaimModal.tsx:22-24 | the modal opens on the form step with no proof images |
| ClaimModalComponent.ClaimModal.AddProofImage | src/components/ClaimModal.tsx:38-43 | one of the three demo images is added while fewer than three are present |
| ClaimModalComponent.ClaimModal.RemoveProofImage | src/components/ClaimModal.tsx:45-47 | exactly the chosen proof image is removed |
| ClaimModalComponent.ClaimModal.Record | src/components/ClaimModal.tsx:58-98 | the four writes in order: the claim prepended, the greeting appended to the claim's chat, the author's and then the claimant's notice prepended; posts and meetings unchanged |
| ClaimModalComponent.ClaimModal.Submit | src/components/ClaimModal.tsx:49-102 | the form is valid iff the message has at least 20 UTF-16 code units and a contact method is chosen. An invalid form writes nothing. A valid form adds one pending claim with the proof fields and chat id, appends the greeting to that chat as a non-preset message from the claimant, and adds the author's notice and then the claimant's (first), both unread claim notices about the post. The step becomes confirmation. Self-claims are not checked |
| ClaimModalComponent.ClaimModal.HandleClose | src/components/ClaimModal.tsx:104-109 | `onSuccess` is called iff the modal is on the confirmation step, where a successful `Submit` leaves it; `onClose` always |
| ClaimItemPage.View | src/pages/ClaimItemPage.tsx:28-81 | "not found" iff no post has the id; "own item" when the first such post is the viewer's; otherwise the form for that first post, which is not the viewer's |
| ClaimItemPage.OwnPostNeverOffered | src/pages/ClaimItemPage.tsx:62-81 | when the first post with the id is the viewer's, the form is never offered |
| ClaimItemPage.AuthorNotice | src/pages/ClaimItemPage.tsx:118-125 | the author's notice is an unread claim notice to the post's author about the post, and its text names the claimant and the item |
| ClaimItemPage.ClaimantNotice | src/pages/ClaimItemPage.tsx:128-135 | the claimant's notice is an unread claim notice to the claimant about the post, and its text names the item |
| ClaimItemPage.ClaimPage.constructor | src/pages/ClaimItemPage.tsx:17-20 | the page starts with no images, not submitting, no success and no error |
| ClaimItemPage.ClaimPage.AddSupportingImage | src/pages/ClaimItemPage.tsx:83-88 | a demo image is added while fewer than five are present |
| ClaimItemPage.ClaimPage.RemoveSupportingImage | src/pages/ClaimItemPage.tsx:90-92 | exactly the chosen supporting image is removed |
| ClaimItemPage.ClaimPage.Record | src/pages/ClaimItemPage.tsx:100-137 | the claim is prepended, then the author's and the claimant's notices; success is set, the error is cleared and submitting is over |
| ClaimItemPage.ClaimPage.Submit | src/pages/ClaimItemPage.tsx:94-143 | nothing is written, and the page's flags and error stay as they were, for a missing post, the viewer's own post or details under 50 UTF-16 code units. Otherwise one pending claim with the details, the images, `createdAt = now`, `adminReviewed = false` and no chat id is added, then the author's and the claimant's unread claim notices; no chat message is written |
| NotificationsPage.Feed | src/pages/NotificationsPage.tsx:12 | the feed is the order-preserving subsequence of the user's notifications, and holds all of them |
| NotificationsPage.UnreadIdsSpec | src/pages/NotificationsPage.tsx:32-38 | the loop passes an id iff an unread notification of the feed carries it |
| NotificationsPage.MarkedReadAllSpec | src/pages/NotificationsPage.tsx:32-38 | marking a list of ids read marks exactly the notifications whose id is listed, keeping length and order |
| NotificationsPage.NoUnreadInFeed | src/pages/NotificationsPage.tsx:51 | when all of a user's notifications are read, the "Mark All Read" condition is false |
| NotificationsPage.MarkAllReadsUser | src/pages/NotificationsPage.tsx:32-38 | after "Mark All Read" every notification of the user is read |
| NotificationsPage.FeedAllReadAfterMarkAll | src/pages/NotificationsPage.tsx:32-51 | after "Mark All Read" the button's condition is false |
| NotificationsPage.MarkAllKeepsOtherUsers | src/pages/NotificationsPage.tsx:32-38 | with distinct ids, every other user's notification is left as it was |
| NotificationsPage.FeedAvoidsOtherIds | src/pages/NotificationsPage.tsx:12 | with distinct ids, no feed entry carries another user's notification id |
| NotificationsPage.MarkAllReachesSharedId | src/pages/NotificationsPage.tsx:32-38 | without distinct ids the promise fails: two notices added at one clock reading for two users are both marked by the claimant's "Mark All Read" |
| NotificationsPage.SecondMarkAllIsNoOp | src/pages/NotificationsPage.tsx:34-36 | a second "Mark All Read" passes no id and changes nothing |
| NotificationsPage.MarkOneChangesOnlyIt | src/pages/NotificationsPage.tsx:28-30 | with distinct ids, marking one notification read changes it and no other |
| NotificationsPage.MarkAllAsRead | src/pages/NotificationsPage.tsx:32-38 | the loop over the feed as rendered leaves the store's notifications equal to `MarkedReadAll` of the feed's unread ids; nothing else changes |
| NotificationsPage.ClickNotification | src/pages/NotificationsPage.tsx:80 | clicking an unread notification marks it read; clicking a read one changes nothing |
| MyPostsPage.MyPosts | src/pages/MyPostsPage.tsx:13 | "My posts" is the order-preserving subsequence of the posts written by the user, and holds all of them |
| MyPostsPage.Shown | src/pages/MyPostsPage.tsx:14-18 | the selected tab shows, in store order, all of the user's posts ("All"), exactly the open ones ("Active") or exactly the archived and returned ones ("Archived") |
| MyPostsPage.TabCountsPartition | src/pages/MyPostsPage.tsx:61-63 | "All" counts every post of the user; "Active" and "Archived" counts add up to it and no post is on both |
| MyPostsPage.CanMarkReturned | src/pages/MyPostsPage.tsx:149 | "Mark as Returned" is offered only for a post being returned, which is on the Active tab |
| MyPostsPage.CanArchive | src/pages/MyPostsPage.tsx:158 | "Archive" is offered only for an active or claimed post, never together with "Mark as Returned" |
| MyPostsPage.HandleArchive | src/pages/MyPostsPage.tsx:28-30 | the post's status becomes archived through `updatePost`; nothing else changes |
| MyPostsPage.HandleMarkReturned | src/pages/MyPostsPage.tsx:32-34 | the post's status becomes returned through `updatePost`; nothing else changes |
| MyPostsPage.ClosingMovesToArchivedTab | src/pages/MyPostsPage.tsx:14-34 | archiving or marking returned one of the user's posts puts it on the Archived tab and off the Active tab |
| AdminDashboard.PendingPosts | src/pages/AdminDashboard.tsx:12 | pending posts are exactly the active posts, in order |
| AdminDashboard.ReportedPosts | src/pages/AdminDashboard.tsx:13 | reported posts are exactly those with at least one report, in order |
| AdminDashboard.Recipient | src/pages/AdminDashboard.tsx:23 | the recipient is the author of the first post with the id; it is "1" when there is none or the author id is empty, so it is never empty |
| AdminDashboard.ApprovedNotice | src/pages/AdminDashboard.tsx:22-29 | the approval notice is an unread status notice about the post to its recipient, never to an empty user id |
| AdminDashboard.RejectedNotice | src/pages/AdminDashboard.tsx:34-41 | the rejection notice is an unread status notice about the post to its recipient, never to an empty user id |
| AdminDashboard.ApprovePost | src/pages/AdminDashboard.tsx:20-30 | approving adds one unread status notice "Post Approved" about the post and changes no post |
| AdminDashboard.RejectPost | src/pages/AdminDashboard.tsx:32-42 | rejecting archives the post, then adds one unread status notice "Post Rejected" about it to the author found before the update |
| AdminDashboard.RejectedLeavesPending | src/pages/AdminDashboard.tsx:32-33 | after rejecting, no pending post has that id |
| AdminDashboard.RecipientByIdsAndAuthors | src/pages/AdminDashboard.tsx:35 | the recipient depends only on the posts' ids and authors |
| AdminDashboard.RecipientSurvivesReject | src/pages/AdminDashboard.tsx:33-35 | the recipient is the same before and after the rejection's update |
| CreatePostPage.CreatedNotice | src/pages/CreatePostPage.tsx:65-71 | the author's unread status notice has no related id, and its text names the new post |
| CreatePostPage.CreatedPostIsFirstAndActive | src/pages/CreatePostPage.tsx:55-63 | the new post is first, has the form's six fields and the photos and the user as author, and is active with no likes, reports or claim |
| CreatePostPage.CreatePost.constructor | src/pages/CreatePostPage.tsx:19-20 | the form starts with no photos |
| CreatePostPage.CreatePost.AddPhoto | src/pages/CreatePostPage.tsx:38-43 | a demo photo is added while fewer than three are present |
| CreatePostPage.CreatePost.RemovePhoto | src/pages/CreatePostPage.tsx:45-47 | exactly the chosen photo is removed |
| CreatePostPage.CreatePost.Submit | src/pages/CreatePostPage.tsx:49-75 | with a required field missing nothing is written. Otherwise the post is added, then the author's unread "Post Created" status notice with no related id |
| HomePage.FilteredPosts | src/pages/HomePage.tsx:18-25 | a post is shown iff the lowercased term occurs in its lowercased title, description or location, its type passes the type filter and its category the category filter; the list keeps store order |
| HomePage.MatchesSearch | src/pages/HomePage.tsx:19-21 | the empty term matches every post, and a matching term is no longer than the title, description or location it occurs in |
| HomePage.FiltersOnlyNarrow | src/pages/HomePage.tsx:22-24 | the type and category filters only narrow the search: what they let through is the search result filtered again, never more posts |
| HomePage.EmptySearchShowsAll | src/pages/HomePage.tsx:19-24 | an empty term with both filters on "all" shows every post |
| HomePage.LongerSearchHidesMore | src/pages/HomePage.tsx:19-21 | a post shown for a term is shown for every prefix of it |
| HomePage.SearchIgnoresCase | src/pages/HomePage.tsx:19-21 | lowercasing the term first shows the same posts |
| HomePage.ReportNotice | src/pages/HomePage.tsx:33-40 | the report is acknowledged by an unread status notice to the reporter about the post, not to its author |
| HomePage.ClaimNoticeFor | src/pages/HomePage.tsx:44-51 | the notice of `handleClaim`, passed as `onClaim` but never called by PostCard: only the claimant gets an unread claim notice about the post |
| HomePage.HandleReport | src/pages/HomePage.tsx:32-41 | reporting adds one unread status notice to the current user about the post; no post changes |
| HomePage.HandleClaim | src/pages/HomePage.tsx:43-52 | `handleClaim`, passed as `onClaim` but never called by PostCard, adds one unread claim notice to the current user about the post; no claim is written |
| ActiveClaimsPage.ScheduledMeeting | src/pages/ActiveClaimsPage.tsx:54-56 | the meeting shown is the first in store order with the chat id and status scheduled; none iff no such meeting exists; so a cancelled or completed one is never shown |
| ActiveClaimsPage.ScheduledAfterAppend | src/pages/ActiveClaimsPage.tsx:54-56 | a newly scheduled meeting is shown unless an earlier scheduled one of the chat already is |
| ActiveClaimsPage.ShownMeetingLeavesWhenClosed | src/pages/ActiveClaimsPage.tsx:55 | after the shown meeting is cancelled or completed, no meeting with its id is shown |
| ActiveClaimsPage.CanOpenChat | src/pages/ActiveClaimsPage.tsx:143 | "Open Chat" is offered iff the claim's status string is "approved" or "returning" |
| SignUpPage.JoinFilledSlots | src/pages/SignUpPage.tsx:54 | with one character at most per slot, the joined code fills all slots iff each slot holds one character, and then lists them in order |
| SignUpPage.VerifiesIffDemoDigits | src/pages/SignUpPage.tsx:53-61 | the joined code is "123456" iff the six slots are "1" to "6" |
| SignUpPage.PasswordsAccepted | src/pages/SignUpPage.tsx:230-268 | the pair is accepted iff the password has at least 6 UTF-16 code units and the confirmation equals it |
| SignUpPage.SignUp.constructor | src/pages/SignUpPage.tsx:18-19 | the page starts on the form with six empty code slots |
| SignUpPage.SignUp.SubmitForm | src/pages/SignUpPage.tsx:150-294 | the form is accepted iff the username, email and phone are non-empty, the email matches its pattern, the passwords are accepted and the terms box is checked; only an accepted form reaches `onSubmit` (lines 34-37), which moves to the verification step |
| SignUpPage.SignUp.HandleOtpChange | src/pages/SignUpPage.tsx:39-51 | a value longer than one UTF-16 code unit is ignored; otherwise only the slot at the index changes; six slots of at most one character stay so |
| SignUpPage.SignUp.HandleVerification | src/pages/SignUpPage.tsx:53-62 | verification leads home iff the slots are "1" to "6" |
| AppRoutes.Protected | src/App.tsx:16-28 | spinner while loading, the page for a signed-in user, a redirect to "/" otherwise |
| AppRoutes.AdminOnly | src/App.tsx:30-34 | the page for an admin, a redirect to "/home" for everyone else |
| AppRoutes.Public | src/App.tsx:36-48 | spinner while loading, a redirect to "/home" for a signed-in user, the page otherwise |
| AppRoutes.View | src/App.tsx:57-138 | the route table shows the spinner while loading, and afterwards each page to every member of its audience: public pages to every signed-out visitor, protected pages to every signed-in user, the admin page to every admin |
| AppRoutes.AdminRouteDecisions | src/App.tsx:121-130 | "/admin": spinner while loading, "/" signed out, "/home" for a non-admin, the dashboard for an admin |
| AppRoutes.PagesShownOnlyToTheirAudience | src/App.tsx:57-138 | a page never shows while loading; public pages show only signed out, the others only signed in, the admin page only to an admin |
| NavigationComponent.UnreadCountSpansUsers | src/components/Navigation.tsx:12 | the badge count is the user's unread notifications plus every other user's |
| NavigationComponent.BadgeAfterMarkAll | src/components/Navigation.tsx:12 | with distinct ids, after "Mark All Read" the badge still counts exactly the other users' unread notifications |
| NavigationComponent.OthersUnchangedByMarkAll | src/components/Navigation.tsx:12 | the other users' unread notifications survive "Mark All Read" unchanged |
| NavigationComponent.NavItems | src/components/Navigation.tsx:14-24 | the five base entries come first; the Admin entry is appended, and present, iff the user is an admin |
| NavigationComponent.MobileItems | src/components/Navigation.tsx:80 | the mobile bar of the menu has four entries, ends with "Notifications" and its badge, and never shows "My Posts" or "Admin", whoever is signed in |
| NavigationComponent.BadgeAsWritten | src/components/Navigation.tsx:52 | the badge expression as written renders the text "0" for a zero count and otherwise agrees with `Badge` |
| NavigationComponent.ZeroBadgeShowsStrayZero | src/components/Navigation.tsx:52 | with no unread notification the Notifications entry shows "0" |
| NavigationComponent.Badge | src/components/Navigation.tsx:52 | the count bubble is rendered iff the count is positive, and then shows the count |
| NavigationComponent.NotificationsBubbleIffUnread | src/components/Navigation.tsx:12-52 | the Notifications bubble shows iff some notification in the store is unread |

## Findings

| source | as written | input that shows it | evidently intended | confidence | as-written member | corrected member |
|---|---|---|---|---|---|---|
| src/components/Navigation.tsx:52 | `{item.badge && item.badge > 0 && (...)}` evaluates to the number 0 for a zero badge, and React renders 0 as text | a store whose notifications are all read: the Notifications entry has badge 0 | render nothing unless the count is positive | high; not executed | NavigationComponent.BadgeAsWritten (ZeroBadgeShowsStrayZero) | NavigationComponent.Badge (NotificationsBubbleIffUnread) |

## Left out

- Rendering, styling, icons, layout and `formatDistanceToNow`: presentation only.
- Navigation through the router (`navigate`, `<Navigate>`, `useParams`): a route decision is a returned tag, and the claim page's post id is a constructor argument.
- The react-hook-form machinery: only its rules are kept, as predicates over the submitted values. Error messages and field registration are left out.
- The `setTimeout` delays before the three submissions: the writes are modelled as happening at once.
- `Date.now()` and `new Date()`: each write takes its clock reading as a parameter. One reading stands for a record's id and its timestamps, although the code reads the clock separately for them.
- `Math.random()` image picks: replaced by an index parameter into the demo list.
- The date-fns text of the meeting announcement: the 'PPP' and 'p' renderings are parameters, and the meeting date is the instant the date and time fields denote, also a parameter (parsing `${date}T${time}` is not modelled).
- Text.Lower: lowercases ASCII letters only, not the full Unicode `toLowerCase`.
- The `maxLength={1}` attribute of the code inputs: a browser limit on typing; `handleOtpChange`'s own length check is modelled.
- SignUpPage.SignUp.SubmitForm: the email pattern's verdict is an input of the form (`emailMatches`), because the regular expression is not modelled; the username, phone, password, confirmation and terms rules are modelled.
- `localStorage`, `alert` and input focus handling in the sign-up page: browser I/O.
- `LoginPage`, `AccountTypeSelectionPage`, `PostCard` and the authentication context: they are not part of this model. The signed-in user is a parameter, and the routes guarantee the pages that use `user!` one.
- The like button of the home page: it only logs to the console and changes no state.
- The demo arrays `activeClaims` of the active claims page and `mockUsers` of the admin dashboard: fixed data.
- Patches cannot set an optional field back to absent, and a post or claim patch carries no `updatedAt`, because the store always overwrites it.
- ClaimItemPage.ClaimPage.Submit: the `catch` branch that sets `submitError` is not modelled, because nothing in the modelled writes can throw.
- SignUpPage.SignUp.HandleOtpChange: requires an index below 6, the positions of the six inputs; a larger index would extend the JavaScript array.
