/** The chat window of one thread: the thread's messages, sending a message,
    the preset quick replies and scheduling a meeting, which writes a meeting
    and then announces it in the thread. */
module ChatWindowComponent {
  import opened Optional
  import opened Types
  import opened Seqs
  import opened Text
  import opened AppContext

  function InThread(chatId: string): ChatMessage -> bool {
    (m: ChatMessage) => m.chatId == chatId
  }

  /** `chatMessages.filter(msg => msg.chatId === chatId)`: the thread is the
      order-preserving subsequence of the store's messages with that chat id. */
  function Thread(ms: seq<ChatMessage>, chatId: string): (r: seq<ChatMessage>)
    ensures forall i :: 0 <= i < |r| ==> r[i].chatId == chatId && r[i] in ms
    ensures forall i :: 0 <= i < |ms| && ms[i].chatId == chatId ==> ms[i] in r
    ensures IsSubsequence(r, ms)
  {
    FilterIsSubsequence(ms, InThread(chatId));
    Filter(ms, InThread(chatId))
  }

  /** Appending a message extends its own thread by that message and leaves
      every other thread as it was. */
  lemma ThreadAfterAppend(ms: seq<ChatMessage>, m: ChatMessage, chatId: string)
    ensures Thread(ms + [m], chatId) == Thread(ms, chatId) + (if m.chatId == chatId then [m] else [])
  {
    FilterConcat(ms, [m], InThread(chatId));
    assert [m][1..] == [];
  }

  function Stamp(m: ChatMessage): int {
    m.timestamp
  }

  predicate Chronological(ms: seq<ChatMessage>) {
    SortedBy(ms, Stamp)
  }

  /** A thread read from a chronological message list is chronological. */
  lemma ThreadIsChronological(ms: seq<ChatMessage>, chatId: string)
    requires Chronological(ms)
    ensures Chronological(Thread(ms, chatId))
  {
    FilterKeepsSorted(ms, InThread(chatId), Stamp);
  }

  /** A message sent at a clock reading no earlier than every stored message
      keeps the list chronological. */
  lemma AppendKeepsChronological(ms: seq<ChatMessage>, d: MessageDraft, clock: nat)
    requires Chronological(ms)
    requires forall i :: 0 <= i < |ms| ==> ms[i].timestamp <= clock
    ensures Chronological(ms + [NewMessage(d, clock)])
  {
  }

  /** The announcement posted after a meeting is scheduled; `dateText` and
      `timeText` are what date-fns `format` gives for the 'PPP' and 'p' patterns.
      The text opens with the four characters the source file holds where a
      calendar emoji was meant (its UTF-8 bytes read as Windows-1252). */
  function Announcement(dateText: string, timeText: string, location: string): (r: string)
    ensures Contains(r, location)
    ensures !IsBlank(r)
  {
    var prefix := "\U{F0}\U{178}\U{201C}\U{2026} Meeting scheduled for " + dateText + " at " + timeText + " at ";
    var r := prefix + location;
    assert OccursAt(r, location, |prefix|) by {
      assert r[|prefix|..|prefix| + |location|] == location;
    }
    assert r[5] == 'M';
    r
  }

  const PresetMessages: seq<string> := [
    "I'm available to meet today",
    "Can you confirm the item details?",
    "Let's meet at a public place",
    "I can meet at 2 PM",
    "Is this still available?",
    "Thank you for finding my item!",
    "Can you provide more details?",
    "I'll be there in 10 minutes"
  ]

  /** `presetMessages.slice(0, 4)`: only the first four presets are offered. */
  function OfferedPresets(): (r: seq<string>)
    ensures |r| == 4 && r == PresetMessages[..4]
    ensures forall k :: 0 <= k < |r| ==> !IsBlank(r[k])
  {
    var r := PresetMessages[..4];
    assert r[0][0] == 'I' && r[1][0] == 'C' && r[2][0] == 'L' && r[3][0] == 'I';
    r
  }

  class ChatWindow {
    const chatId: string
    const user: User
    var message: string
    var showMeetingModal: bool
    var meetingDate: string
    var meetingTime: string
    var meetingLocation: string

    constructor (chatId: string, user: User)
      ensures this.chatId == chatId && this.user == user
      ensures message == "" && !showMeetingModal
      ensures meetingDate == "" && meetingTime == "" && meetingLocation == ""
    {
      this.chatId := chatId;
      this.user := user;
      message := "";
      showMeetingModal := false;
      meetingDate, meetingTime, meetingLocation := "", "", "";
    }

    /** The draft `sendMessage` hands to the store. */
    function Outgoing(text: string, isPreset: bool): MessageDraft {
      MessageDraft(chatId, user.id, user.username, text, Some(isPreset))
    }

    /** `sendMessage(text, isPreset)`: a blank text changes nothing; otherwise
        the untrimmed text is appended to this thread and the input is cleared. */
    method SendMessage(store: Store, text: string, isPreset: bool, clock: nat)
      modifies this`message, store
      ensures IsBlank(text) ==> store.chatMessages == old(store.chatMessages) && message == old(message)
      ensures !IsBlank(text) ==>
        store.chatMessages == old(store.chatMessages) + [NewMessage(Outgoing(text, isPreset), clock)]
        && message == ""
      ensures store.posts == old(store.posts) && store.claims == old(store.claims)
      ensures store.notifications == old(store.notifications) && store.meetings == old(store.meetings)
    {
      if Trim(text) == [] {
        return;
      }
      store.AddChatMessage(Outgoing(text, isPreset), clock);
      message := "";
    }

    /** The send button and the Enter key: send what is typed, not as a preset. */
    method SendTyped(store: Store, clock: nat)
      modifies this`message, store
      ensures IsBlank(old(message)) ==> store.chatMessages == old(store.chatMessages) && message == old(message)
      ensures !IsBlank(old(message)) ==>
        store.chatMessages == old(store.chatMessages) + [NewMessage(Outgoing(old(message), false), clock)]
        && message == ""
      ensures store.posts == old(store.posts) && store.claims == old(store.claims)
      ensures store.notifications == old(store.notifications) && store.meetings == old(store.meetings)
    {
      SendMessage(store, message, false, clock);
    }

    /** A quick-reply button: one of the four offered presets, sent as a preset. */
    method SendPreset(store: Store, k: nat, clock: nat)
      requires k < |OfferedPresets()|
      modifies this`message, store
      ensures store.chatMessages == old(store.chatMessages) + [NewMessage(Outgoing(OfferedPresets()[k], true), clock)]
      ensures message == ""
      ensures store.posts == old(store.posts) && store.claims == old(store.claims)
      ensures store.notifications == old(store.notifications) && store.meetings == old(store.meetings)
    {
      SendMessage(store, OfferedPresets()[k], true, clock);
    }

    /** `scheduleMeetingHandler`: nothing happens while the date, the time or the
        location is empty. Otherwise one scheduled meeting by this user is
        appended, then the announcement naming the location is sent as a preset
        message, and the modal and its three fields (and, through `sendMessage`,
        the message input) are reset. `at` is the instant the date and time
        fields denote. */
    method ScheduleMeetingHandler(store: Store, at: Time, dateText: string, timeText: string,
                                  meetingClock: nat, messageClock: nat)
      modifies this, store
      ensures old(meetingDate == "" || meetingTime == "" || meetingLocation == "") ==>
        store.meetings == old(store.meetings) && store.chatMessages == old(store.chatMessages)
        && message == old(message) && showMeetingModal == old(showMeetingModal)
        && meetingDate == old(meetingDate) && meetingTime == old(meetingTime)
        && meetingLocation == old(meetingLocation)
      ensures old(meetingDate != "" && meetingTime != "" && meetingLocation != "") ==>
        store.meetings == old(store.meetings)
          + [NewMeeting(MeetingDraft(chatId, user.id, at, old(meetingLocation), Scheduled), meetingClock)]
        && store.chatMessages == old(store.chatMessages)
          + [NewMessage(Outgoing(Announcement(dateText, timeText, old(meetingLocation)), true), messageClock)]
        && message == "" && !showMeetingModal
        && meetingDate == "" && meetingTime == "" && meetingLocation == ""
      ensures store.posts == old(store.posts) && store.claims == old(store.claims)
      ensures store.notifications == old(store.notifications)
    {
      if meetingDate == "" || meetingTime == "" || meetingLocation == "" {
        return;
      }
      store.ScheduleMeeting(MeetingDraft(chatId, user.id, at, meetingLocation, Scheduled), meetingClock);
      SendMessage(store, Announcement(dateText, timeText, meetingLocation), true, messageClock);
      showMeetingModal := false;
      meetingDate := "";
      meetingTime := "";
      meetingLocation := "";
    }
  }
}
