/** The active claims page: the scheduled meeting shown on a claim, and when
    its chat can be opened. */
module ActiveClaimsPage {
  import opened Optional
  import opened Types
  import opened Seqs
  import opened AppContext

  function IsScheduledIn(chatId: string): Meeting -> bool {
    (m: Meeting) => m.chatId == chatId && m.status == Scheduled
  }

  /** `getScheduledMeeting`: `meetings.find(m => m.chatId === chatId && m.status === 'scheduled')`. */
  function ScheduledMeeting(ms: seq<Meeting>, chatId: string): (r: Option<Meeting>)
    ensures r.Some? ==> r.value.chatId == chatId && r.value.status == Scheduled
    ensures r.Some? ==> exists i :: IsFirstMatch(ms, IsScheduledIn(chatId), i) && ms[i] == r.value
    ensures r.None? <==> forall i :: 0 <= i < |ms| ==> !(ms[i].chatId == chatId && ms[i].status == Scheduled)
  {
    Find(ms, IsScheduledIn(chatId))
  }

  /** A meeting scheduled from the chat window shows on the claim unless an
      earlier scheduled meeting of that chat already does. */
  lemma ScheduledAfterAppend(ms: seq<Meeting>, d: MeetingDraft, clock: nat)
    requires d.status == Scheduled
    ensures ScheduledMeeting(ms + [NewMeeting(d, clock)], d.chatId) ==
      if ScheduledMeeting(ms, d.chatId).Some? then ScheduledMeeting(ms, d.chatId) else Some(NewMeeting(d, clock))
  {
    FindConcat(ms, [NewMeeting(d, clock)], IsScheduledIn(d.chatId));
    assert [NewMeeting(d, clock)][1..] == [];
  }

  /** Once the meeting shown is cancelled or completed through `updateMeeting`,
      no meeting with its id is shown for the chat any more. */
  lemma ShownMeetingLeavesWhenClosed(ms: seq<Meeting>, chatId: string, s: MeetingStatus)
    requires s != Scheduled
    requires ScheduledMeeting(ms, chatId).Some?
    ensures var shown := ScheduledMeeting(ms, chatId).value;
            var after := ScheduledMeeting(UpdatedMeetings(ms, shown.id, MeetingPatch(None, None, None, None, None, Some(s))), chatId);
            after.None? || after.value.id != shown.id
  {
    var shown := ScheduledMeeting(ms, chatId).value;
    var after := ScheduledMeeting(UpdatedMeetings(ms, shown.id, MeetingPatch(None, None, None, None, None, Some(s))), chatId);
    if after.Some? {
      var updated := UpdatedMeetings(ms, shown.id, MeetingPatch(None, None, None, None, None, Some(s)));
      var j :| IsFirstMatch(updated, IsScheduledIn(chatId), j) && updated[j] == after.value;
      assert updated[j].status == Scheduled;
      assert ms[j].id != shown.id;
    }
  }

  /** "Open Chat" is offered for an approved claim and a claim being returned,
      the two status strings the page compares against. */
  function CanOpenChat(c: Claim): (r: bool)
    ensures r <==> ClaimStatusName(c.status) == "approved" || ClaimStatusName(c.status) == "returning"
  {
    c.status == Approved || c.status == ClaimReturning
  }
}
