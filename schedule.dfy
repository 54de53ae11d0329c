/**
 * The schedule page: the list of events the user creates, deletes and
 * re-labels, the draft the creation dialog fills in, and the selected day's
 * events in order of start time.
 *
 * Dates are whole day numbers, so "the same day" (`toDateString()` equal)
 * is equality of day numbers.
 */
module Schedule {
  import opened Wrappers
  import opened Seqs
  import opened Numbers

  datatype EventType = Therapy | MeditationEvent | Appointment | Reminder | Personal
  datatype Status = Scheduled | Completed | Cancelled | Missed
  datatype Priority = LowPriority | MediumPriority | HighPriority

  /** `ScheduleEvent`; the optional texts are None when absent. */
  datatype ScheduleEvent = ScheduleEvent(
    id: string,
    title: string,
    titleTh: string,
    description: Option<string>,
    descriptionTh: Option<string>,
    day: int,
    time: string,
    endTime: string,
    eventType: EventType,
    status: Status,
    location: Option<string>,
    locationTh: Option<string>,
    isOnline: bool,
    therapistName: Option<string>,
    therapistId: Option<string>,
    reminderMinutes: int,
    priority: Priority)

  /**
   * The `newEvent` draft. A text the form has not filled is "", which the
   * source treats like a missing one (both are falsy).
   */
  datatype Draft = Draft(
    title: string,
    titleTh: string,
    description: Option<string>,
    descriptionTh: Option<string>,
    time: string,
    endTime: string,
    eventType: EventType,
    location: Option<string>,
    locationTh: Option<string>,
    isOnline: bool,
    therapistName: Option<string>,
    therapistId: Option<string>,
    reminderMinutes: int,
    priority: Priority)

  /** The draft the dialog starts from and is reset to. */
  const EmptyDraft := Draft("", "", None, None, "", "", Appointment, None, None, false, None, None, 30, MediumPriority)

  /** The guard of `handleCreateEvent`: a title and a start time are required. */
  predicate CanCreate(d: Draft) {
    d.title != "" && d.time != ""
  }

  /** The event `handleCreateEvent` builds from a complete draft on the selected day at clock reading `now`. */
  function EventFromDraft(d: Draft, day: int, now: nat): (e: ScheduleEvent)
    ensures e.id == NatToString(now) && e.day == day && e.status == Scheduled
    ensures e.title == d.title && e.time == d.time
    ensures e.titleTh == (if d.titleTh != "" then d.titleTh else d.title)
    ensures e.endTime == (if d.endTime != "" then d.endTime else d.time)
    ensures e.eventType == d.eventType && e.isOnline == d.isOnline
    ensures e.reminderMinutes == d.reminderMinutes && e.priority == d.priority
  {
    ScheduleEvent(
      NatToString(now), d.title, if d.titleTh != "" then d.titleTh else d.title,
      d.description, d.descriptionTh, day, d.time,
      if d.endTime != "" then d.endTime else d.time,
      d.eventType, Scheduled, d.location, d.locationTh, d.isOnline,
      d.therapistName, d.therapistId, d.reminderMinutes, d.priority)
  }

  function HasId(id: string): ScheduleEvent -> bool {
    (e: ScheduleEvent) => e.id == id
  }

  function HasOtherId(id: string): ScheduleEvent -> bool {
    (e: ScheduleEvent) => e.id != id
  }

  /** `handleDeleteEvent`: `events.filter(e => e.id !== id)`. */
  function DeleteEvent(events: seq<ScheduleEvent>, id: string): (r: seq<ScheduleEvent>)
    ensures forall e :: e in r <==> e in events && e.id != id
    ensures IsSubsequence(r, events)
  {
    Filter(HasOtherId(id), events)
  }

  /** `handleStatusChange`: every event with the id gets the new status. */
  function ChangeStatus(events: seq<ScheduleEvent>, id: string, status: Status): (r: seq<ScheduleEvent>)
    ensures |r| == |events|
  {
    seq(|events|, i requires 0 <= i < |events| =>
      if events[i].id == id then events[i].(status := status) else events[i])
  }

  /** Deleting removes exactly the events with the id and keeps the rest in their order. */
  lemma DeleteRemovesExactly(events: seq<ScheduleEvent>, id: string)
    ensures forall e :: e in DeleteEvent(events, id) <==> e in events && e.id != id
    ensures IsSubsequence(DeleteEvent(events, id), events)
    ensures |DeleteEvent(events, id)| + |Filter(HasId(id), events)| == |events|
  {
    FilterPartition(HasOtherId(id), HasId(id), events);
  }

  /** Deleting an id no event has changes nothing. */
  lemma DeleteAbsent(events: seq<ScheduleEvent>, id: string)
    requires forall i :: 0 <= i < |events| ==> events[i].id != id
    ensures DeleteEvent(events, id) == events
  {
    FilterAll(HasOtherId(id), events);
  }

  /**
   * Changing a status touches the status of the matching events only:
   * the length, the order and every other field stay as they were.
   */
  lemma ChangeStatusOnlyStatus(events: seq<ScheduleEvent>, id: string, status: Status)
    ensures var r := ChangeStatus(events, id, status);
            forall i :: 0 <= i < |events| ==>
              r[i].(status := events[i].status) == events[i] &&
              r[i].status == (if events[i].id == id then status else events[i].status)
  {
  }

  /** Setting the same status twice is the same as setting it once. */
  lemma ChangeStatusIdempotent(events: seq<ScheduleEvent>, id: string, status: Status)
    ensures ChangeStatus(ChangeStatus(events, id, status), id, status) == ChangeStatus(events, id, status)
  {
  }

  /** Changing the status of an event that is then deleted makes no difference to the list. */
  lemma {:induction false} DeleteAfterChangeStatus(events: seq<ScheduleEvent>, id: string, status: Status)
    ensures DeleteEvent(ChangeStatus(events, id, status), id) == DeleteEvent(events, id)
    decreases |events|
  {
    if events != [] {
      var r := ChangeStatus(events, id, status);
      assert r[1..] == ChangeStatus(events[1..], id, status);
      DeleteAfterChangeStatus(events[1..], id, status);
    }
  }

  /** `a.localeCompare(b) <= 0` on the times, read as character-by-character order. */
  predicate TimeLessEq(a: string, b: string)
    decreases |a|
  {
    a == [] || (b != [] && (a[0] < b[0] || (a[0] == b[0] && TimeLessEq(a[1..], b[1..]))))
  }

  /** Any two times are ordered one way or the other. */
  lemma {:induction false} TimeLessEqTotal(a: string, b: string)
    ensures TimeLessEq(a, b) || TimeLessEq(b, a)
    decreases |a|
  {
    if a != [] && b != [] && a[0] == b[0] {
      TimeLessEqTotal(a[1..], b[1..]);
    }
  }

  predicate SortedByTime(s: seq<ScheduleEvent>) {
    forall i :: 0 <= i < |s| - 1 ==> TimeLessEq(s[i].time, s[i + 1].time)
  }

  /** Places `e` before the first event that does not start earlier, so equal times keep their order. */
  function InsertByTime(e: ScheduleEvent, s: seq<ScheduleEvent>): (r: seq<ScheduleEvent>)
    ensures multiset(r) == multiset(s) + multiset{e}
    ensures |r| == |s| + 1
    ensures r[0] == e || (s != [] && r[0] == s[0])
    decreases |s|
  {
    if s == [] || TimeLessEq(e.time, s[0].time) then [e] + s
    else
      assert s == [s[0]] + s[1..];
      [s[0]] + InsertByTime(e, s[1..])
  }

  /** The stable sort `sort((a, b) => a.time.localeCompare(b.time))`. */
  function SortByTime(s: seq<ScheduleEvent>): (r: seq<ScheduleEvent>)
    ensures multiset(r) == multiset(s)
    ensures |r| == |s|
    decreases |s|
  {
    if s == [] then []
    else
      assert s == [s[0]] + s[1..];
      InsertByTime(s[0], SortByTime(s[1..]))
  }

  lemma {:induction false} InsertKeepsSorted(e: ScheduleEvent, s: seq<ScheduleEvent>)
    requires SortedByTime(s)
    ensures SortedByTime(InsertByTime(e, s))
    decreases |s|
  {
    if s != [] && !TimeLessEq(e.time, s[0].time) {
      TimeLessEqTotal(e.time, s[0].time);
      InsertKeepsSorted(e, s[1..]);
      var rest := InsertByTime(e, s[1..]);
      assert InsertByTime(e, s) == [s[0]] + rest;
    }
  }

  lemma {:induction false} SortByTimeSorted(s: seq<ScheduleEvent>)
    ensures SortedByTime(SortByTime(s))
    decreases |s|
  {
    if s != [] {
      SortByTimeSorted(s[1..]);
      InsertKeepsSorted(s[0], SortByTime(s[1..]));
    }
  }

  lemma {:induction false} TimeLessEqReflexive(a: string)
    ensures TimeLessEq(a, a)
    decreases |a|
  {
    if a != [] {
      TimeLessEqReflexive(a[1..]);
    }
  }

  function HasTime(t: string): ScheduleEvent -> bool {
    (e: ScheduleEvent) => e.time == t
  }

  /**
   * Inserting `e` puts it ahead of the events already at its own time and
   * leaves the events of every time in their order.
   */
  lemma {:induction false} InsertByTimeStable(e: ScheduleEvent, s: seq<ScheduleEvent>, t: string)
    ensures Filter(HasTime(t), InsertByTime(e, s)) == (if e.time == t then [e] else []) + Filter(HasTime(t), s)
    decreases |s|
  {
    var p, mine := HasTime(t), if e.time == t then [e] else [];
    assert Filter(p, [e]) == mine by {
      assert [e][1..] == [];
    }
    if s == [] || TimeLessEq(e.time, s[0].time) {
      FilterAppend(p, [e], s);
    } else {
      var rest := InsertByTime(e, s[1..]);
      assert InsertByTime(e, s) == [s[0]] + rest;
      assert s == [s[0]] + s[1..];
      var head := Filter(p, [s[0]]);
      assert head == [] || mine == [] by {
        assert [s[0]][1..] == [];
        TimeLessEqReflexive(e.time);
      }
      InsertByTimeStable(e, s[1..], t);
      FilterAppend(p, [s[0]], rest);
      FilterAppend(p, [s[0]], s[1..]);
      assert head + (mine + Filter(p, s[1..])) == mine + (head + Filter(p, s[1..]));
    }
  }

  /** The sort is stable: the events of any one time come out in the order they went in. */
  lemma {:induction false} SortByTimeStable(s: seq<ScheduleEvent>, t: string)
    ensures Filter(HasTime(t), SortByTime(s)) == Filter(HasTime(t), s)
    decreases |s|
  {
    if s != [] {
      SortByTimeStable(s[1..], t);
      InsertByTimeStable(s[0], SortByTime(s[1..]), t);
      assert [s[0]][1..] == [];
      FilterAppend(HasTime(t), [s[0]], s[1..]);
      assert s == [s[0]] + s[1..];
    }
  }

  function OnDay(day: int): ScheduleEvent -> bool {
    (e: ScheduleEvent) => e.day == day
  }

  /** `todayEvents`: the selected day's events, earliest start first. */
  function DayEvents(events: seq<ScheduleEvent>, day: int): (r: seq<ScheduleEvent>)
    ensures forall e :: e in r <==> e in events && e.day == day
  {
    var onDay := Filter(OnDay(day), events);
    var r := SortByTime(onDay);
    assert forall e :: e in r <==> e in onDay by {
      forall e ensures e in r <==> e in onDay {
        assert e in r <==> e in multiset(r);
        assert e in onDay <==> e in multiset(onDay);
      }
    }
    r
  }

  /**
   * The day view holds exactly the events of that day, each as often as in
   * the list, in order of start time.
   */
  lemma DayEventsCorrect(events: seq<ScheduleEvent>, day: int)
    ensures var v := DayEvents(events, day);
            SortedByTime(v) &&
            multiset(v) == multiset(Filter(OnDay(day), events)) &&
            forall e :: e in v <==> e in events && e.day == day
  {
    var f := Filter(OnDay(day), events);
    SortByTimeSorted(f);
    var v := SortByTime(f);
    forall e
      ensures e in v <==> e in f
    {
      assert e in v <==> e in multiset(v);
      assert e in f <==> e in multiset(f);
    }
  }

  /** The page's state: the events, the selected day, the draft and whether the dialog is open. */
  class SchedulePage {
    var events: seq<ScheduleEvent>
    var selectedDay: int
    var draft: Draft
    var showCreateEvent: bool

    constructor (initialEvents: seq<ScheduleEvent>, today: int)
      ensures events == initialEvents && selectedDay == today && draft == EmptyDraft && !showCreateEvent
    {
      events := initialEvents;
      selectedDay := today;
      draft := EmptyDraft;
      showCreateEvent := false;
    }

    /** The dialog's inputs write into the draft. */
    method EditDraft(d: Draft)
      modifies this
      ensures draft == d && events == old(events) && selectedDay == old(selectedDay)
      ensures showCreateEvent == old(showCreateEvent)
    {
      draft := d;
    }

    method SelectDay(day: int)
      modifies this
      ensures selectedDay == day && events == old(events) && draft == old(draft)
      ensures showCreateEvent == old(showCreateEvent)
    {
      selectedDay := day;
    }

    /** The calendar's "+" button (`onEventCreate`): select the day and open the dialog. */
    method HandleEventCreate(day: int)
      modifies this
      ensures selectedDay == day && showCreateEvent
      ensures events == old(events) && draft == old(draft)
    {
      selectedDay := day;
      showCreateEvent := true;
    }

    /** The dialog's `onOpenChange` and its Cancel button: only the open flag changes. */
    method SetShowCreateEvent(open: bool)
      modifies this
      ensures showCreateEvent == open
      ensures events == old(events) && selectedDay == old(selectedDay) && draft == old(draft)
    {
      showCreateEvent := open;
    }

    /**
     * `handleCreateEvent`: without a title or a time nothing changes;
     * otherwise one event is appended, the draft is reset and the dialog closed.
     */
    method HandleCreateEvent(now: nat) returns (created: bool)
      modifies this
      ensures created == CanCreate(old(draft))
      ensures !created ==> events == old(events) && draft == old(draft) && showCreateEvent == old(showCreateEvent)
      ensures created ==>
                events == old(events) + [EventFromDraft(old(draft), old(selectedDay), now)] &&
                draft == EmptyDraft && !showCreateEvent
      ensures selectedDay == old(selectedDay)
    {
      if draft.title == "" || draft.time == "" {
        return false;
      }
      events := events + [EventFromDraft(draft, selectedDay, now)];
      draft := EmptyDraft;
      showCreateEvent := false;
      created := true;
    }

    method HandleDeleteEvent(id: string)
      modifies this
      ensures events == DeleteEvent(old(events), id)
      ensures selectedDay == old(selectedDay) && draft == old(draft) && showCreateEvent == old(showCreateEvent)
    {
      events := DeleteEvent(events, id);
    }

    method HandleStatusChange(id: string, status: Status)
      modifies this
      ensures events == ChangeStatus(old(events), id, status)
      ensures selectedDay == old(selectedDay) && draft == old(draft) && showCreateEvent == old(showCreateEvent)
    {
      events := ChangeStatus(events, id, status);
    }

    function TodayEvents(): seq<ScheduleEvent>
      reads this
    {
      DayEvents(events, selectedDay)
    }
  }

  /** A created event appears in the selected day's view. */
  method CreatedEventIsListed(title: string, time: string, now: nat) {
    var page := new SchedulePage([], 0);
    page.HandleEventCreate(3);
    page.EditDraft(EmptyDraft.(title := title, time := time));
    var created := page.HandleCreateEvent(now);
    if title != "" && time != "" {
      assert created && |page.events| == 1 && !page.showCreateEvent && page.selectedDay == 3;
      var e := page.events[0];
      DayEventsCorrect(page.events, page.selectedDay);
      assert e in page.TodayEvents();
      assert e.titleTh == title && e.endTime == time && e.status == Scheduled;
    } else {
      assert page.events == [] && page.showCreateEvent;
      page.SetShowCreateEvent(false);
    }
  }
}
