/**
 * The month calendar: the month shown, the selected date and its events,
 * the "has events" marker on each day, and the monthly counters.
 *
 * Dates are clock readings in milliseconds compared by `Numbers.Day`; the
 * month shown is a year and a month of that year.
 */
module Calendar {
  import opened Wrappers
  import opened Seqs
  import opened Numbers

  datatype EventKind = MeditationEvent | TherapyEvent | MoodEvent | ReminderEvent

  datatype EventStatus = Scheduled | Completed | Missed

  /** `CalendarEvent`. */
  datatype CalendarEvent = CalendarEvent(
    id: string, title: string, titleTh: string, date: int, time: string,
    kind: EventKind, status: EventStatus,
    therapistName: Option<string>, duration: Option<nat>)

  /** `isSameDay`. */
  predicate SameDay(a: int, b: int) {
    Day(a) == Day(b)
  }

  function OnDate(date: int): CalendarEvent -> bool {
    (e: CalendarEvent) => SameDay(e.date, date)
  }

  /** `getEventsForDate`. */
  function EventsForDate(events: seq<CalendarEvent>, date: int): (r: seq<CalendarEvent>)
    ensures forall x :: x in r <==> x in events && SameDay(x.date, date)
    ensures IsSubsequence(r, events)
  {
    Filter(OnDate(date), events)
  }

  /**
   * The events of a date are exactly those on the same day, in the order of
   * the list; an event added at the end shows up at the end of its own day
   * and nowhere else.
   */
  lemma EventsForDateCorrect(events: seq<CalendarEvent>, date: int, e: CalendarEvent)
    ensures forall x :: x in EventsForDate(events, date) <==> x in events && SameDay(x.date, date)
    ensures IsSubsequence(EventsForDate(events, date), events)
    ensures EventsForDate(events + [e], date) ==
            EventsForDate(events, date) + (if SameDay(e.date, date) then [e] else [])
  {
    FilterAppend(OnDate(date), events, [e]);
  }

  /** The `hasEvents` day modifier. */
  predicate HasEvents(events: seq<CalendarEvent>, date: int)
    ensures HasEvents(events, date) <==> exists i :: 0 <= i < |events| && SameDay(events[i].date, date)
  {
    |EventsForDate(events, date)| > 0
  }

  /** A day on which some event falls is marked. */
  lemma EventMarksItsDay(events: seq<CalendarEvent>, date: int, i: nat)
    requires i < |events| && SameDay(events[i].date, date)
    ensures HasEvents(events, date)
  {
    assert events[i] in EventsForDate(events, date);
  }

  /** A day without any event on it is not marked. */
  lemma NoEventsUnmarked(events: seq<CalendarEvent>, date: int)
    requires forall i :: 0 <= i < |events| ==> !SameDay(events[i].date, date)
    ensures !HasEvents(events, date)
  {
    FilterNone(OnDate(date), events);
  }

  function HasStatus(status: EventStatus): CalendarEvent -> bool {
    (e: CalendarEvent) => e.status == status
  }

  /** The counter `events.filter(e => e.status === status).length`. */
  function StatusCount(events: seq<CalendarEvent>, status: EventStatus): (r: nat)
    ensures r <= |events|
    ensures r == 0 <==> forall i :: 0 <= i < |events| ==> events[i].status != status
  {
    var matching := Filter(HasStatus(status), events);
    assert |matching| == 0 <==> forall i :: 0 <= i < |events| ==> events[i].status != status by {
      if |matching| > 0 {
        assert matching[0] in matching;
      } else {
        forall i | 0 <= i < |events| ensures events[i].status != status {
          assert events[i] !in matching;
        }
      }
    }
    |matching|
  }

  /** The counter of meditation events. */
  function MeditationCount(events: seq<CalendarEvent>): (r: nat)
    ensures r <= |events|
    ensures r == 0 <==> forall i :: 0 <= i < |events| ==> events[i].kind != MeditationEvent
  {
    var matching := Filter((e: CalendarEvent) => e.kind == MeditationEvent, events);
    assert |matching| == 0 <==> forall i :: 0 <= i < |events| ==> events[i].kind != MeditationEvent by {
      if |matching| > 0 {
        assert matching[0] in matching;
      } else {
        forall i | 0 <= i < |events| ensures events[i].kind != MeditationEvent {
          assert events[i] !in matching;
        }
      }
    }
    |matching|
  }

  /** Every event has exactly one of the three statuses, so the three counters add up to the number of events. */
  lemma {:induction false} StatusCountsSum(events: seq<CalendarEvent>)
    ensures StatusCount(events, Completed) + StatusCount(events, Scheduled) + StatusCount(events, Missed) == |events|
    decreases |events|
  {
    if events != [] {
      StatusCountsSum(events[1..]);
    }
  }

  /** The completed and scheduled counters never add up to more than the events there are. */
  lemma CompletedAndScheduledBounded(events: seq<CalendarEvent>)
    ensures StatusCount(events, Completed) + StatusCount(events, Scheduled) <= |events|
  {
    FilterDisjoint(HasStatus(Completed), HasStatus(Scheduled), events);
  }

  /** A month of a year, `month` counted from 0 as `Date.getMonth` does. */
  datatype YearMonth = YearMonth(year: int, month: int)
  {
    predicate Valid() {
      0 <= month < 12
    }

    /** The months since January of year 0. */
    function Index(): int {
      year * 12 + month
    }
  }

  /** The month containing a given month index. */
  function MonthOfIndex(i: int): (ym: YearMonth)
    ensures ym.Valid() && ym.Index() == i
  {
    YearMonth(i / 12, i % 12)
  }

  /** `subMonths(currentMonth, 1)`. */
  function PrevMonth(ym: YearMonth): (r: YearMonth)
    requires ym.Valid()
    ensures r.Valid() && r.Index() == ym.Index() - 1
  {
    if ym.month == 0 then YearMonth(ym.year - 1, 11) else YearMonth(ym.year, ym.month - 1)
  }

  /** `addMonths(currentMonth, 1)`. */
  function NextMonth(ym: YearMonth): (r: YearMonth)
    requires ym.Valid()
    ensures r.Valid() && r.Index() == ym.Index() + 1
  {
    if ym.month == 11 then YearMonth(ym.year + 1, 0) else YearMonth(ym.year, ym.month + 1)
  }

  /** A valid month is determined by its index. */
  lemma IndexInjective(a: YearMonth, b: YearMonth)
    requires a.Valid() && b.Valid() && a.Index() == b.Index()
    ensures a == b
  {
    assert a.year == a.Index() / 12 && b.year == b.Index() / 12;
  }

  /** Going back a month and forward again, or forward and back, returns to the same month. */
  lemma MonthNavigationRoundTrip(ym: YearMonth)
    requires ym.Valid()
    ensures NextMonth(PrevMonth(ym)) == ym && PrevMonth(NextMonth(ym)) == ym
  {
    IndexInjective(NextMonth(PrevMonth(ym)), ym);
    IndexInjective(PrevMonth(NextMonth(ym)), ym);
  }

  /** The three demonstration events: completed today, therapy tomorrow, a reminder the day after. */
  function MockEvents(now: int): seq<CalendarEvent> {
    [CalendarEvent("1", "Morning Meditation", "สมาธิตอนเช้า", now, "07:00",
                   MeditationEvent, Completed, None, Some(15)),
     CalendarEvent("2", "Therapy Session", "นัดพบนักจิตวิทยา", now + 24 * 60 * 60 * 1000, "14:00",
                   TherapyEvent, Scheduled, Some("Dr. Sarah Johnson"), Some(60)),
     CalendarEvent("3", "Mood Check Reminder", "แจ้งเตือนบันทึกอารมณ์", now + 48 * 60 * 60 * 1000, "20:00",
                   ReminderEvent, Scheduled, None, None)]
  }

  /** On the first render the selected date is today, and it lists only the morning meditation. */
  lemma MockTodayEvents(now: int)
    ensures EventsForDate(MockEvents(now), now) == [MockEvents(now)[0]]
  {
    var s := MockEvents(now);
    assert Day(s[1].date) == Day(now) + 1 && Day(s[2].date) == Day(now) + 2;
    FilterNone(OnDate(now), s[1..]);
  }

  /** The calendar's state and the dates reported to `onDateSelect`. */
  class CalendarView {
    const events: seq<CalendarEvent>
    var selectedDate: int
    var currentMonth: YearMonth
    var reported: seq<int>

    predicate Valid()
      reads this
    {
      currentMonth.Valid()
    }

    /** The first render: today selected and this month shown. */
    constructor (events: seq<CalendarEvent>, today: int, thisMonth: YearMonth)
      requires thisMonth.Valid()
      ensures Valid()
      ensures this.events == events && selectedDate == today && currentMonth == thisMonth && reported == []
    {
      this.events := events;
      selectedDate := today;
      currentMonth := thisMonth;
      reported := [];
    }

    /** `handleDateSelect`: an undefined date is ignored; otherwise it is selected and reported once. */
    method HandleDateSelect(date: Option<int>)
      requires Valid()
      modifies this
      ensures Valid() && currentMonth == old(currentMonth)
      ensures date.None? ==> selectedDate == old(selectedDate) && reported == old(reported)
      ensures date.Some? ==> selectedDate == date.value && reported == old(reported) + [date.value]
    {
      if date.Some? {
        selectedDate := date.value;
        reported := reported + [date.value];
      }
    }

    /** `handlePrevMonth`. */
    method HandlePrevMonth()
      requires Valid()
      modifies this
      ensures Valid() && currentMonth == PrevMonth(old(currentMonth))
      ensures selectedDate == old(selectedDate) && reported == old(reported)
    {
      currentMonth := PrevMonth(currentMonth);
    }

    /** `handleNextMonth`. */
    method HandleNextMonth()
      requires Valid()
      modifies this
      ensures Valid() && currentMonth == NextMonth(old(currentMonth))
      ensures selectedDate == old(selectedDate) && reported == old(reported)
    {
      currentMonth := NextMonth(currentMonth);
    }

    /** The day picker's `onMonthChange`: the month it pages to is shown as given. */
    method HandleMonthChange(month: YearMonth)
      requires Valid() && month.Valid()
      modifies this
      ensures Valid() && currentMonth == month
      ensures selectedDate == old(selectedDate) && reported == old(reported)
    {
      currentMonth := month;
    }

    /** `selectedDateEvents`. */
    function SelectedDateEvents(): seq<CalendarEvent>
      reads this
    {
      EventsForDate(events, selectedDate)
    }
  }

  /** Stepping back and then forward leaves the calendar on the month it showed, with nothing reported. */
  method BackAndForth(view: CalendarView)
    requires view.Valid()
    modifies view
  {
    var month, date := view.currentMonth, view.selectedDate;
    view.HandlePrevMonth();
    view.HandleNextMonth();
    MonthNavigationRoundTrip(month);
    assert view.currentMonth == month && view.selectedDate == date;
  }
}
