/**
 * The booking calendar shown for one therapist: the day's time slots split
 * into available and booked ones, the date and slot the user picks, the
 * dates the picker disables, and the confirmation handed to the page.
 *
 * Dates are clock readings in milliseconds; two readings are on the same day
 * when their day numbers (`Day`) agree.
 */
module BookingCalendar {
  import opened Wrappers
  import opened Seqs
  import opened Numbers
  import opened Text

  datatype TimeSlot = TimeSlot(id: string, time: string, available: bool, therapistId: string)

  /** The eight slots offered for a therapist, two of them already booked. */
  function TimeSlots(therapistId: string): (r: seq<TimeSlot>)
    ensures |r| == 8
    ensures forall i :: 0 <= i < |r| ==> r[i].therapistId == therapistId
    ensures forall i :: 0 <= i < |r| ==> (r[i].available <==> i != 1 && i != 5)
  {
    [TimeSlot("1", "09:00", true, therapistId),
     TimeSlot("2", "10:00", false, therapistId),
     TimeSlot("3", "11:00", true, therapistId),
     TimeSlot("4", "13:00", true, therapistId),
     TimeSlot("5", "14:00", true, therapistId),
     TimeSlot("6", "15:00", false, therapistId),
     TimeSlot("7", "16:00", true, therapistId),
     TimeSlot("8", "17:00", true, therapistId)]
  }

  function IsAvailable(slot: TimeSlot): bool {
    slot.available
  }

  function IsBooked(slot: TimeSlot): bool {
    !slot.available
  }

  /** `availableSlots`. */
  function AvailableSlots(slots: seq<TimeSlot>): (r: seq<TimeSlot>)
    ensures forall s :: s in r <==> s in slots && s.available
    ensures IsSubsequence(r, slots)
  {
    Filter(IsAvailable, slots)
  }

  /** `bookedSlots`. */
  function BookedSlots(slots: seq<TimeSlot>): (r: seq<TimeSlot>)
    ensures forall s :: s in r <==> s in slots && !s.available
    ensures IsSubsequence(r, slots)
  {
    Filter(IsBooked, slots)
  }

  /**
   * Available and booked slots partition the slots: together they hold each
   * slot exactly as often as the list does, no slot is in both, and each
   * keeps the list's order.
   */
  lemma SlotsPartition(slots: seq<TimeSlot>)
    ensures multiset(AvailableSlots(slots)) + multiset(BookedSlots(slots)) == multiset(slots)
    ensures |AvailableSlots(slots)| + |BookedSlots(slots)| == |slots|
    ensures forall s :: !(s in AvailableSlots(slots) && s in BookedSlots(slots))
    ensures IsSubsequence(AvailableSlots(slots), slots) && IsSubsequence(BookedSlots(slots), slots)
  {
    FilterPartition(IsAvailable, IsBooked, slots);
  }

  /** Eight slots of which only the second and sixth are taken leave exactly those two booked. */
  lemma BookedOfPattern(s: seq<TimeSlot>)
    requires |s| == 8
    requires forall i :: 0 <= i < 8 ==> (s[i].available <==> i != 1 && i != 5)
    ensures BookedSlots(s) == [s[1], s[5]]
  {
    BookedOneThenFree(s[5..]);
    BookedOneThenFree(s[1..5]);
    assert s[1..] == s[1..5] + s[5..];
    FilterAppend(IsBooked, s[1..5], s[5..]);
    assert s[1..] == s[0..][1..];
  }

  /** A booked slot followed only by free ones: filtering keeps just the first. */
  lemma BookedOneThenFree(s: seq<TimeSlot>)
    requires |s| > 0 && !s[0].available
    requires forall i :: 0 < i < |s| ==> s[i].available
    ensures Filter(IsBooked, s) == [s[0]]
  {
    FilterNone(IsBooked, s[1..]);
  }

  /** The booked mock slots are the two at 10:00 and 15:00. */
  lemma MockBookedSlots(therapistId: string)
    ensures BookedSlots(TimeSlots(therapistId)) == [TimeSlot("2", "10:00", false, therapistId), TimeSlot("6", "15:00", false, therapistId)]
  {
    BookedOfPattern(TimeSlots(therapistId));
  }

  /** Of the eight mock slots six are free. */
  lemma MockSlotCounts(therapistId: string)
    ensures |AvailableSlots(TimeSlots(therapistId))| == 6 && |BookedSlots(TimeSlots(therapistId))| == 2
  {
    MockBookedSlots(therapistId);
    SlotsPartition(TimeSlots(therapistId));
  }

  /** `isDateDisabled`: earlier than now, or on today's date. */
  predicate IsDateDisabled(date: int, now: int)
    ensures !IsDateDisabled(date, now) ==> Day(date) > Day(now)
    ensures date < now ==> IsDateDisabled(date, now)
  {
    date < now || Day(date) == Day(now)
  }

  /** The test `handleDateSelect` applies: a date strictly after now. */
  predicate Accepts(date: Option<int>, now: int) {
    date.Some? && date.value > now
  }

  /** Every date the picker offers is one the handler accepts. */
  lemma EnabledDatesAccepted(date: int, now: int)
    requires !IsDateDisabled(date, now)
    ensures Accepts(Some(date), now)
  {
  }

  /**
   * The converse fails: a later hour of today is accepted by the handler
   * although the picker shows that day as disabled.
   */
  lemma LaterTodayAcceptedButDisabled(now: int)
    requires now % MillisPerDay < MillisPerDay - 1
    ensures Accepts(Some(now + 1), now) && IsDateDisabled(now + 1, now)
  {
    assert Day(now + 1) == Day(now);
  }

  /** The hour part of a slot time: the text before the first ':'. */
  function HourText(time: string): (r: string)
    ensures forall i :: 0 <= i < |r| ==> r[i] != ':'
    ensures (forall i :: 0 <= i < |time| ==> time[i] != ':') ==> r == time
  {
    assert (forall i :: 0 <= i < |time| ==> time[i] != ':') ==> Split(time, ':')[0] == time by {
      if forall i :: 0 <= i < |time| ==> time[i] != ':' {
        SplitFree(time, ':');
      }
    }
    Split(time, ':')[0]
  }

  /**
   * The end of the booked hour in the summary: `parseInt` of the hour plus
   * one, then ":00". Text without leading digits gives NaN.
   */
  function EndTime(time: string): (r: string)
    ensures |r| >= 4 && r[|r| - 3..] == ":00"
    ensures r[..|r| - 3] == "NaN" || AllDigits(r[..|r| - 3])
  {
    match ParseLeadingInt(HourText(time))
    case Some(h) => NatToString(h + 1) + ":00"
    case None => "NaN:00"
  }

  /**
   * A slot at hour `h` (written with two digits) ends at hour h + 1, with no
   * wrap past midnight: "23:00" ends at "24:00".
   */
  lemma EndTimeNextHour(h: nat, minutes: string)
    requires h < 100
    requires forall i :: 0 <= i < |minutes| ==> minutes[i] != ':'
    ensures EndTime(PadStart2(NatToString(h)) + ":" + minutes) == NatToString(h + 1) + ":00"
  {
    var hh := PadStart2(NatToString(h));
    PadStart2Value(h);
    assert forall i :: 0 <= i < |hh| ==> hh[i] != ':' by {
      assert AllDigits(hh);
    }
    SplitFirst(hh, ':', minutes);
    assert hh + ":" + minutes == hh + [':'] + minutes;
    assert HourText(hh + ":" + minutes) == hh;
    assert ParseLeadingInt(hh) == Some(h) by {
      DigitPrefixOfDigits(hh, []);
      assert hh + [] == hh;
    }
  }

  /** The first slot of the day, 09:00, ends at 10:00. */
  lemma FirstSlotEndTime()
    ensures EndTime("09:00") == "10:00"
  {
    assert NatToString(9) == "9";
    assert PadStart2("9") == "09";
    EndTimeNextHour(9, "00");
    assert "09" + ":" + "00" == "09:00";
    TwoDigitString(10);
    assert DigitChar(1) == '1' && DigitChar(0) == '0';
  }

  /** The component's state: the picked date and slot, and the bookings it has confirmed to the page. */
  class BookingCalendar {
    const therapistId: string
    var selectedDate: Option<int>
    var selectedTimeSlot: Option<TimeSlot>
    var confirmed: seq<(int, TimeSlot)>

    /** Only an available slot is ever selected. */
    predicate Valid()
      reads this
    {
      selectedTimeSlot.Some? ==> selectedTimeSlot.value.available
    }

    constructor (therapistId: string)
      ensures Valid() && this.therapistId == therapistId
      ensures selectedDate.None? && selectedTimeSlot.None? && confirmed == []
    {
      this.therapistId := therapistId;
      selectedDate := None;
      selectedTimeSlot := None;
      confirmed := [];
    }

    /** `handleDateSelect`: a date after now is taken and clears the slot; anything else is ignored. */
    method HandleDateSelect(date: Option<int>, now: int)
      requires Valid()
      modifies this
      ensures Valid()
      ensures Accepts(date, now) ==> selectedDate == date && selectedTimeSlot.None?
      ensures !Accepts(date, now) ==> selectedDate == old(selectedDate) && selectedTimeSlot == old(selectedTimeSlot)
      ensures confirmed == old(confirmed)
    {
      if date.Some? && date.value > now {
        selectedDate := date;
        selectedTimeSlot := None;
      }
    }

    /** `handleTimeSlotSelect`: only an available slot is taken. */
    method HandleTimeSlotSelect(slot: TimeSlot)
      requires Valid()
      modifies this
      ensures Valid()
      ensures slot.available ==> selectedTimeSlot == Some(slot)
      ensures !slot.available ==> selectedTimeSlot == old(selectedTimeSlot)
      ensures selectedDate == old(selectedDate) && confirmed == old(confirmed)
    {
      if slot.available {
        selectedTimeSlot := Some(slot);
      }
    }

    /** `handleConfirmBooking`: `onBookingConfirm` is called once, and only with a date and a slot chosen. */
    method HandleConfirmBooking() returns (called: bool)
      requires Valid()
      modifies this
      ensures Valid()
      ensures called == (selectedDate.Some? && selectedTimeSlot.Some?)
      ensures called ==> confirmed == old(confirmed) + [(selectedDate.value, selectedTimeSlot.value)]
      ensures !called ==> confirmed == old(confirmed)
      ensures selectedDate == old(selectedDate) && selectedTimeSlot == old(selectedTimeSlot)
    {
      called := selectedDate.Some? && selectedTimeSlot.Some?;
      if called {
        confirmed := confirmed + [(selectedDate.value, selectedTimeSlot.value)];
      }
    }
  }

  /** A booking reaches the page only for an available slot on a date the handler accepted. */
  method BookingNeedsDateAndFreeSlot(date: int, now: int, slot: TimeSlot) {
    var c := new BookingCalendar("t1");
    var called := c.HandleConfirmBooking();
    assert !called;
    c.HandleTimeSlotSelect(slot);
    c.HandleDateSelect(Some(date), now);
    called := c.HandleConfirmBooking();
    assert !called;
    c.HandleTimeSlotSelect(slot);
    called := c.HandleConfirmBooking();
    assert called <==> date > now && slot.available;
    assert called ==> c.confirmed == [(date, slot)] && c.confirmed[0].1.available;
  }
}
