/**
 * The therapist directory: the specialty and price filters over the
 * therapist list, and the booking flow that opens the booking calendar for
 * a non-premium therapist.
 */
module TherapistDirectory {
  import opened Wrappers
  import opened Seqs
  import opened Text
  import opened Language
  import BookingCalendar

  /** `Therapist`, without the rating, review count, languages, avatar and availability, which no operation reads. */
  datatype Therapist = Therapist(
    id: string, name: string, nameTh: string,
    specialty: seq<string>, specialtyTh: seq<string>,
    hourlyRate: int, isPremium: bool, location: string)

  /** `specialty.some(s => s.toLowerCase().includes(needle))`. */
  predicate AnySpecialtyContains(specialties: seq<string>, needle: string)
    decreases |specialties|
  {
    specialties != [] &&
    (Contains(ToLower(specialties[0]), needle) || AnySpecialtyContains(specialties[1..], needle))
  }

  /** `some` holds exactly when one of the lowercased specialties contains the selected id. */
  lemma {:induction false} AnySpecialtyContainsIff(specialties: seq<string>, needle: string)
    ensures AnySpecialtyContains(specialties, needle) <==>
            exists i :: 0 <= i < |specialties| && Contains(ToLower(specialties[i]), needle)
    decreases |specialties|
  {
    if specialties != [] {
      AnySpecialtyContainsIff(specialties[1..], needle);
      if !Contains(ToLower(specialties[0]), needle) &&
         exists i :: 0 <= i < |specialties| && Contains(ToLower(specialties[i]), needle) {
        var i :| 0 <= i < |specialties| && Contains(ToLower(specialties[i]), needle);
        assert specialties[1..][i - 1] == specialties[i];
      }
    }
  }

  /** `specialtyMatch`. */
  predicate SpecialtyMatch(selected: string, t: Therapist) {
    selected == "all" || AnySpecialtyContains(t.specialty, selected)
  }

  /** `priceMatch`: the buckets budget (under 2000), mid (2000 to 2500) and premium (over 2500). */
  predicate PriceMatch(range: string, rate: int) {
    range == "all" ||
    (range == "budget" && rate < 2000) ||
    (range == "mid" && rate >= 2000 && rate <= 2500) ||
    (range == "premium" && rate > 2500)
  }

  /** Every rate falls in exactly one of the three price buckets. */
  lemma PriceBucketsPartition(rate: int)
    ensures PriceMatch("budget", rate) || PriceMatch("mid", rate) || PriceMatch("premium", rate)
    ensures !(PriceMatch("budget", rate) && PriceMatch("mid", rate))
    ensures !(PriceMatch("budget", rate) && PriceMatch("premium", rate))
    ensures !(PriceMatch("mid", rate) && PriceMatch("premium", rate))
  {
  }

  /** A price range that is none of the listed ids matches no therapist. */
  lemma UnknownRangeMatchesNothing(range: string, rate: int)
    requires range !in {"all", "budget", "mid", "premium"}
    ensures !PriceMatch(range, rate)
  {
  }

  function Matches(specialty: string, range: string): Therapist -> bool {
    (t: Therapist) => SpecialtyMatch(specialty, t) && PriceMatch(range, t.hourlyRate)
  }

  /** `filteredTherapists`. */
  function FilteredTherapists(therapists: seq<Therapist>, specialty: string, range: string): (r: seq<Therapist>)
    ensures forall t :: t in r <==> t in therapists && SpecialtyMatch(specialty, t) && PriceMatch(range, t.hourlyRate)
  {
    Filter(Matches(specialty, range), therapists)
  }

  /**
   * The filtered list keeps, in their order, exactly the therapists whose
   * specialties and rate both match.
   */
  lemma FilteredTherapistsCorrect(therapists: seq<Therapist>, specialty: string, range: string)
    ensures IsSubsequence(FilteredTherapists(therapists, specialty, range), therapists)
    ensures forall t :: t in FilteredTherapists(therapists, specialty, range) <==>
              t in therapists && SpecialtyMatch(specialty, t) && PriceMatch(range, t.hourlyRate)
  {
  }

  /** With both filters on 'all' the whole list is shown. */
  lemma AllFiltersShowEveryone(therapists: seq<Therapist>)
    ensures FilteredTherapists(therapists, "all", "all") == therapists
  {
    FilterAll(Matches("all", "all"), therapists);
  }

  /** The three therapists of the directory. */
  const Therapists: seq<Therapist> := [
    Therapist("1", "Dr. Sarah Johnson", "ดร. ซาร่าห์ จอห์นสัน",
              ["Anxiety", "Depression", "CBT"], ["ความวิตกกังวล", "ภาวะซึมเศร้า", "CBT"],
              2500, true, "Bangkok"),
    Therapist("2", "Ajarn Somchai Wellness", "อาจารย์สมชาย เวลเนส",
              ["Mindfulness", "Meditation", "Stress Management"], ["สติ", "สมาธิ", "การจัดการความเครียด"],
              1800, false, "Chiang Mai"),
    Therapist("3", "Dr. Lisa Chen", "ดร. ลิซ่า เฉิน",
              ["Youth Counseling", "Family Therapy", "EMDR"], ["การให้คำปรึกษาเยาวชน", "การบำบัดครอบครัว", "EMDR"],
              3000, true, "Bangkok")
  ]

  /** Of the directory, only Ajarn Somchai is in the budget bucket, and only he can be booked. */
  lemma BudgetBucketOfDirectory()
    ensures FilteredTherapists(Therapists, "all", "budget") == [Therapists[1]]
    ensures forall i :: 0 <= i < |Therapists| ==> (!Therapists[i].isPremium <==> i == 1)
  {
    var s := Therapists;
    assert s[1..] == [s[1]] + s[2..];
    FilterNone(Matches("all", "budget"), s[2..]);
  }

  function ConfirmationToast(language: Language): string {
    match language
    case Th => "จองนัดพบเรียบร้อยแล้ว!"
    case En => "Appointment booked successfully!"
  }

  /**
   * The directory page's filters, its booking selection and the success
   * toasts it has shown; `language` is the context's current language.
   */
  class TherapistPage {
    var language: Language
    const therapists: seq<Therapist>
    var selectedSpecialty: string
    var selectedPriceRange: string
    var selectedTherapist: Option<Therapist>
    var showBookingCalendar: bool
    var toasts: seq<string>

    /** The booking calendar is open exactly while a therapist is selected, and that therapist is never premium. */
    predicate Valid()
      reads this
    {
      (showBookingCalendar <==> selectedTherapist.Some?) &&
      (selectedTherapist.Some? ==> !selectedTherapist.value.isPremium)
    }

    constructor (language: Language, therapists: seq<Therapist>)
      ensures Valid() && this.language == language && this.therapists == therapists
      ensures selectedSpecialty == "all" && selectedPriceRange == "all"
      ensures selectedTherapist.None? && !showBookingCalendar && toasts == []
    {
      this.language := language;
      this.therapists := therapists;
      selectedSpecialty := "all";
      selectedPriceRange := "all";
      selectedTherapist := None;
      showBookingCalendar := false;
      toasts := [];
    }

    method SetSpecialty(specialty: string)
      requires Valid()
      modifies this
      ensures Valid() && selectedSpecialty == specialty && selectedPriceRange == old(selectedPriceRange)
      ensures selectedTherapist == old(selectedTherapist) && showBookingCalendar == old(showBookingCalendar)
      ensures toasts == old(toasts) && language == old(language)
    {
      selectedSpecialty := specialty;
    }

    method SetPriceRange(range: string)
      requires Valid()
      modifies this
      ensures Valid() && selectedPriceRange == range && selectedSpecialty == old(selectedSpecialty)
      ensures selectedTherapist == old(selectedTherapist) && showBookingCalendar == old(showBookingCalendar)
      ensures toasts == old(toasts) && language == old(language)
    {
      selectedPriceRange := range;
    }

    /** The language context changes while the page is open. */
    method SetLanguage(l: Language)
      requires Valid()
      modifies this
      ensures Valid() && language == l
      ensures selectedSpecialty == old(selectedSpecialty) && selectedPriceRange == old(selectedPriceRange)
      ensures selectedTherapist == old(selectedTherapist) && showBookingCalendar == old(showBookingCalendar)
      ensures toasts == old(toasts)
    {
      language := l;
    }

    /** The list the page renders. */
    function Shown(): seq<Therapist>
      reads this
    {
      FilteredTherapists(therapists, selectedSpecialty, selectedPriceRange)
    }

    /** `handleBooking`: a premium therapist changes nothing; any other is selected and the calendar opens. */
    method HandleBooking(t: Therapist)
      requires Valid()
      modifies this
      ensures Valid()
      ensures t.isPremium ==> selectedTherapist == old(selectedTherapist) && showBookingCalendar == old(showBookingCalendar)
      ensures !t.isPremium ==> selectedTherapist == Some(t) && showBookingCalendar
      ensures selectedSpecialty == old(selectedSpecialty) && selectedPriceRange == old(selectedPriceRange)
      ensures toasts == old(toasts) && language == old(language)
    {
      if t.isPremium {
        return;
      }
      selectedTherapist := Some(t);
      showBookingCalendar := true;
    }

    /** `handleBookingConfirm`: a success toast, then the calendar closes and the selection is cleared. */
    method HandleBookingConfirm(date: int, slot: BookingCalendar.TimeSlot)
      requires Valid()
      modifies this
      ensures Valid() && selectedTherapist.None? && !showBookingCalendar
      ensures toasts == old(toasts) + [ConfirmationToast(language)] && language == old(language)
      ensures selectedSpecialty == old(selectedSpecialty) && selectedPriceRange == old(selectedPriceRange)
    {
      toasts := toasts + [ConfirmationToast(language)];
      showBookingCalendar := false;
      selectedTherapist := None;
    }

    /** `handleBookingCancel`: the calendar closes and the selection is cleared, without a toast. */
    method HandleBookingCancel()
      requires Valid()
      modifies this
      ensures Valid() && selectedTherapist.None? && !showBookingCalendar
      ensures toasts == old(toasts) && language == old(language)
      ensures selectedSpecialty == old(selectedSpecialty) && selectedPriceRange == old(selectedPriceRange)
    {
      showBookingCalendar := false;
      selectedTherapist := None;
    }

    /** The page shows the booking calendar instead of the list. */
    predicate ShowsCalendar()
      reads this
    {
      showBookingCalendar && selectedTherapist.Some?
    }
  }

  /** Asking to book a premium therapist never opens the calendar; a booking flow ends back on the list. */
  method PremiumNeverBooked(language: Language, t: Therapist) {
    var page := new TherapistPage(language, Therapists);
    page.HandleBooking(t);
    assert page.ShowsCalendar() <==> !t.isPremium;
    page.HandleBookingCancel();
    assert !page.ShowsCalendar() && page.toasts == [];
  }

  /** A booking confirmed after switching to English is acknowledged in English. */
  method ToastFollowsLanguage(t: Therapist) returns (toasts: seq<string>)
    requires !t.isPremium
    ensures toasts == ["Appointment booked successfully!"]
  {
    var page := new TherapistPage(Th, Therapists);
    page.HandleBooking(t);
    page.SetLanguage(En);
    page.HandleBookingConfirm(0, BookingCalendar.TimeSlot("1", "09:00", true, t.id));
    toasts := page.toasts;
  }
}
