# Baan Jai — a verified model of the app's core

Baan Jai is a Thai/English mental-wellness web app. This project models the
logic of its React components and contexts in Dafny and proves properties of
that model:

- the meditation session with live heart rate, with its HRV (heart-rate
  variability) and stress rules;
- the smart-watch connection state machine and its heart-rate decoding;
- weekly averages and trends in health analytics;
- translation lookup and the saved language;
- mood scoring and replies in the AI chat;
- the schedule's create, delete, status and day-view operations;
- the booking calendar's slots, dates and confirmation;
- the calendar's day filter, counts and month navigation;
- the therapist and content filters;
- the notification panel;
- the health-metrics and mood cards;
- the privacy consent gate;
- checkout savings and the billing portal;
- the daily tip, the achievement popup and the content-detail player.

Each source file becomes one module.

- **Event handlers and state:** a component whose handlers update React state
  becomes a `class`. Its fields are the state; each handler is a method with
  `modifies this` whose postcondition gives the whole new state.
- **Pure code:** lookups, filters and formatting are functions. Lemmas state
  what they promise: partitions, round trips, if-and-only-if cases, bounds,
  idempotence and "nothing else changes".
- **Clock and outside calls:** the clock is a parameter (milliseconds as
  `int`). A day is `ms / 86400000`. Bluetooth, Stripe and the browser are
  modelled as parameters that say what they answered.
- **Shared helpers:**
  - `Wrappers`: `Option`;
  - `Seqs`: `Filter`, sums, minimum and maximum;
  - `Numbers`: `Math.round(a / b)` written as `(2a + b) / (2b)`, and decimal
    printing and parsing;
  - `Text`: ASCII case mapping, substring search and `split`/`join`.

Where the code behaves surprisingly, the model follows the code:

- Resuming a paused meditation calls the same handler as starting, so it
  empties the heart-rate history.
- `connect` has no "already connected" guard.
- An unsolicited GATT disconnect keeps the last health metrics and does not
  pause a session.
- A heart-rate notification is decoded from byte 1 alone, whatever the flags
  byte says.
- The weekly average of an empty series is `None`, where the page would show
  `NaN`.

## Model

| member | source | states |
|---|---|---|
| Meditation.StressLevelOf | src/components/meditation/MeditationWithBiometrics.tsx:117-121 | a heart rate above 90 or an HRV below 5 is high stress; low stress needs average < 70 and HRV > 10 |
| Meditation.StressLevelCases | src/components/meditation/MeditationWithBiometrics.tsx:117-121 | low iff avg < 70 and hrv > 10; high iff avg > 90 or hrv < 5; medium otherwise |
| Meditation.StressLevelMonotone | src/components/meditation/MeditationWithBiometrics.tsx:117-121 | a higher average or a lower HRV never gives a lower stress level |
| Meditation.SuccessiveDifferences | src/components/meditation/MeditationWithBiometrics.tsx:109-112 | one difference per consecutive pair, each the absolute change between neighbours |
| Meditation.Hrv | src/components/meditation/MeditationWithBiometrics.tsx:106-115 | 0 below two samples, and never negative |
| Meditation.HrvBounds | src/components/meditation/MeditationWithBiometrics.tsx:106-115 | the HRV of a non-empty history lies between 0 and max - min |
| Meditation.HrvConstant | src/components/meditation/MeditationWithBiometrics.tsx:106-115 | a constant heart rate has HRV 0 |
| Meditation.CalculateHrv | src/components/meditation/MeditationWithBiometrics.tsx:106-115 | the loop that pushes the differences returns the rounded mean difference, and 0 below two samples |
| Meditation.AverageHeartRate | src/components/meditation/MeditationWithBiometrics.tsx:84 | the rounded mean lies between the minimum and the maximum |
| Meditation.Summarize | src/components/meditation/MeditationWithBiometrics.tsx:83-103 | a summary exists iff the history is non-empty; then min <= avg <= max, min and max are samples that bound every sample, 0 <= HRV <= max - min, and the stress level follows the average and HRV |
| Meditation.SummarizeExample | src/components/meditation/MeditationWithBiometrics.tsx:83-100 | readings 70, 72, 68, 90, 65 summarise to average 73, range 65..90, HRV 13, medium stress |
| Meditation.FormatTime | src/components/meditation/MeditationWithBiometrics.tsx:123-127 | digits for the minutes, a colon, then exactly two digits for the seconds |
| Meditation.FormatTimeRoundTrip | src/components/meditation/MeditationWithBiometrics.tsx:123-127 | "m:ss" reads back as the same number of seconds, with a two-digit seconds field |
| Meditation.MeditationSession.constructor | src/components/meditation/MeditationWithBiometrics.tsx:32-35 | inactive, not started, empty history, duration * 60 seconds left |
| Meditation.MeditationSession.StartSession | src/components/meditation/MeditationWithBiometrics.tsx:59-66 | active and started with an empty history; monitoring is requested iff the watch is connected |
| Meditation.MeditationSession.PauseSession | src/components/meditation/MeditationWithBiometrics.tsx:68-70 | only the active flag is cleared |
| Meditation.MeditationSession.ResetSession | src/components/meditation/MeditationWithBiometrics.tsx:72-77 | both flags cleared, history emptied, time restored to duration * 60 |
| Meditation.MeditationSession.PlayPauseButton | src/components/meditation/MeditationWithBiometrics.tsx:191-192 | the button flips the active flag and leaves the session started; pausing keeps the history and the clock; resuming goes through the start handler and empties the history; completed summaries and the heart-rate effect's dependencies are kept |
| Meditation.MeditationSession.TrackHeartRate | src/components/meditation/MeditationWithBiometrics.tsx:38-42 | the effect runs only when the reading or the active flag differs from its last run (its dependency list); then a sample is appended iff the session is active and the reading is present and non-zero; an unchanged pair appends nothing; nothing else changes |
| Meditation.MeditationSession.HandleSessionComplete | src/components/meditation/MeditationWithBiometrics.tsx:79-104 | both flags cleared; a summary is reported iff the history is non-empty, and it is the summary of that history |
| Meditation.MeditationSession.TimerStep | src/components/meditation/MeditationWithBiometrics.tsx:44-57 | an active session with time left loses one second; at zero a started session completes and hands over one summary; otherwise the time is kept; the completed list grows by exactly the summary returned |
| Meditation.RepeatedReadingRecordedOnce | src/components/meditation/MeditationWithBiometrics.tsx:38-42 | readings 72 (inactive), then 72, 72 and 75 after starting, leave the history [72, 75]: a repeated reading is recorded once |
| SmartWatch.ConnectStarted | src/contexts/SmartWatchContext.tsx:35-48 | without Web Bluetooth nothing changes; otherwise only `isConnecting` is raised; consistency is kept |
| SmartWatch.ConnectSettled | src/contexts/SmartWatchContext.tsx:48-90 | `isConnecting` ends false; only a connected server makes the picked device current and connected; characteristic and snapshot are kept; consistency is kept |
| SmartWatch.Disconnected | src/contexts/SmartWatchContext.tsx:93-101 | the result is consistent, disconnected, with no device, characteristic or snapshot |
| SmartWatch.LinkLost | src/contexts/SmartWatchContext.tsx:59-67 | the result is consistent and disconnected with no device or characteristic, and keeps the last snapshot |
| SmartWatch.StartMonitoring | src/contexts/SmartWatchContext.tsx:103-143 | only the characteristic can change, and only when a connected device is held and the lookup succeeded; it is then the one found; consistency is kept |
| SmartWatch.Notify | src/contexts/SmartWatchContext.tsx:116-127 | only the snapshot can change; a missing or short value changes nothing; otherwise the snapshot carries byte 1 as the heart rate and the current time |
| SmartWatch.StopMonitoring | src/contexts/SmartWatchContext.tsx:145-158 | only the characteristic can change; it is released iff the stop succeeded (or none was held); consistency is kept |
| SmartWatch.DecodeHeartRate | src/contexts/SmartWatchContext.tsx:119-120 | a value exists iff the frame has at least two bytes, and it is byte 1, in 0..255 |
| SmartWatch.InitialConsistent | src/contexts/SmartWatchContext.tsx:26-30 | the initial state is disconnected, not connecting, and consistent |
| SmartWatch.StepsPreserveConsistent | src/contexts/SmartWatchContext.tsx:38-158 | every event keeps "connected iff a device is held" and "a characteristic only with a device" |
| SmartWatch.UnsupportedConnectChangesNothing | src/contexts/SmartWatchContext.tsx:39-46 | without Web Bluetooth, connect changes no field, not even isConnecting |
| SmartWatch.ConnectOutcomes | src/contexts/SmartWatchContext.tsx:48-90 | isConnecting is raised at the start and lowered at the end on every path; only a server sets the device and isConnected; a rejection or a missing server leaves both as they were |
| SmartWatch.DisconnectIdempotent | src/contexts/SmartWatchContext.tsx:93-101 | disconnect clears connection, device, characteristic and metrics; a second call changes nothing |
| SmartWatch.LinkLostKeepsMetrics | src/contexts/SmartWatchContext.tsx:59-67 | an unsolicited disconnect clears connection, device and characteristic but keeps the metrics |
| SmartWatch.StartMonitoringGuard | src/contexts/SmartWatchContext.tsx:103-111 | monitoring does nothing unless the held device's server is connected; a failed lookup changes nothing |
| SmartWatch.StartMonitoringNeedsDevice | src/contexts/SmartWatchContext.tsx:103-104 | in a consistent state, monitoring changes something only while connected |
| SmartWatch.NotifyUpdatesSnapshot | src/contexts/SmartWatchContext.tsx:116-127 | a readable notification sets the heart rate to byte 1, keeps steps and calories (0 without a snapshot), stamps the time |
| SmartWatch.NotifyIgnoresUnreadable | src/contexts/SmartWatchContext.tsx:118-120 | a missing or one-byte value leaves the state unchanged |
| SmartWatch.NotifyIgnoresFlags | src/contexts/SmartWatchContext.tsx:120 | the flags byte is never consulted, so a 16-bit reading is reported modulo 256 |
| SmartWatch.StopMonitoringOutcomes | src/contexts/SmartWatchContext.tsx:145-158 | without a characteristic nothing happens; a successful stop releases it; a failed one changes nothing |
| SmartWatch.UnmountClears | src/contexts/SmartWatchContext.tsx:161-166 | the cleanup (stop, then disconnect) always ends fully disconnected |
| SmartWatch.Render | src/contexts/SmartWatchContext.tsx:160-166 | when the previous cleanup runs on a render (as the effect's dependencies make it do) and the device or characteristic changed, the render ends in `Disconnected(s)`: no device, no characteristic, not connected; when neither changed, or without that cleanup, the state is kept; consistency is kept either way |
| SmartWatch.ConnectUndoneByRender | src/contexts/SmartWatchContext.tsx:160-166 | as written: after a successful connect the next render clears the state and the one after drops the new device's link |
| SmartWatch.MonitoringUndoneByRender | src/contexts/SmartWatchContext.tsx:160-166 | as written: starting monitoring changes the characteristic, and the next render disconnects the watch |
| SmartWatch.ConnectStaysConnected | src/contexts/SmartWatchContext.tsx:160-166 | with the cleanup run only on unmount, a connect stays connected and monitoring keeps its characteristic |
| SmartWatch.SmartWatchProvider.constructor | src/contexts/SmartWatchContext.tsx:26-30 | the initial state: not connected, no device, not connecting, no characteristic, no snapshot; consistent |
| SmartWatch.SmartWatchProvider.BeginConnect | src/contexts/SmartWatchContext.tsx:38-48 | the state becomes the start of connect; the picker opens iff Bluetooth is supported |
| SmartWatch.SmartWatchProvider.FinishConnect | src/contexts/SmartWatchContext.tsx:70-90 | the state becomes the settled end of connect |
| SmartWatch.SmartWatchProvider.Connect | src/contexts/SmartWatchContext.tsx:38-91 | the whole of connect with no other event between its steps |
| SmartWatch.SmartWatchProvider.Disconnect | src/contexts/SmartWatchContext.tsx:93-101 | the state is cleared; the link is dropped iff the held device was connected |
| SmartWatch.SmartWatchProvider.HandleLinkLost | src/contexts/SmartWatchContext.tsx:59-67 | the state becomes the link-lost state |
| SmartWatch.SmartWatchProvider.StartHeartRateMonitoring | src/contexts/SmartWatchContext.tsx:103-143 | the listener is registered iff the device is connected and notifications started |
| SmartWatch.SmartWatchProvider.HandleNotification | src/contexts/SmartWatchContext.tsx:116-127 | the state becomes the notified state |
| SmartWatch.SmartWatchProvider.StopHeartRateMonitoring | src/contexts/SmartWatchContext.tsx:145-158 | the state becomes the stopped state |
| HealthAnalytics.Values | src/components/health/HealthAnalytics.tsx:36 | one value per day, the chosen field of that day |
| HealthAnalytics.WeeklyAverage | src/components/health/HealthAnalytics.tsx:35-38 | defined iff there is data, and then between the field's minimum and maximum |
| HealthAnalytics.GetTrend | src/components/health/HealthAnalytics.tsx:40-49 | 'up' iff there are at least two records and the second half's mean exceeds the first half's |
| HealthAnalytics.Mean | src/components/health/HealthAnalytics.tsx:45-46 | the mean times the length is the sum |
| HealthAnalytics.HalvesSplit | src/components/health/HealthAnalytics.tsx:41-43 | the halves split at floor(n/2) and concatenate back to the series |
| HealthAnalytics.TrendUpIff | src/components/health/HealthAnalytics.tsx:45-48 | up iff there are two points and the second half's mean is strictly greater |
| HealthAnalytics.ShortSeriesDown | src/components/health/HealthAnalytics.tsx:42-48 | with fewer than two points the first half is empty and the trend is down |
| HealthAnalytics.ConstantSeriesDown | src/components/health/HealthAnalytics.tsx:45-48 | a constant series trends down (ties are down) |
| HealthAnalytics.TrendRaisingSecondHalf | src/components/health/HealthAnalytics.tsx:45-48 | raising values in the second half keeps an upward trend |
| HealthAnalytics.MockWeeklyAverage | src/components/health/HealthAnalytics.tsx:19-27 | the sample week's heart-rate average is round(496 / 7) = 71 |
| Language.ParseLanguage | src/contexts/LanguageContext.tsx:107-108 | a stored value is adopted iff it is "th" or "en" |
| Language.ParseCode | src/contexts/LanguageContext.tsx:107-115 | a stored language code reads back as that language, and only its own code does |
| Language.SavedLanguageAfterChange | src/contexts/LanguageContext.tsx:113-116 | after a change, the stored language is the one chosen |
| Language.T | src/contexts/LanguageContext.tsx:118-120 | the entry when present and non-empty, otherwise the key |
| Language.TablesShareKeys | src/contexts/LanguageContext.tsx:14-101 | the Thai and English tables define the same keys |
| Language.TranslatedKeys | src/contexts/LanguageContext.tsx:14-120 | every known key translates to its table entry in both languages |
| Language.LanguageProvider.constructor | src/contexts/LanguageContext.tsx:104 | the first render is in Thai |
| Language.LanguageProvider.LoadSavedLanguage | src/contexts/LanguageContext.tsx:106-111 | a valid stored language is adopted, otherwise the language stays |
| Language.LanguageProvider.ChangeLanguage | src/contexts/LanguageContext.tsx:113-116 | the state and the stored value both become the new language |
| Chat.Clamp | src/pages/Chat.tsx:55 | the result is within 1..10 and equals the score when it already is |
| Chat.MoodScore | src/pages/Chat.tsx:42-56 | every score is within 1..10 |
| Chat.AnalyzeMood | src/pages/Chat.tsx:42-56 | the word loop returns the clamped 5 + positives - negatives |
| Chat.KeywordListsDisjoint | src/pages/Chat.tsx:44-45 | no word is on both keyword lists |
| Chat.WordEffectCases | src/pages/Chat.tsx:50-53 | a positive word adds 1, a negative word subtracts 1, any other word adds 0 |
| Chat.EffectBounded | src/pages/Chat.tsx:47-53 | n words move the score by at most n either way |
| Chat.NoKeywordsScoresFive | src/pages/Chat.tsx:47-55 | text without keywords scores exactly 5 |
| Chat.EffectAppend | src/pages/Chat.tsx:50-53 | the effect of two word lists together is the sum of their effects |
| Chat.HappyScoresSix | src/pages/Chat.tsx:42-56 | "happy" scores 6 |
| Chat.Band | src/pages/Chat.tsx:58-76 | upbeat iff score >= 7; low iff score <= 3 |
| Chat.ResponsesFollowBands | src/pages/Chat.tsx:58-76 | in either language two scores get the same reply iff they are in the same band |
| Chat.AIResponse | src/pages/Chat.tsx:58-76 | the reply is one of the three of the requested language, from the band of the score: 7 and up, 4 to 6, 3 and below |
| Chat.SavedMood | src/pages/Chat.tsx:110-112 | a saved mood is non-zero and is the score of some scored reply in the conversation |
| Chat.SavedMoodSnoc | src/pages/Chat.tsx:110-112 | a new scored assistant message becomes the saved mood; any other message leaves it |
| Chat.SavedMoodNone | src/pages/Chat.tsx:110-112 | nothing is saved iff no message is a scored assistant message |
| Chat.SavedMoodIsLast | src/pages/Chat.tsx:110-112 | the saved mood is that of the last scored assistant message |
| Chat.ChatPage.constructor | src/pages/Chat.tsx:19-31 | one greeting message, `Greeting` of the chosen language, with empty input and not typing |
| Chat.ChatPage.SetInputText | src/pages/Chat.tsx:222 | only the input changes |
| Chat.ChatPage.SetLanguage | src/pages/Chat.tsx:18 | the language changes and the messages, input and typing flag do not |
| Chat.ChatPage.HandleSendMessage | src/pages/Chat.tsx:78-91 | blank input changes nothing; otherwise exactly one user message is appended, the input cleared, typing shown, and the text and the current language are handed to the delayed reply |
| Chat.ChatPage.DeliverAIResponse | src/pages/Chat.tsx:93-107 | one assistant message with the text's score and its band's reply, in the language captured when the message was sent, is appended; typing ends; the language is unchanged |
| Chat.ChatPage.HandleSaveMood | src/pages/Chat.tsx:110-119 | reports the saved mood of the current messages |
| Chat.ReplyKeepsSendLanguage | src/pages/Chat.tsx:93-107 | "happy" sent in Thai gets the Thai middle-band reply even when the language is switched to English before the reply arrives |
| Schedule.EventFromDraft | src/pages/Schedule.tsx:165-183 | a scheduled event on the selected day; the Thai title defaults to the title and the end time to the start time |
| Schedule.ChangeStatus | src/pages/Schedule.tsx:202-205 | the list keeps its length |
| Schedule.DeleteEvent | src/pages/Schedule.tsx:197-198 | the events kept are exactly those with another id, in their original order |
| Schedule.DeleteRemovesExactly | src/pages/Schedule.tsx:197-198 | exactly the events with that id are removed, the rest stay in order |
| Schedule.DeleteAbsent | src/pages/Schedule.tsx:197-198 | deleting an absent id changes nothing |
| Schedule.ChangeStatusOnlyStatus | src/pages/Schedule.tsx:202-205 | only the status of matching events changes; every other field and the order stay |
| Schedule.ChangeStatusIdempotent | src/pages/Schedule.tsx:202-205 | setting a status twice is setting it once |
| Schedule.DeleteAfterChangeStatus | src/pages/Schedule.tsx:197-205 | deleting after a status change is the same as deleting |
| Schedule.TimeLessEqTotal | src/pages/Schedule.tsx:211 | the time comparison is total |
| Schedule.InsertByTime | src/pages/Schedule.tsx:211 | insertion adds exactly one element |
| Schedule.SortByTime | src/pages/Schedule.tsx:211 | sorting is a permutation |
| Schedule.InsertKeepsSorted | src/pages/Schedule.tsx:211 | inserting into a sorted list keeps it sorted |
| Schedule.SortByTimeSorted | src/pages/Schedule.tsx:211 | the sort's result is sorted by time |
| Schedule.InsertByTimeStable | src/pages/Schedule.tsx:211 | inserting an event puts it ahead of the events already at its time and keeps every time's events in order |
| Schedule.SortByTimeStable | src/pages/Schedule.tsx:211 | the sort is stable, as `Array.prototype.sort` is: the events of any one time come out in the order they went in |
| Schedule.DayEvents | src/pages/Schedule.tsx:209-211 | the view holds exactly the events of the selected day |
| Schedule.DayEventsCorrect | src/pages/Schedule.tsx:209-211 | the day view is sorted by time and holds exactly the events of that day, each as often as in the list |
| Schedule.SchedulePage.constructor | src/pages/Schedule.tsx:50-115 | starts with the given events, today selected, an empty draft, the dialog closed |
| Schedule.SchedulePage.EditDraft | src/pages/Schedule.tsx:252-308 | only the draft changes |
| Schedule.SchedulePage.SelectDay | src/pages/Schedule.tsx:335 | only the selected day changes |
| Schedule.SchedulePage.HandleEventCreate | src/pages/Schedule.tsx:336-339 | the calendar's "+" selects the given day and opens the dialog; events and draft are kept |
| Schedule.SchedulePage.SetShowCreateEvent | src/pages/Schedule.tsx:227-315 | the dialog's open change and its Cancel button set only the open flag |
| Schedule.SchedulePage.HandleCreateEvent | src/pages/Schedule.tsx:159-195 | a draft without title or time changes nothing; otherwise exactly one scheduled event is appended and the draft resets |
| Schedule.SchedulePage.HandleDeleteEvent | src/pages/Schedule.tsx:197-200 | the list becomes the list without that id |
| Schedule.SchedulePage.HandleStatusChange | src/pages/Schedule.tsx:202-207 | the list becomes the list with that status changed |
| BookingCalendar.TimeSlots | src/components/booking/BookingCalendar.tsx:47-56 | eight slots of the therapist, all free except the second and the sixth |
| BookingCalendar.AvailableSlots | src/components/booking/BookingCalendar.tsx:58 | exactly the available slots, in their order |
| BookingCalendar.BookedSlots | src/components/booking/BookingCalendar.tsx:59 | exactly the unavailable slots, in their order |
| BookingCalendar.SlotsPartition | src/components/booking/BookingCalendar.tsx:58-59 | available and booked slots partition the slots (as multisets and in count), are disjoint and keep their order |
| BookingCalendar.BookedOfPattern | src/components/booking/BookingCalendar.tsx:47-59 | eight slots with only the 2nd and 6th taken have exactly those two booked |
| BookingCalendar.MockBookedSlots | src/components/booking/BookingCalendar.tsx:47-59 | the booked slots are 10:00 and 15:00 |
| BookingCalendar.MockSlotCounts | src/components/booking/BookingCalendar.tsx:47-59 | six slots are free and two booked |
| BookingCalendar.IsDateDisabled | src/components/booking/BookingCalendar.tsx:80-82 | a past date is disabled; an enabled date is on a later day than now |
| BookingCalendar.EnabledDatesAccepted | src/components/booking/BookingCalendar.tsx:61-82 | every date the picker enables is accepted by the handler |
| BookingCalendar.LaterTodayAcceptedButDisabled | src/components/booking/BookingCalendar.tsx:61-82 | a time later today is accepted by the handler although the picker disables it |
| BookingCalendar.HourText | src/components/booking/BookingCalendar.tsx:178 | the text before the first ':' holds no ':', and a time without ':' is its own hour part |
| BookingCalendar.EndTime | src/components/booking/BookingCalendar.tsx:177-179 | the end time is a number of hours, or NaN, followed by ":00" |
| BookingCalendar.EndTimeNextHour | src/components/booking/BookingCalendar.tsx:177-179 | a slot "hh:mm" ends at hour h + 1 followed by ":00", with no wrap at midnight |
| BookingCalendar.FirstSlotEndTime | src/components/booking/BookingCalendar.tsx:177-179 | the 09:00 slot ends at 10:00 |
| BookingCalendar.BookingCalendar.constructor | src/components/booking/BookingCalendar.tsx:43-44 | nothing selected, nothing confirmed |
| BookingCalendar.BookingCalendar.HandleDateSelect | src/components/booking/BookingCalendar.tsx:61-66 | an accepted date (present and after now) is selected and clears the slot; otherwise nothing changes |
| BookingCalendar.BookingCalendar.HandleTimeSlotSelect | src/components/booking/BookingCalendar.tsx:68-72 | only an available slot is selected, so the selected slot is always available |
| BookingCalendar.BookingCalendar.HandleConfirmBooking | src/components/booking/BookingCalendar.tsx:74-78 | the callback fires iff a date and a slot are selected, with those two |
| Calendar.EventsForDate | src/components/calendar/Calendar.tsx:95-97 | exactly the events on the same day as the date, in list order |
| Calendar.EventsForDateCorrect | src/components/calendar/Calendar.tsx:95-97 | exactly the events on that day, in their original order; a new event is added at the end iff it is on that day |
| Calendar.HasEvents | src/components/calendar/Calendar.tsx:173 | a day is marked iff some event falls on it |
| Calendar.EventMarksItsDay | src/components/calendar/Calendar.tsx:173 | a day with an event is marked |
| Calendar.NoEventsUnmarked | src/components/calendar/Calendar.tsx:173 | a day without events is not marked |
| Calendar.StatusCount | src/components/calendar/Calendar.tsx:259-268 | at most the number of events, and 0 iff no event has that status |
| Calendar.StatusCountsSum | src/components/calendar/Calendar.tsx:259-268 | the completed, scheduled and missed counts add up to the number of events |
| Calendar.CompletedAndScheduledBounded | src/components/calendar/Calendar.tsx:259-268 | completed plus scheduled never exceeds the number of events |
| Calendar.MeditationCount | src/components/calendar/Calendar.tsx:276 | at most the number of events, and 0 iff no event is a meditation |
| Calendar.MonthOfIndex | src/components/calendar/Calendar.tsx:87-93 | every month index names a valid month with that index |
| Calendar.PrevMonth | src/components/calendar/Calendar.tsx:87-89 | the previous month has index one less |
| Calendar.NextMonth | src/components/calendar/Calendar.tsx:91-93 | the next month has index one more |
| Calendar.IndexInjective | src/components/calendar/Calendar.tsx:87-93 | two valid months with the same index are the same month |
| Calendar.MonthNavigationRoundTrip | src/components/calendar/Calendar.tsx:87-93 | previous then next (and next then previous) returns to the same month |
| Calendar.MockTodayEvents | src/components/calendar/Calendar.tsx:47-78 | of the sample events only the first is today |
| Calendar.CalendarView.constructor | src/components/calendar/Calendar.tsx:43-44 | today selected, this month shown, nothing reported |
| Calendar.CalendarView.HandleDateSelect | src/components/calendar/Calendar.tsx:80-85 | no date changes nothing; a date is selected and reported to the parent exactly once |
| Calendar.CalendarView.HandlePrevMonth | src/components/calendar/Calendar.tsx:87-89 | the shown month becomes the previous one |
| Calendar.CalendarView.HandleNextMonth | src/components/calendar/Calendar.tsx:91-93 | the shown month becomes the next one |
| Calendar.CalendarView.HandleMonthChange | src/components/calendar/Calendar.tsx:170 | the shown month becomes the one the picker asks for |
| TherapistDirectory.AnySpecialtyContainsIff | src/pages/Therapist.tsx:111-112 | the `some` over specialties holds iff some lower-cased specialty contains the selected id |
| TherapistDirectory.PriceBucketsPartition | src/pages/Therapist.tsx:114-117 | budget (< 2000), mid (2000..2500) and premium (> 2500) are disjoint and cover every rate |
| TherapistDirectory.UnknownRangeMatchesNothing | src/pages/Therapist.tsx:114-117 | an unknown price range matches no therapist |
| TherapistDirectory.FilteredTherapists | src/pages/Therapist.tsx:110-120 | a therapist is listed iff in the directory and matching both the specialty and the price range |
| TherapistDirectory.FilteredTherapistsCorrect | src/pages/Therapist.tsx:110-120 | the filtered list is an ordered subsequence holding exactly the therapists matching both filters |
| TherapistDirectory.AllFiltersShowEveryone | src/pages/Therapist.tsx:110-120 | with both filters on "all" every therapist is listed |
| TherapistDirectory.BudgetBucketOfDirectory | src/pages/Therapist.tsx:38-117 | the budget filter lists only the one non-premium therapist |
| TherapistDirectory.TherapistPage.constructor | src/pages/Therapist.tsx:33-36 | both filters on "all", nobody selected, calendar hidden |
| TherapistDirectory.TherapistPage.SetSpecialty | src/pages/Therapist.tsx:111-112 | only the specialty filter changes |
| TherapistDirectory.TherapistPage.SetPriceRange | src/pages/Therapist.tsx:114-117 | only the price filter changes |
| TherapistDirectory.TherapistPage.HandleBooking | src/pages/Therapist.tsx:122-129 | a premium therapist changes nothing; any other is selected and the calendar shown |
| TherapistDirectory.TherapistPage.HandleBookingConfirm | src/pages/Therapist.tsx:131-139 | the selection is cleared, the calendar hidden and one confirmation toast, `ConfirmationToast` of the current language, raised |
| TherapistDirectory.TherapistPage.HandleBookingCancel | src/pages/Therapist.tsx:141-144 | the selection is cleared and the calendar hidden |
| TherapistDirectory.TherapistPage.SetLanguage | src/pages/Therapist.tsx:32 | the language changes and the filters, booking dialog and toasts do not |
| TherapistDirectory.ToastFollowsLanguage | src/pages/Therapist.tsx:131-139 | the booking toast is in the language current at confirmation |
| ContentLibrary.CategoryIdsDistinct | src/pages/Content.tsx:78-85 | category ids are distinct and none is "all" |
| ContentLibrary.CategoryMatchIff | src/pages/Content.tsx:94 | a category's id matches exactly that category |
| ContentLibrary.DurationBucketsPartition | src/pages/Content.tsx:95-98 | "5" (<= 5), "10" (6..10) and "15" (> 10) are disjoint and cover every duration |
| ContentLibrary.FilteredContent | src/pages/Content.tsx:93-101 | an item is listed iff it is in the library and both its category and its duration match |
| ContentLibrary.FilteredContentCorrect | src/pages/Content.tsx:93-101 | the filtered list is an ordered subsequence holding exactly the items matching both filters |
| ContentLibrary.AllFiltersShowEverything | src/pages/Content.tsx:93-101 | with both filters on "all" every item is listed |
| ContentLibrary.DurationBucketsCount | src/pages/Content.tsx:95-98 | the three duration buckets together list every item once |
| ContentLibrary.LongSessionsOfLibrary | src/pages/Content.tsx:27-98 | the "15+" filter lists the two long sessions of the library |
| ContentLibrary.ContentPage.constructor | src/pages/Content.tsx:24-25 | both filters on "all", nothing played |
| ContentLibrary.ContentPage.SetCategory | src/pages/Content.tsx:94 | only the category filter changes |
| ContentLibrary.ContentPage.SetDuration | src/pages/Content.tsx:95-98 | only the duration filter changes |
| ContentLibrary.ContentPage.HandlePlayContent | src/pages/Content.tsx:103-110 | a premium item is not played; any other is |
| SmartNotifications.Dismiss | src/components/health/SmartNotifications.tsx:76-78 | every kept notification has another id, and every notification with another id is kept |
| SmartNotifications.DismissRemovesExactly | src/components/health/SmartNotifications.tsx:76-78 | exactly the notifications with that id are removed, the rest keep their order, and the count drops by the number removed |
| SmartNotifications.DismissIdempotent | src/components/health/SmartNotifications.tsx:76-78 | dismissing twice is dismissing once |
| SmartNotifications.FormatTimestamp | src/components/health/SmartNotifications.tsx:95-105 | "just now" iff under a minute old; minutes shown are 1 to 59, hours 1 to 23; an older one shows its own date |
| SmartNotifications.FormatTimestampCases | src/components/health/SmartNotifications.tsx:95-105 | "just now" under a minute (future included), minutes under an hour, hours under a day, else the date; the number is the whole minutes or hours elapsed |
| SmartNotifications.LabelText | src/components/health/SmartNotifications.tsx:99-103 | "Just now", a count followed by "m ago" or "h ago", or the date as the browser renders it |
| SmartNotifications.LabelTextReadsBack | src/components/health/SmartNotifications.tsx:101-103 | the number in "Nm ago" and "Nh ago" reads back as N |
| SmartNotifications.InsightOf | src/components/health/SmartNotifications.tsx:188-192 | stressed iff above 80 bpm, well rested iff below 60 |
| SmartNotifications.ShownInsight | src/components/health/SmartNotifications.tsx:184-193 | an insight is shown iff connected with a reading, and it is the reading's insight |
| SmartNotifications.ShownInsightCases | src/components/health/SmartNotifications.tsx:184-193 | shown iff connected with a reading; stressed above 80, well rested below 60, healthy in between |
| SmartNotifications.InitialLabels | src/components/health/SmartNotifications.tsx:21-46 | the three first notifications read 5, 15 and 30 minutes ago |
| SmartNotifications.NotificationsPanel.constructor | src/components/health/SmartNotifications.tsx:20-46 | the three first notifications, no toasts |
| SmartNotifications.NotificationsPanel.DismissNotification | src/components/health/SmartNotifications.tsx:76-78 | the list becomes the list without that id |
| SmartNotifications.NotificationsPanel.HandleMeditationSuggestion | src/components/health/SmartNotifications.tsx:80-86 | one meditation toast is raised; the list stays |
| SmartNotifications.NotificationsPanel.HandleActivityReminder | src/components/health/SmartNotifications.tsx:88-93 | one reminder toast is raised; the list stays |
| HealthMetricsCard.StatusOf | src/components/health/HealthMetricsCard.tsx:12-16 | normal iff the rate is 60 to 100 inclusive |
| HealthMetricsCard.ColorOf | src/components/health/HealthMetricsCard.tsx:12-16 | one of the three dot colours, green for a normal rate |
| HealthMetricsCard.StatusBands | src/components/health/HealthMetricsCard.tsx:12-16 | low below 60, high above 100, normal 60..100; every rate gets exactly one |
| HealthMetricsCard.ColorFollowsStatus | src/components/health/HealthMetricsCard.tsx:12-16 | same colour iff same status; blue low, red high, green normal |
| HealthMetricsCard.Body | src/components/health/HealthMetricsCard.tsx:29-76 | readings iff a snapshot is present, showing its heart rate and that rate's status |
| HealthMetricsCard.BodyCases | src/components/health/HealthMetricsCard.tsx:29-76 | readings shown iff metrics are present, whatever the connection; otherwise the hint depends only on the connection |
| HealthMetricsCard.CardAfterNotification | src/components/health/HealthMetricsCard.tsx:29-40 | after a readable notification the card shows byte 1 with its status and the arrival time |
| HealthMetricsCard.Badge | src/components/health/HealthMetricsCard.tsx:23-24 | the badge reads Connected iff the watch is connected |
| MoodCard.MoodEmoji | src/components/ui/MoodCard.tsx:20-27 | one of the five faces; a missing or zero score shows the smiling face |
| MoodCard.MoodColor | src/components/ui/MoodCard.tsx:29-36 | a missing or zero score gets the default gradient and a score below 2 the red one |
| MoodCard.BandOf | src/components/ui/MoodCard.tsx:20-36 | no score or 0 is the default band; then the thresholds 8, 6, 4, 2; anything lower is the lowest |
| MoodCard.ColorFollowsBand | src/components/ui/MoodCard.tsx:29-36 | two scores get the same gradient iff they are in the same band |
| MoodCard.EmojiFollowsBand | src/components/ui/MoodCard.tsx:20-27 | the emoji never changes within a band |
| MoodCard.DefaultEmojiIsGoodEmoji | src/components/ui/MoodCard.tsx:21-30 | a missing score shows the same face as 6 and 7 but the default gradient |
| MoodCard.NegativeScoresLowest | src/components/ui/MoodCard.tsx:26-35 | negative scores get the lowest emoji and gradient |
| PrivacyConsent.SetConsent | src/components/privacy/PrivacyConsent.tsx:64-66 | a known id takes the new value; an unknown id changes nothing |
| PrivacyConsent.CanProceed | src/components/privacy/PrivacyConsent.tsx:23 | true iff both the data-collection and the AI-analysis consents are given |
| PrivacyConsent.SetConsentFrame | src/components/privacy/PrivacyConsent.tsx:64-66 | a change sets that consent and leaves every other one |
| PrivacyConsent.ConsentsByIds | src/components/privacy/PrivacyConsent.tsx:16-21 | the four ids determine the record |
| PrivacyConsent.OptionalConsentsIrrelevant | src/components/privacy/PrivacyConsent.tsx:23 | analytics and marketing never change whether the user may proceed |
| PrivacyConsent.InitialCannotProceed | src/components/privacy/PrivacyConsent.tsx:16-23 | nothing is consented at first so the user cannot proceed; ticking both required boxes allows it |
| PrivacyConsent.RequiredItemsAreTheGate | src/components/privacy/PrivacyConsent.tsx:23-62 | the items follow the four ids, and the user may proceed iff every required item is ticked |
| PrivacyConsent.PrivacyConsentForm.constructor | src/components/privacy/PrivacyConsent.tsx:16-21 | nothing consented, accepted or declined |
| PrivacyConsent.PrivacyConsentForm.HandleConsentChange | src/components/privacy/PrivacyConsent.tsx:64-66 | the consents become the changed consents |
| PrivacyConsent.PrivacyConsentForm.ClickAccept | src/components/privacy/PrivacyConsent.tsx:125-127 | accept fires iff the user may proceed |
| PrivacyConsent.PrivacyConsentForm.ClickDecline | src/components/privacy/PrivacyConsent.tsx:135-136 | decline always fires |
| StripeCheckout.OriginalPriceIsTwelveMonths | src/lib/stripe.ts:24-46 | the struck-through yearly price is twelve monthly payments |
| StripeCheckout.Savings | src/components/premium/StripeCheckout.tsx:36-41 | a yearly price no dearer than twelve months gives a percentage from 0 to 100 |
| StripeCheckout.CalculateSavings | src/components/premium/StripeCheckout.tsx:36-41 | the catalog saving is a percentage from 0 to 100 |
| StripeCheckout.CatalogSavings | src/components/premium/StripeCheckout.tsx:36-41 | the catalog yearly plan saves round(100 * 88900 / 238800) = 37 percent |
| StripeCheckout.NoSavingAtFullPrice | src/components/premium/StripeCheckout.tsx:36-41 | a yearly price of exactly twelve months saves 0 percent |
| StripeCheckout.SavingsInRange | src/components/premium/StripeCheckout.tsx:36-41 | a yearly price from 0 to twelve months saves 0 to 100 percent |
| StripeCheckout.SavingsAntitone | src/components/premium/StripeCheckout.tsx:36-41 | a cheaper yearly price never advertises a smaller saving |
| StripeCheckout.SavingsBadgeText | src/components/premium/StripeCheckout.tsx:96-99 | the badge ends in '%' and in English starts with "Save " |
| StripeCheckout.SavingsBadgeEnglish | src/components/premium/StripeCheckout.tsx:96-99 | the English badge reads "Save 37%" |
| StripeCheckout.PriceIdsDistinct | src/lib/stripe.ts:21-41 | the two plans have different price ids |
| StripeCheckout.CheckoutView.constructor | src/components/premium/StripeCheckout.tsx:17 | the yearly plan is selected at first |
| StripeCheckout.CheckoutView.SelectPlan | src/components/premium/StripeCheckout.tsx:70 | the clicked plan becomes the selected one |
| StripeCheckout.CheckoutView.ClickUpgrade | src/components/premium/StripeCheckout.tsx:32-123 | while loading nothing happens; otherwise one session is requested with the selected plan's price id |
| BillingPortal.StatusText | src/components/premium/BillingPortal.tsx:51-59 | a status without a label is shown as it is; "active" is labelled Active in either language |
| BillingPortal.StatusTextCases | src/components/premium/BillingPortal.tsx:51-59 | an unknown status is shown verbatim; a known one never is, and the four labels are distinct |
| BillingPortal.EnglishStatusTexts | src/components/premium/BillingPortal.tsx:53-56 | the English labels are Active, Canceled, Past Due and Trial |
| BillingPortal.StatusColor | src/components/premium/BillingPortal.tsx:38-49 | one of four badge colours, gray for anything but active, canceled or past due |
| BillingPortal.StatusColorCases | src/components/premium/BillingPortal.tsx:38-49 | green iff active, red iff canceled, yellow iff past due, gray otherwise (trials included) |
| BillingPortal.Card | src/components/premium/BillingPortal.tsx:61-127 | the no-subscription card iff not premium; otherwise the button is disabled iff loading and the status row shows iff there is a subscription |
| BillingPortal.CardCases | src/components/premium/BillingPortal.tsx:61-127 | no-subscription card iff not premium; the status row iff a subscription; the warning iff it ends at the period's end; the button disabled iff loading |
| DailyTip.TipIndex | src/components/ui/DailyTipCard.tsx:17-20 | the index is always a valid tip index |
| DailyTip.TipCycle | src/components/ui/DailyTipCard.tsx:18-19 | tips repeat every four days and four consecutive days show all four |
| DailyTip.TipsTranslated | src/components/ui/DailyTipCard.tsx:10-31 | every tip key is in both tables and never shown bare |
| DailyTip.DailyTipCard.constructor | src/components/ui/DailyTipCard.tsx:8 | the first tip before the effect runs |
| DailyTip.DailyTipCard.Mount | src/components/ui/DailyTipCard.tsx:17-20 | the index becomes the day of month modulo 4 |
| AchievementPopup.StarCount | src/components/gamification/AchievementPopup.tsx:81 | two stars plus the rarity's rank |
| AchievementPopup.StarsFollowRarity | src/components/gamification/AchievementPopup.tsx:81 | 2, 3, 4, 5 stars for common to legendary: strictly more for a rarer achievement |
| AchievementPopup.RarityDistinguishable | src/components/gamification/AchievementPopup.tsx:41-53 | `RarityColor` (`rarityColors`) and `RarityLabel` (`rarityLabels`) of either language tell the rarities apart |
| AchievementPopup.AchievementPopup.constructor | src/components/gamification/AchievementPopup.tsx:31 | hidden before the effect |
| AchievementPopup.AchievementPopup.AchievementEffect | src/components/gamification/AchievementPopup.tsx:33-37 | an achievement makes the popup visible; none leaves it |
| AchievementPopup.AchievementPopup.SetAchievement | src/components/gamification/AchievementPopup.tsx:33-37 | a new achievement prop makes the popup visible |
| AchievementPopup.AchievementPopup.Rendered | src/components/gamification/AchievementPopup.tsx:39-133 | rendered iff an achievement is present and visible; stars by rarity; claim button iff a reward handler and legendary |
| AchievementPopup.AchievementPopup.HandleClose | src/components/gamification/AchievementPopup.tsx:55-58 | hidden at once, with one call to onClose scheduled |
| AchievementPopup.AchievementPopup.CloseTimerFires | src/components/gamification/AchievementPopup.tsx:57 | the scheduled onClose is made |
| AchievementPopup.AchievementPopup.ClickClaim | src/components/gamification/AchievementPopup.tsx:123-125 | the reward handler is called once |
| ContentDetail.Capitalize | src/components/content/ContentDetail.tsx:129 | same length; the first character upper-cased, the rest unchanged |
| ContentDetail.CapitalizeOnlyCase | src/components/content/ContentDetail.tsx:129 | capitalising is idempotent and changes nothing but the case of the first letter |
| ContentDetail.DifficultyText | src/components/content/ContentDetail.tsx:120-130 | English keeps the length of the level; Thai shows "unspecified" for anything but the three levels |
| ContentDetail.DifficultyTextCases | src/components/content/ContentDetail.tsx:120-130 | in Thai three distinct labels and "unspecified" for anything else; in English the same length, Beginner, Intermediate, Advanced |
| ContentDetail.DifficultyColor | src/components/content/ContentDetail.tsx:107-118 | one of four colours, gray for anything but the three levels |
| ContentDetail.DifficultyColorCases | src/components/content/ContentDetail.tsx:107-118 | green iff beginner, yellow iff intermediate, red iff advanced, gray otherwise |
| ContentDetail.ContentDetailView.constructor | src/components/content/ContentDetail.tsx:54-57 | paused, not a favourite, at the start, at 80% volume |
| ContentDetail.ContentDetailView.HandlePlayPause | src/components/content/ContentDetail.tsx:93-96 | only the playing flag flips |
| ContentDetail.ContentDetailView.HandleFavorite | src/components/content/ContentDetail.tsx:98-100 | only the favourite flag flips |
| ContentDetail.TogglesAreInvolutions | src/components/content/ContentDetail.tsx:93-100 | pressing either button twice restores the player |

## Left out

- Web Bluetooth I/O is out of the model. That covers the device request and
  its filters, the GATT calls and listener registration. Each call is a
  parameter that says how it ended.
- Asynchronous ordering is out of the model: timers, `setTimeout` delays and
  effect scheduling. Each handler is one atomic step; the chat's delayed reply
  and the popup's delayed `onClose` are separate steps. Effect dependency
  lists are modelled where they change the outcome: the heart-rate tracking
  effect and the smart-watch cleanup effect.
- Toasts, console output, scrolling and JSX rendering are out of the model.
  Only the values a component shows are modelled.
- Charts in health analytics are out of the model.
- `date-fns`, `Date`, `Intl` and `toLocaleDateString` are out of the model.
  - Dates are milliseconds and a day is `ms / 86400000`, so time zones and
    calendar days are ignored.
  - Month navigation moves a month index and does not clamp the day of the
    month.
  - The notification date text and the billing date are strings supplied from
    outside. The day of the month for the daily tip is a parameter.
  - `formatPrice` is not modelled.
- Floating point is out of the model. Means and percentages are exact
  rationals, rounded as `Math.round` rounds.
- Case mapping covers ASCII letters only. That affects the chat's keyword
  matching and the therapist specialty filter.
- `ContentDetail.Capitalize`: JavaScript's `toUpperCase` can lengthen a
  string (`ß` becomes `SS`); with ASCII-only case mapping the model keeps the
  length, so its length-preserving contract is stronger than the source
  gives for non-ASCII text.
- `Chat.ChatPage.constructor`: the greeting is chosen from the language at
  mount and is not re-translated when the language changes, as in the source.
- `Schedule.SortByTime`: `localeCompare` is read as code-unit order.
- `BookingCalendar.EndTime`: `parseInt` is modelled without leading blanks or
  a sign.
- `Language.T`: a key such as `constructor`, which the table object inherits,
  is treated as missing. The same holds for status keys in
  `BillingPortal.StatusText`.
- `Schedule.SchedulePage.HandleCreateEvent`: the `!selectedDate` guard can
  never fail, because a date is always selected, so it is not modelled.
- Display-only fields are dropped: ratings, avatars, thumbnails, reviews,
  transcripts, benefits and tags.
- `Calendar.CalendarView.HandleDateSelect`: the parent's callback is recorded
  by the date it received. What the parent does with it is not modelled.
- `BillingPortal`: the manage button's portal session is a call to Stripe and
  is not modelled. `Card` says only whether the button is disabled.
- The chat's `handleVoiceInput` only toggles a recording indicator and
  shows a "coming soon" toast, so it is not modelled.
- `ContentDetail`: `handleShare` only logs to the console and is not
  modelled. Progress and volume never change on the page, so they stay at
  their initial values.
- `ContentLibrary.ContentPage.HandlePlayContent`: the source only logs the
  title. The model records it in `played`.
- `AchievementPopup.AchievementPopup.SetAchievement`: the effect re-runs when
  the parent passes a different achievement object. The model runs it on
  every new prop, without reference identity.

## Findings

| source | as written | input that shows it | evidently intended | confidence | as-written member | corrected member |
|---|---|---|---|---|---|---|
| src/contexts/SmartWatchContext.tsx:161-166 | the "cleanup on unmount" effect depends on `disconnect` and `stopHeartRateMonitoring`, which are re-created whenever the device or the characteristic changes, so the cleanup also runs on those renders | a successful first `connect`: the next render runs the old cleanup and clears the state, and the one after drops the new device's link; starting monitoring likewise disconnects | the cleanup runs only when the provider unmounts | high, not executed | SmartWatch.ConnectUndoneByRender | SmartWatch.ConnectStaysConnected |

`SmartWatch.SmartWatchProvider` models the intended behaviour: its handlers
never run the cleanup on a render.
