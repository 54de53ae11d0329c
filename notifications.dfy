/**
 * The smart-notifications panel: the list of notifications with its badge
 * and dismiss buttons, the relative age shown on each, the toasts of the
 * action buttons, and the heart-rate insight drawn from the watch.
 */
module SmartNotifications {
  import opened Wrappers
  import opened Seqs
  import opened Numbers
  import SmartWatch

  datatype NotificationKind = StressNotice | ActivityNotice | MeditationNotice | HeartRateNotice

  datatype Priority = Low | Medium | High

  /** `Notification`; the timestamp is a clock reading in milliseconds. */
  datatype Notification = Notification(
    id: string, kind: NotificationKind, title: string, message: string,
    timestamp: int, priority: Priority)

  const MillisPerMinute := 60000
  const MillisPerHour := 3600000

  function HasOtherId(id: string): Notification -> bool {
    (n: Notification) => n.id != id
  }

  function HasId(id: string): Notification -> bool {
    (n: Notification) => n.id == id
  }

  /** `dismissNotification`. */
  function Dismiss(notifications: seq<Notification>, id: string): (r: seq<Notification>)
    ensures forall n :: n in r ==> n in notifications && n.id != id
    ensures forall i :: 0 <= i < |notifications| && notifications[i].id != id ==> notifications[i] in r
  {
    Filter(HasOtherId(id), notifications)
  }

  /**
   * Dismissing removes exactly the notifications with that id, keeps the
   * others in their order, and lowers the count by the number removed.
   */
  lemma DismissRemovesExactly(notifications: seq<Notification>, id: string)
    ensures forall n :: n in Dismiss(notifications, id) <==> n in notifications && n.id != id
    ensures IsSubsequence(Dismiss(notifications, id), notifications)
    ensures |Dismiss(notifications, id)| + |Filter(HasId(id), notifications)| == |notifications|
  {
    FilterPartition(HasOtherId(id), HasId(id), notifications);
  }

  /** Dismissing an id twice is dismissing it once. */
  lemma DismissIdempotent(notifications: seq<Notification>, id: string)
    ensures Dismiss(Dismiss(notifications, id), id) == Dismiss(notifications, id)
  {
    FilterAll(HasOtherId(id), Dismiss(notifications, id));
  }

  /** How old a notification is said to be. */
  datatype TimeLabel = JustNow | MinutesAgo(minutes: nat) | HoursAgo(hours: nat) | OnDate(timestamp: int)

  /**
   * `formatTimestamp`: whole minutes elapsed, rounded down (`Math.floor`
   * and Dafny's division agree for a positive divisor, negative ages
   * included), then whole hours under a day, then the date.
   */
  function FormatTimestamp(now: int, timestamp: int): (r: TimeLabel)
    ensures r == JustNow <==> now - timestamp < MillisPerMinute
    ensures r.MinutesAgo? ==> 1 <= r.minutes < 60
    ensures r.HoursAgo? ==> 1 <= r.hours < 24
    ensures r.OnDate? ==> r.timestamp == timestamp
  {
    var diffMins := (now - timestamp) / MillisPerMinute;
    if diffMins < 1 then JustNow
    else if diffMins < 60 then MinutesAgo(diffMins)
    else
      var diffHours := diffMins / 60;
      if diffHours < 24 then HoursAgo(diffHours) else OnDate(timestamp)
  }

  /**
   * Each label covers one range of ages: under a minute (a timestamp in the
   * future included), under an hour, under a day, and the rest; the number
   * shown is the whole minutes or hours elapsed.
   */
  lemma FormatTimestampCases(now: int, timestamp: int)
    ensures FormatTimestamp(now, timestamp) == JustNow <==> now - timestamp < MillisPerMinute
    ensures FormatTimestamp(now, timestamp).MinutesAgo? <==> MillisPerMinute <= now - timestamp < MillisPerHour
    ensures FormatTimestamp(now, timestamp).HoursAgo? <==> MillisPerHour <= now - timestamp < 24 * MillisPerHour
    ensures FormatTimestamp(now, timestamp).OnDate? <==> now - timestamp >= 24 * MillisPerHour
    ensures FormatTimestamp(now, timestamp).MinutesAgo? ==>
              var m := FormatTimestamp(now, timestamp).minutes;
              MillisPerMinute * m <= now - timestamp < MillisPerMinute * (m + 1)
    ensures FormatTimestamp(now, timestamp).HoursAgo? ==>
              var h := FormatTimestamp(now, timestamp).hours;
              MillisPerHour * h <= now - timestamp < MillisPerHour * (h + 1)
  {
    var d := now - timestamp;
    assert d / MillisPerMinute / 60 == d / MillisPerHour;
  }

  /** The text of a label; `localeDate` is the browser's rendering of the date. */
  function LabelText(age: TimeLabel, localeDate: string): (r: string)
    ensures age == JustNow ==> r == "Just now"
    ensures age.OnDate? ==> r == localeDate
    ensures age.MinutesAgo? ==> |r| > 5 && r[|r| - 5..] == "m ago"
    ensures age.HoursAgo? ==> |r| > 5 && r[|r| - 5..] == "h ago"
  {
    match age
    case JustNow => "Just now"
    case MinutesAgo(m) => NatToString(m) + "m ago"
    case HoursAgo(h) => NatToString(h) + "h ago"
    case OnDate(_) => localeDate
  }

  /** The number in "Nm ago" and "Nh ago" reads back as the minutes or hours of the label. */
  lemma LabelTextReadsBack(age: TimeLabel, localeDate: string)
    ensures age.MinutesAgo? ==> ParseLeadingInt(LabelText(age, localeDate)) == Some(age.minutes)
    ensures age.HoursAgo? ==> ParseLeadingInt(LabelText(age, localeDate)) == Some(age.hours)
  {
    match age
    case MinutesAgo(m) => ParseLeadingIntOf(m, "m ago");
    case HoursAgo(h) => ParseLeadingIntOf(h, "h ago");
    case _ =>
  }

  /** What the smart insight says about the heart rate. */
  datatype Insight = Stressed | WellRested | Healthy

  function InsightOf(heartRate: int): (r: Insight)
    ensures r == Stressed <==> heartRate > 80
    ensures r == WellRested <==> heartRate < 60
  {
    if heartRate > 80 then Stressed else if heartRate < 60 then WellRested else Healthy
  }

  /** The insight box: shown only with the watch connected and a reading present. */
  function ShownInsight(isConnected: bool, metrics: Option<SmartWatch.HealthMetrics>): (r: Option<Insight>)
    ensures r.Some? <==> isConnected && metrics.Some?
    ensures r.Some? ==> r.value == InsightOf(metrics.value.heartRate)
  {
    if isConnected && metrics.Some? then Some(InsightOf(metrics.value.heartRate)) else None
  }

  /** The insight appears exactly with a connected watch and a reading, and follows the 60 and 80 bpm thresholds. */
  lemma ShownInsightCases(isConnected: bool, metrics: Option<SmartWatch.HealthMetrics>)
    ensures ShownInsight(isConnected, metrics).Some? <==> isConnected && metrics.Some?
    ensures ShownInsight(isConnected, metrics) == Some(Stressed) <==> isConnected && metrics.Some? && metrics.value.heartRate > 80
    ensures ShownInsight(isConnected, metrics) == Some(WellRested) <==> isConnected && metrics.Some? && metrics.value.heartRate < 60
    ensures ShownInsight(isConnected, metrics) == Some(Healthy) <==> isConnected && metrics.Some? && 60 <= metrics.value.heartRate <= 80
  {
  }

  const StressMessage := "Your heart rate is elevated. Consider taking a mindfulness break."
  const ActivityMessage := "You've been sitting for 2 hours. Time for a gentle walk!"
  const MeditationMessage := "Great progress! You completed 15 minutes of meditation today."

  /** The three notifications of the first render, 5, 15 and 30 minutes old. */
  function InitialNotifications(now: int): seq<Notification> {
    [Notification("1", StressNotice, "High Stress Detected",
                  StressMessage,
                  now - 5 * 60 * 1000, High),
     Notification("2", ActivityNotice, "Move Reminder",
                  ActivityMessage,
                  now - 15 * 60 * 1000, Medium),
     Notification("3", MeditationNotice, "Daily Meditation",
                  MeditationMessage,
                  now - 30 * 60 * 1000, Low)]
  }

  /** Rendered at the moment they were made, the three read "5m ago", "15m ago" and "30m ago". */
  lemma InitialLabels(now: int)
    ensures FormatTimestamp(now, InitialNotifications(now)[0].timestamp) == MinutesAgo(5)
    ensures FormatTimestamp(now, InitialNotifications(now)[1].timestamp) == MinutesAgo(15)
    ensures FormatTimestamp(now, InitialNotifications(now)[2].timestamp) == MinutesAgo(30)
  {
  }

  /** The panel's list and the toasts its buttons have raised. */
  class NotificationsPanel {
    var notifications: seq<Notification>
    var toasts: seq<(string, string)>

    constructor (now: int)
      ensures notifications == InitialNotifications(now) && toasts == []
    {
      notifications := InitialNotifications(now);
      toasts := [];
    }

    /** The badge next to the title. */
    function BadgeCount(): nat
      reads this
    {
      |notifications|
    }

    /** The close button of a notification. */
    method DismissNotification(id: string)
      modifies this
      ensures notifications == Dismiss(old(notifications), id) && toasts == old(toasts)
    {
      notifications := Filter(HasOtherId(id), notifications);
    }

    /** `handleMeditationSuggestion`, the button of a stress notification. */
    method HandleMeditationSuggestion()
      modifies this
      ensures notifications == old(notifications)
      ensures toasts == old(toasts) + [("Starting Meditation", "Redirecting to guided meditation session")]
    {
      toasts := toasts + [("Starting Meditation", "Redirecting to guided meditation session")];
    }

    /** `handleActivityReminder`, the button of an activity notification. */
    method HandleActivityReminder()
      modifies this
      ensures notifications == old(notifications)
      ensures toasts == old(toasts) + [("Activity Reminder Set", "We'll remind you to move every hour")]
    {
      toasts := toasts + [("Activity Reminder Set", "We'll remind you to move every hour")];
    }
  }

  /** Closing one of the three first notifications leaves a badge of 2, and closing it again changes nothing. */
  method DismissFirst(now: int) {
    var panel := new NotificationsPanel(now);
    panel.DismissNotification("1");
    var s := InitialNotifications(now);
    DismissRemovesExactly(s, "1");
    assert Filter(HasId("1"), s) == [s[0]] by {
      FilterNone(HasId("1"), s[1..]);
      assert s == [s[0]] + s[1..];
    }
    assert panel.BadgeCount() == 2;
    panel.DismissNotification("1");
    DismissIdempotent(s, "1");
    assert panel.BadgeCount() == 2;
  }
}
