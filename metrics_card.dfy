/**
 * The health-metrics card: the connection badge, the heart-rate status dot,
 * and either the latest reading or a hint about what to do next.
 */
module HealthMetricsCard {
  import opened Wrappers
  import SmartWatch

  datatype HeartRateStatus = Low | Normal | High

  /** `getHeartRateStatus(...).status`. */
  function StatusOf(heartRate: int): (r: HeartRateStatus)
    ensures r == Normal <==> 60 <= heartRate <= 100
  {
    if heartRate < 60 then Low else if heartRate > 100 then High else Normal
  }

  /** `getHeartRateStatus(...).color`. */
  function ColorOf(heartRate: int): (r: string)
    ensures r in {"bg-blue-500", "bg-red-500", "bg-green-500"}
    ensures 60 <= heartRate <= 100 ==> r == "bg-green-500"
  {
    if heartRate < 60 then "bg-blue-500" else if heartRate > 100 then "bg-red-500" else "bg-green-500"
  }

  /** Below 60 is low, above 100 is high, and 60 to 100 inclusive is normal; every rate gets exactly one. */
  lemma StatusBands(heartRate: int)
    ensures StatusOf(heartRate) == Low <==> heartRate < 60
    ensures StatusOf(heartRate) == High <==> heartRate > 100
    ensures StatusOf(heartRate) == Normal <==> 60 <= heartRate <= 100
  {
  }

  /** The dot's colour is determined by the status: blue for low, red for high, green for normal. */
  lemma ColorFollowsStatus(a: int, b: int)
    ensures ColorOf(a) == ColorOf(b) <==> StatusOf(a) == StatusOf(b)
    ensures StatusOf(a) == Low ==> ColorOf(a) == "bg-blue-500"
    ensures StatusOf(a) == High ==> ColorOf(a) == "bg-red-500"
    ensures StatusOf(a) == Normal ==> ColorOf(a) == "bg-green-500"
  {
    assert "bg-blue-500"[3] != "bg-red-500"[3] && "bg-blue-500"[3] != "bg-green-500"[3] &&
           "bg-red-500"[3] != "bg-green-500"[3];
  }

  /** What the card's body shows. */
  datatype CardBody =
    | Readings(heartRate: int, status: HeartRateStatus, steps: int, calories: int, timestamp: int)
    | Hint(text: string)

  const StartMonitoringHint := "Start monitoring to see health metrics"
  const ConnectWatchHint := "Connect your smart watch to view health data"

  /** The body: the reading when there is one, otherwise a hint that depends on the connection. */
  function Body(isConnected: bool, metrics: Option<SmartWatch.HealthMetrics>): (r: CardBody)
    ensures r.Readings? <==> metrics.Some?
    ensures r.Readings? ==> r.heartRate == metrics.value.heartRate && r.status == StatusOf(r.heartRate)
  {
    match metrics
    case Some(m) => Readings(m.heartRate, StatusOf(m.heartRate), m.steps, m.calories, m.timestamp)
    case None => Hint(if isConnected then StartMonitoringHint else ConnectWatchHint)
  }

  /**
   * The rows appear exactly when a reading is present and then show that
   * reading whatever the connection; without one the hint depends only on
   * the connection.
   */
  lemma BodyCases(isConnected: bool, metrics: Option<SmartWatch.HealthMetrics>)
    ensures Body(isConnected, metrics).Readings? <==> metrics.Some?
    ensures metrics.Some? ==> Body(isConnected, metrics) == Body(!isConnected, metrics)
    ensures metrics.Some? ==> Body(isConnected, metrics).heartRate == metrics.value.heartRate
    ensures metrics.None? ==> (Body(isConnected, metrics) == Hint(StartMonitoringHint) <==> isConnected)
  {
    assert |StartMonitoringHint| != |ConnectWatchHint|;
  }

  /** The badge in the title. */
  function Badge(isConnected: bool): (r: string)
    ensures r == "Connected" <==> isConnected
  {
    if isConnected then "Connected" else "Disconnected"
  }

  /** After a readable notification the card shows the byte the watch sent, with its status and the time it arrived. */
  lemma CardAfterNotification(s: SmartWatch.WatchState, frame: seq<SmartWatch.Byte>, now: int)
    requires |frame| >= 2
    ensures var body := Body(s.isConnected, SmartWatch.Notify(s, Some(frame), now).healthMetrics);
            body.Readings? && body.heartRate == frame[1] && body.status == StatusOf(frame[1]) && body.timestamp == now
  {
  }
}
