/**
 * The smart-watch connection (SmartWatchProvider): whether a watch is
 * connected, which device, whether a connection attempt is under way, the
 * heart-rate characteristic being listened to, and the last health snapshot.
 *
 * The Web Bluetooth calls are not modelled; each handler receives the outcome
 * its awaited calls produced (`ConnectOutcome`, `MonitorOutcome`, a success
 * flag) and the clock reading it stamps snapshots with.
 */
module SmartWatch {
  import opened Wrappers

  type Byte = b: int | 0 <= b < 256

  datatype Device = Device(id: nat, name: string)

  /** A heart-rate measurement characteristic obtained from a device's GATT server. */
  datatype Characteristic = Characteristic(handle: nat)

  /** `HealthMetrics`; `timestamp` is the clock reading in milliseconds. */
  datatype HealthMetrics = HealthMetrics(heartRate: int, steps: int, calories: int, timestamp: int)

  /**
   * How the awaited calls of `connect` ended: the device picker was dismissed
   * or failed, the GATT connection was rejected, it resolved without a
   * server, or it gave a server.
   */
  datatype ConnectOutcome =
    | PickerRejected
    | GattRejected(picked: Device)
    | NoServer(picked: Device)
    | Connected(picked: Device)

  /**
   * How the awaited calls of `startHeartRateMonitoring` ended: the service or
   * characteristic lookup failed, the characteristic was obtained but
   * `startNotifications` failed, or notifications started.
   */
  datatype MonitorOutcome =
    | LookupFailed
    | NotificationsRefused(c: Characteristic)
    | Notifying(c: Characteristic)

  /**
   * A snapshot of the provider's state. `gattConnected` is the held device's
   * `gatt.connected` flag, which the handlers read but which is not React state.
   */
  datatype WatchState = WatchState(
    isConnected: bool,
    device: Option<Device>,
    isConnecting: bool,
    characteristic: Option<Characteristic>,
    healthMetrics: Option<HealthMetrics>,
    gattConnected: bool)

  const Initial := WatchState(false, None, false, None, None, false)

  /**
   * What every reachable state satisfies: `isConnected` tracks whether a
   * device is held, the held device's link is up exactly while it is held,
   * and a characteristic is only held together with a device.
   */
  predicate Consistent(s: WatchState) {
    (s.isConnected <==> s.device.Some?) &&
    (s.gattConnected <==> s.device.Some?) &&
    (s.characteristic.Some? ==> s.device.Some?)
  }

  /** The synchronous start of `connect`: nothing at all without Web Bluetooth, else `isConnecting` is raised. */
  function ConnectStarted(s: WatchState, supported: bool): (r: WatchState)
    ensures r.(isConnecting := s.isConnecting) == s
    ensures r.isConnecting <==> supported || s.isConnecting
    ensures Consistent(s) ==> Consistent(r)
  {
    if !supported then s else s.(isConnecting := true)
  }

  /** The end of `connect` (the `finally` included): only a server makes the picked device current. */
  function ConnectSettled(s: WatchState, outcome: ConnectOutcome): (r: WatchState)
    ensures !r.isConnecting
    ensures outcome.Connected? ==> r.isConnected && r.gattConnected && r.device == Some(outcome.picked)
    ensures !outcome.Connected? ==> r.(isConnecting := s.isConnecting) == s
    ensures r.characteristic == s.characteristic && r.healthMetrics == s.healthMetrics
    ensures Consistent(s) ==> Consistent(r)
  {
    match outcome
    case Connected(d) => s.(device := Some(d), isConnected := true, gattConnected := true, isConnecting := false)
    case _ => s.(isConnecting := false)
  }

  /** `disconnect`: the link is dropped and the connection state, characteristic and snapshot are cleared. */
  function Disconnected(s: WatchState): (r: WatchState)
    ensures Consistent(r) && !r.isConnected && !r.gattConnected
    ensures r.device.None? && r.characteristic.None? && r.healthMetrics.None?
    ensures r.isConnecting == s.isConnecting
  {
    s.(isConnected := false, device := None, characteristic := None, healthMetrics := None,
       gattConnected := false)
  }

  /**
   * The `gattserverdisconnected` listener. It is registered on every picked
   * device and clears the state whichever device fires it; the snapshot is kept.
   */
  function LinkLost(s: WatchState): (r: WatchState)
    ensures Consistent(r) && !r.isConnected && !r.gattConnected
    ensures r.device.None? && r.characteristic.None?
    ensures r.healthMetrics == s.healthMetrics && r.isConnecting == s.isConnecting
  {
    s.(isConnected := false, device := None, characteristic := None, gattConnected := false)
  }

  /** `startHeartRateMonitoring`: nothing unless the held device is connected; a found characteristic is kept. */
  function StartMonitoring(s: WatchState, outcome: MonitorOutcome): (r: WatchState)
    ensures r.(characteristic := s.characteristic) == s
    ensures r.characteristic != s.characteristic ==> s.device.Some? && s.gattConnected && !outcome.LookupFailed?
    ensures s.device.Some? && s.gattConnected && !outcome.LookupFailed? ==> r.characteristic == Some(outcome.c)
    ensures Consistent(s) ==> Consistent(r)
  {
    if !(s.device.Some? && s.gattConnected) then s
    else match outcome
      case LookupFailed => s
      case NotificationsRefused(c) => s.(characteristic := Some(c))
      case Notifying(c) => s.(characteristic := Some(c))
  }

  /** The heart rate a notification carries, as decoded: the unsigned byte at offset 1. */
  function DecodeHeartRate(frame: seq<Byte>): (r: Option<int>)
    ensures r.Some? <==> |frame| >= 2
    ensures r.Some? ==> 0 <= r.value < 256 && r.value == frame[1]
  {
    if |frame| < 2 then None else Some(frame[1])
  }

  /**
   * The `characteristicvaluechanged` listener. A missing value, or one too
   * short for `getUint8(1)` (which throws), changes nothing; otherwise the
   * snapshot gets the decoded rate, the previous steps and calories (0 with
   * no previous snapshot) and the current time.
   */
  function Notify(s: WatchState, value: Option<seq<Byte>>, now: int): (r: WatchState)
    ensures r.(healthMetrics := s.healthMetrics) == s
    ensures value.None? || |value.value| < 2 ==> r == s
    ensures value.Some? && |value.value| >= 2 ==>
      r.healthMetrics.Some? && r.healthMetrics.value.heartRate == value.value[1] &&
      r.healthMetrics.value.timestamp == now
    ensures Consistent(s) ==> Consistent(r)
  {
    if value.None? then s
    else match DecodeHeartRate(value.value)
      case None => s
      case Some(hr) =>
        var steps := if s.healthMetrics.Some? then s.healthMetrics.value.steps else 0;
        var calories := if s.healthMetrics.Some? then s.healthMetrics.value.calories else 0;
        s.(healthMetrics := Some(HealthMetrics(hr, steps, calories, now)))
  }

  /** `stopHeartRateMonitoring`: with a characteristic held, a successful stop releases it. */
  function StopMonitoring(s: WatchState, ok: bool): (r: WatchState)
    ensures r.(characteristic := s.characteristic) == s
    ensures r.characteristic.None? <==> s.characteristic.None? || ok
    ensures Consistent(s) ==> Consistent(r)
  {
    if s.characteristic.Some? && ok then s.(characteristic := None) else s
  }

  /** The initial state is consistent. */
  lemma InitialConsistent()
    ensures Consistent(Initial) && !Initial.isConnected && !Initial.isConnecting
  {
  }

  /** Every event keeps the state consistent. */
  lemma StepsPreserveConsistent(s: WatchState, supported: bool, c: ConnectOutcome, m: MonitorOutcome,
                                value: Option<seq<Byte>>, now: int, ok: bool)
    requires Consistent(s)
    ensures Consistent(ConnectStarted(s, supported))
    ensures Consistent(ConnectSettled(s, c))
    ensures Consistent(Disconnected(s))
    ensures Consistent(LinkLost(s))
    ensures Consistent(StartMonitoring(s, m))
    ensures Consistent(Notify(s, value, now))
    ensures Consistent(StopMonitoring(s, ok))
  {
  }

  /** Without Web Bluetooth, `connect` changes no field, not even `isConnecting`. */
  lemma UnsupportedConnectChangesNothing(s: WatchState, outcome: ConnectOutcome)
    ensures ConnectStarted(s, false) == s
  {
  }

  /**
   * A supported `connect` raises `isConnecting` and the end lowers it whatever
   * the outcome; the held device and `isConnected` change only when a server
   * was obtained, and then name the picked device.
   */
  lemma ConnectOutcomes(s: WatchState, outcome: ConnectOutcome)
    ensures ConnectStarted(s, true).isConnecting
    ensures !ConnectSettled(ConnectStarted(s, true), outcome).isConnecting
    ensures outcome.Connected? ==>
              var t := ConnectSettled(s, outcome);
              t.isConnected && t.device == Some(outcome.picked)
    ensures !outcome.Connected? ==>
              var t := ConnectSettled(s, outcome);
              t.isConnected == s.isConnected && t.device == s.device &&
              t.characteristic == s.characteristic && t.healthMetrics == s.healthMetrics
  {
  }

  /** `disconnect` leaves nothing connected, and a second call changes nothing more. */
  lemma DisconnectIdempotent(s: WatchState)
    ensures var t := Disconnected(s);
            !t.isConnected && t.device.None? && t.characteristic.None? && t.healthMetrics.None?
    ensures Disconnected(Disconnected(s)) == Disconnected(s)
    ensures Disconnected(s).isConnecting == s.isConnecting
  {
  }

  /**
   * An unsolicited link loss clears the connection like `disconnect` does,
   * except that the last health snapshot is still shown.
   */
  lemma LinkLostKeepsMetrics(s: WatchState)
    ensures var t := LinkLost(s);
            !t.isConnected && t.device.None? && t.characteristic.None? &&
            t.healthMetrics == s.healthMetrics
    ensures LinkLost(s) == Disconnected(s).(healthMetrics := s.healthMetrics)
  {
  }

  /** Monitoring cannot start without a connected device, and a failed lookup changes nothing. */
  lemma StartMonitoringGuard(s: WatchState, outcome: MonitorOutcome)
    ensures !(s.device.Some? && s.gattConnected) ==> StartMonitoring(s, outcome) == s
    ensures outcome.LookupFailed? ==> StartMonitoring(s, outcome) == s
    ensures s.device.Some? && s.gattConnected && !outcome.LookupFailed? ==>
              StartMonitoring(s, outcome) == s.(characteristic := Some(outcome.c))
  {
  }

  /** Under the invariant the guard is simply "a device is held". */
  lemma StartMonitoringNeedsDevice(s: WatchState, outcome: MonitorOutcome)
    requires Consistent(s)
    ensures StartMonitoring(s, outcome) != s ==> s.isConnected
  {
  }

  /**
   * A readable notification sets the heart rate to byte 1, within [0, 255],
   * carries steps and calories over (0 when there was no snapshot), stamps
   * the current time, and touches nothing else.
   */
  lemma NotifyUpdatesSnapshot(s: WatchState, frame: seq<Byte>, now: int)
    requires |frame| >= 2
    ensures var t := Notify(s, Some(frame), now);
            t.healthMetrics.Some? &&
            t.healthMetrics.value.heartRate == frame[1] &&
            0 <= t.healthMetrics.value.heartRate <= 255 &&
            t.healthMetrics.value.timestamp == now &&
            t.healthMetrics.value.steps == (if s.healthMetrics.Some? then s.healthMetrics.value.steps else 0) &&
            t.healthMetrics.value.calories == (if s.healthMetrics.Some? then s.healthMetrics.value.calories else 0) &&
            t.(healthMetrics := s.healthMetrics) == s
  {
  }

  /** A missing or too-short value is dropped. */
  lemma NotifyIgnoresUnreadable(s: WatchState, value: Option<seq<Byte>>, now: int)
    requires value.None? || |value.value| < 2
    ensures Notify(s, value, now) == s
  {
  }

  /**
   * The flags byte is not consulted: frames that differ only in byte 0 give
   * the same snapshot. So for a measurement sent in the 16-bit format (flags
   * bit 0 set, value little-endian in bytes 1 and 2) the reported rate is
   * the value modulo 256.
   */
  lemma NotifyIgnoresFlags(s: WatchState, flags1: Byte, flags2: Byte, rest: seq<Byte>, now: int)
    requires |rest| >= 1
    ensures Notify(s, Some([flags1] + rest), now) == Notify(s, Some([flags2] + rest), now)
    ensures var v := rest[0] as int + 256 * (if |rest| >= 2 then rest[1] as int else 0);
            Notify(s, Some([flags1] + rest), now).healthMetrics.value.heartRate == v % 256
  {
    var v := rest[0] as int + 256 * (if |rest| >= 2 then rest[1] as int else 0);
    assert v % 256 == rest[0];
  }

  /** Stopping releases the characteristic only on success; without one it does nothing. */
  lemma StopMonitoringOutcomes(s: WatchState, ok: bool)
    ensures s.characteristic.None? ==> StopMonitoring(s, ok) == s
    ensures s.characteristic.Some? && ok ==> StopMonitoring(s, ok).characteristic.None?
    ensures !ok ==> StopMonitoring(s, ok) == s
    ensures StopMonitoring(s, ok).(characteristic := s.characteristic) == s
  {
  }

  /** The cleanup (stop, then disconnect) always ends fully disconnected. */
  lemma UnmountClears(s: WatchState, ok: bool)
    ensures var t := Disconnected(StopMonitoring(s, ok));
            t == Disconnected(s) && !t.isConnected && t.characteristic.None? && t.healthMetrics.None?
  {
  }

  /**
   * A render after a step from the previous render's state `prev` to `s`.
   * The cleanup effect depends on `stopHeartRateMonitoring` and `disconnect`,
   * which are re-created when the characteristic or the device changes. As
   * wired (`cleanupOnChange`), a render in which either changed runs the
   * previous render's cleanup, whose `disconnect` clears the state; its
   * `stopHeartRateMonitoring` only releases a characteristic that the
   * clearing releases as well. Without `cleanupOnChange` the cleanup runs
   * only when the provider unmounts, and a render changes nothing.
   */
  function Render(prev: WatchState, s: WatchState, cleanupOnChange: bool): (r: WatchState)
    ensures !cleanupOnChange ==> r == s
    ensures Consistent(s) ==> Consistent(r)
    ensures prev.device == s.device && prev.characteristic == s.characteristic ==> r == s
    ensures cleanupOnChange && (prev.device != s.device || prev.characteristic != s.characteristic) ==>
              r == Disconnected(s) && !r.isConnected && r.device.None? && r.characteristic.None?
  {
    if cleanupOnChange && (prev.device != s.device || prev.characteristic != s.characteristic)
    then Disconnected(s) else s
  }

  /** Whether the cleanup captured by a render with state `s` drops a link: its `disconnect` sees that render's device. */
  predicate CleanupDropsLink(s: WatchState) {
    s.device.Some? && s.gattConnected
  }

  /**
   * As wired, a first successful connect does not last: the render that
   * shows the new device runs the old cleanup, which clears the state; the
   * next render runs the cleanup holding the new device, which drops its
   * link; after that the state stays cleared.
   */
  lemma ConnectUndoneByRender(s: WatchState, outcome: ConnectOutcome)
    requires Consistent(s) && !s.isConnected && outcome.Connected?
    ensures var before := ConnectStarted(s, true);
            var after := ConnectSettled(before, outcome);
            var first := Render(before, after, true);
            var second := Render(after, first, true);
            after.isConnected && after.device == Some(outcome.picked) &&
            !first.isConnected && first.device.None? && !CleanupDropsLink(before) &&
            second == first && CleanupDropsLink(after) &&
            Render(first, second, true) == second
  {
  }

  /**
   * As wired, starting monitoring disconnects as well: the new
   * characteristic re-creates `stopHeartRateMonitoring`, and the cleanup of
   * the render before, which holds the connected device, clears the state
   * and drops the link.
   */
  lemma MonitoringUndoneByRender(s: WatchState, c: Characteristic)
    requires Consistent(s) && s.isConnected && s.characteristic != Some(c)
    ensures var t := StartMonitoring(s, Notifying(c));
            t.characteristic == Some(c) &&
            Render(s, t, true) == Disconnected(t) && !Render(s, t, true).isConnected &&
            CleanupDropsLink(s)
  {
  }

  /**
   * With the cleanup confined to unmounting, a successful connect survives
   * the renders after it, and so does the monitoring started on it; only
   * `disconnect`, a link loss or the unmount ends them.
   */
  lemma ConnectStaysConnected(s: WatchState, outcome: ConnectOutcome, c: Characteristic)
    requires Consistent(s) && outcome.Connected?
    ensures var before := ConnectStarted(s, true);
            var shown := Render(before, ConnectSettled(before, outcome), false);
            shown.isConnected && shown.device == Some(outcome.picked) && Consistent(shown) &&
            var m := StartMonitoring(shown, Notifying(c));
            Render(shown, m, false) == m && m.isConnected && m.characteristic == Some(c)
  {
  }

  /** The provider's state, updated in place by its handlers. */
  class SmartWatchProvider {
    var isConnected: bool
    var device: Option<Device>
    var isConnecting: bool
    var heartRateCharacteristic: Option<Characteristic>
    var healthMetrics: Option<HealthMetrics>
    var gattConnected: bool

    function State(): WatchState
      reads this
    {
      WatchState(isConnected, device, isConnecting, heartRateCharacteristic, healthMetrics, gattConnected)
    }

    predicate Valid()
      reads this
    {
      Consistent(State())
    }

    constructor ()
      ensures Valid() && State() == Initial
    {
      isConnected := false;
      device := None;
      isConnecting := false;
      heartRateCharacteristic := None;
      healthMetrics := None;
      gattConnected := false;
    }

    /** The part of `connect` before the first `await`; `requested` says whether the picker is opened. */
    method BeginConnect(supported: bool) returns (requested: bool)
      requires Valid()
      modifies this
      ensures Valid() && requested == supported
      ensures State() == ConnectStarted(old(State()), supported)
    {
      if !supported {
        return false;
      }
      isConnecting := true;
      requested := true;
    }

    /** The part of `connect` after its awaited calls settled, `finally` included. */
    method FinishConnect(outcome: ConnectOutcome)
      requires Valid()
      modifies this
      ensures Valid() && State() == ConnectSettled(old(State()), outcome)
    {
      match outcome {
        case Connected(d) =>
          device := Some(d);
          isConnected := true;
          gattConnected := true;
        case _ =>
      }
      isConnecting := false;
    }

    /** `connect` when nothing else happens while it awaits. */
    method Connect(supported: bool, outcome: ConnectOutcome)
      requires Valid()
      modifies this
      ensures Valid()
      ensures State() == if supported then ConnectSettled(ConnectStarted(old(State()), true), outcome)
                         else old(State())
    {
      var requested := BeginConnect(supported);
      if requested {
        FinishConnect(outcome);
      }
    }

    /** `disconnect`; `droppedLink` says whether `gatt.disconnect()` was called on the held device. */
    method Disconnect() returns (droppedLink: bool)
      requires Valid()
      modifies this
      ensures Valid() && State() == Disconnected(old(State()))
      ensures droppedLink == (old(device).Some? && old(gattConnected))
    {
      droppedLink := device.Some? && gattConnected;
      gattConnected := false;
      isConnected := false;
      device := None;
      heartRateCharacteristic := None;
      healthMetrics := None;
    }

    /** The `gattserverdisconnected` listener. */
    method HandleLinkLost()
      requires Valid()
      modifies this
      ensures Valid() && State() == LinkLost(old(State()))
    {
      gattConnected := false;
      isConnected := false;
      device := None;
      heartRateCharacteristic := None;
    }

    /** `startHeartRateMonitoring`; `listening` says whether the notification listener was registered. */
    method StartHeartRateMonitoring(outcome: MonitorOutcome) returns (listening: bool)
      requires Valid()
      modifies this
      ensures Valid() && State() == StartMonitoring(old(State()), outcome)
      ensures listening <==> old(device).Some? && old(gattConnected) && outcome.Notifying?
    {
      listening := false;
      if !(device.Some? && gattConnected) {
        return;
      }
      match outcome {
        case LookupFailed =>
        case NotificationsRefused(c) =>
          heartRateCharacteristic := Some(c);
        case Notifying(c) =>
          heartRateCharacteristic := Some(c);
          listening := true;
      }
    }

    /** The `characteristicvaluechanged` listener, given the event's value and the clock. */
    method HandleNotification(value: Option<seq<Byte>>, now: int)
      requires Valid()
      modifies this
      ensures Valid() && State() == Notify(old(State()), value, now)
    {
      if value.Some? && |value.value| >= 2 {
        var heartRate := value.value[1];
        var steps := if healthMetrics.Some? then healthMetrics.value.steps else 0;
        var calories := if healthMetrics.Some? then healthMetrics.value.calories else 0;
        healthMetrics := Some(HealthMetrics(heartRate, steps, calories, now));
      }
    }

    /** `stopHeartRateMonitoring`, given whether `stopNotifications` succeeded. */
    method StopHeartRateMonitoring(ok: bool)
      requires Valid()
      modifies this
      ensures Valid() && State() == StopMonitoring(old(State()), ok)
    {
      if heartRateCharacteristic.Some? && ok {
        heartRateCharacteristic := None;
      }
    }
  }

  /**
   * A watch that connects, streams one reading and then drops its link stays
   * showing that reading, and monitoring cannot be restarted until it reconnects.
   */
  method LinkLossKeepsLastReading(d: Device, c: Characteristic, frame: seq<Byte>, now: int)
    requires |frame| >= 2
  {
    var w := new SmartWatchProvider();
    w.Connect(true, Connected(d));
    var listening := w.StartHeartRateMonitoring(Notifying(c));
    assert listening && w.isConnected;
    w.HandleNotification(Some(frame), now);
    w.HandleLinkLost();
    assert !w.isConnected && w.healthMetrics == Some(HealthMetrics(frame[1], 0, 0, now));
    listening := w.StartHeartRateMonitoring(Notifying(c));
    assert !listening && w.heartRateCharacteristic.None?;
  }
}
