/**
 * The meditation timer with biometric tracking (MeditationWithBiometrics):
 * a countdown, a heart-rate history recorded while the session is active,
 * and the summary (average, minimum, maximum, successive-difference
 * variability, stress level) handed to `onComplete` when the timer runs out.
 */
module Meditation {
  import opened Wrappers
  import opened Seqs
  import opened Numbers
  import opened Text

  datatype StressLevel = Low | Medium | High

  /** Orders the stress levels: Low < Medium < High. */
  function StressRank(s: StressLevel): nat {
    match s
    case Low => 0
    case Medium => 1
    case High => 2
  }

  /**
   * `getStressLevel`: 'low' for a calm and variable heart, 'high' for a fast
   * or rigid one, 'medium' otherwise. The 'low' test comes first, but the two
   * tests never both hold, so either order gives the same answer.
   */
  function StressLevelOf(avgHeartRate: int, hrv: int): (r: StressLevel)
    ensures avgHeartRate > 90 ==> r == High
    ensures hrv < 5 ==> r == High
    ensures r == Low ==> avgHeartRate < 70 && hrv > 10
  {
    if avgHeartRate < 70 && hrv > 10 then Low
    else if avgHeartRate > 90 || hrv < 5 then High
    else Medium
  }

  /** The three rules, each as an if-and-only-if. */
  lemma StressLevelCases(avgHeartRate: int, hrv: int)
    ensures StressLevelOf(avgHeartRate, hrv) == Low <==> avgHeartRate < 70 && hrv > 10
    ensures StressLevelOf(avgHeartRate, hrv) == High <==> avgHeartRate > 90 || hrv < 5
    ensures StressLevelOf(avgHeartRate, hrv) == Medium <==>
              (70 <= avgHeartRate <= 90 && 5 <= hrv) || (avgHeartRate < 70 && 5 <= hrv <= 10)
  {
  }

  /** A faster average or a smaller variability never lowers the stress level. */
  lemma StressLevelMonotone(avg1: int, hrv1: int, avg2: int, hrv2: int)
    requires avg1 <= avg2 && hrv2 <= hrv1
    ensures StressRank(StressLevelOf(avg1, hrv1)) <= StressRank(StressLevelOf(avg2, hrv2))
  {
  }

  function Abs(x: int): (r: nat)
    ensures r == x || r == -x
  {
    if x < 0 then -x else x
  }

  /** The `differences` array of `calculateHRV`: |h[i] - h[i-1]| for each consecutive pair. */
  function SuccessiveDifferences(h: seq<int>): (d: seq<int>)
    ensures |d| == if |h| < 2 then 0 else |h| - 1
    ensures forall i :: 0 <= i < |d| ==> d[i] == Abs(h[i + 1] - h[i])
  {
    seq(if |h| < 2 then 0 else |h| - 1, i requires 0 <= i < |h| - 1 => Abs(h[i + 1] - h[i]))
  }

  /** `calculateHRV`: the rounded mean successive difference, 0 below two samples. */
  function Hrv(h: seq<int>): (r: int)
    ensures |h| < 2 ==> r == 0
    ensures r >= 0
  {
    if |h| < 2 then 0
    else
      var d, spread := SuccessiveDifferences(h), Max(h) - Min(h);
      assert 0 <= RoundDiv(Sum(d), |d|) by {
        DifferencesWithinSpread(h);
        SumBounds(d, 0, spread);
        RoundDivBetween(Sum(d), |d|, 0, spread);
      }
      RoundDiv(Sum(d), |d|)
  }

  /**
   * The variability is never negative and never exceeds the spread of the
   * samples: no successive difference is larger than max - min.
   */
  lemma HrvBounds(h: seq<int>)
    requires |h| > 0
    ensures 0 <= Hrv(h) <= Max(h) - Min(h)
  {
    if |h| >= 2 {
      var d, spread := SuccessiveDifferences(h), Max(h) - Min(h);
      assert 0 <= Sum(d) <= |d| * spread by {
        DifferencesWithinSpread(h);
        SumBounds(d, 0, spread);
      }
      RoundDivBetween(Sum(d), |d|, 0, spread);
    }
  }

  lemma DifferencesWithinSpread(h: seq<int>)
    requires |h| > 0
    ensures forall i :: 0 <= i < |SuccessiveDifferences(h)| ==>
              0 <= SuccessiveDifferences(h)[i] <= Max(h) - Min(h)
  {
    var lo, hi := Min(h), Max(h);
    forall i | 0 <= i < |SuccessiveDifferences(h)|
      ensures 0 <= SuccessiveDifferences(h)[i] <= hi - lo
    {
      assert lo <= h[i + 1] <= hi && lo <= h[i] <= hi;
    }
  }

  /** A constant heart rate has no variability. */
  lemma HrvConstant(h: seq<int>)
    requires forall i :: 0 <= i < |h| ==> h[i] == h[0]
    ensures Hrv(h) == 0
  {
    if |h| >= 2 {
      var d := SuccessiveDifferences(h);
      assert forall i :: 0 <= i < |d| ==> d[i] == 0;
      SumBounds(d, 0, 0);
      assert Sum(d) == 0;
      RoundDivBetween(0, |h| - 1, 0, 0);
    }
  }

  /** `calculateHRV` as the source writes it: a loop that pushes each difference, then the mean. */
  method CalculateHrv(heartRates: seq<int>) returns (hrv: int)
    ensures hrv == Hrv(heartRates)
    ensures |heartRates| < 2 ==> hrv == 0
  {
    if |heartRates| < 2 {
      return 0;
    }
    var differences: seq<int> := [];
    var i := 1;
    while i < |heartRates|
      invariant 1 <= i <= |heartRates|
      invariant |differences| == i - 1
      invariant forall k :: 0 <= k < i - 1 ==> differences[k] == Abs(heartRates[k + 1] - heartRates[k])
    {
      differences := differences + [Abs(heartRates[i] - heartRates[i - 1])];
      i := i + 1;
    }
    assert differences == SuccessiveDifferences(heartRates);
    hrv := RoundDiv(Sum(differences), |differences|);
  }

  /** `Math.round(sum / length)` of the history. */
  function AverageHeartRate(h: seq<int>): (avg: int)
    requires |h| > 0
    ensures Min(h) <= avg <= Max(h)
  {
    SumBounds(h, Min(h), Max(h));
    RoundDivBetween(Sum(h), |h|, Min(h), Max(h));
    RoundDiv(Sum(h), |h|)
  }

  /** The `MeditationSessionData` passed to `onComplete`; `timestamp` is the clock reading at completion. */
  datatype SessionSummary = SessionSummary(
    duration: nat,
    avgHeartRate: int,
    minHeartRate: int,
    maxHeartRate: int,
    heartRateVariability: int,
    stressLevel: StressLevel,
    timestamp: int)

  /**
   * The summary `handleSessionComplete` builds: none for an empty history;
   * otherwise min <= avg <= max with min and max taken from the history, and a
   * variability within [0, max - min].
   */
  function Summarize(duration: nat, history: seq<int>, now: int): (r: Option<SessionSummary>)
    ensures r.Some? <==> |history| > 0
    ensures r.Some? ==> r.value.minHeartRate <= r.value.avgHeartRate <= r.value.maxHeartRate
    ensures r.Some? ==> r.value.minHeartRate in history && r.value.maxHeartRate in history
    ensures r.Some? ==> forall i :: 0 <= i < |history| ==>
              r.value.minHeartRate <= history[i] <= r.value.maxHeartRate
    ensures r.Some? ==> 0 <= r.value.heartRateVariability <= r.value.maxHeartRate - r.value.minHeartRate
    ensures r.Some? ==> r.value.stressLevel == StressLevelOf(r.value.avgHeartRate, r.value.heartRateVariability)
    ensures r.Some? ==> r.value.duration == duration && r.value.timestamp == now
  {
    if |history| == 0 then None
    else
      HrvBounds(history);
      var avg := AverageHeartRate(history);
      var hrv := Hrv(history);
      Some(SessionSummary(duration, avg, Min(history), Max(history), hrv, StressLevelOf(avg, hrv), now))
  }

  /** The readings of the worked example below: 70, 72, 68, 90, 65. */
  const ExampleReadings: seq<int> := [70, 72, 68, 90, 65]

  lemma ExampleSum()
    ensures Sum(ExampleReadings) == 365
  {
    var h := ExampleReadings;
    assert h[..0] == [] && h[..5] == h;
    SumPrefixStep(h, 0); SumPrefixStep(h, 1); SumPrefixStep(h, 2);
    SumPrefixStep(h, 3); SumPrefixStep(h, 4);
  }

  lemma ExampleMinMax()
    ensures Min(ExampleReadings) == 65 && Max(ExampleReadings) == 90
  {
    var h := ExampleReadings;
    var lo, hi := Min(h), Max(h);
    assert lo <= h[4] && h[3] <= hi;
    assert forall x :: x in h ==> 65 <= x <= 90;
  }

  lemma ExampleDifferences()
    ensures var d := SuccessiveDifferences(ExampleReadings);
            |d| == 4 && d[0] == 2 && d[1] == 4 && d[2] == 22 && d[3] == 25
  {
    var h := ExampleReadings;
    assert h[1] - h[0] == 2 && h[2] - h[1] == -4 && h[3] - h[2] == 22 && h[4] - h[3] == -25;
  }

  lemma SumOfFour(d: seq<int>)
    requires |d| == 4
    ensures Sum(d) == d[0] + d[1] + d[2] + d[3]
  {
    assert d[..0] == [] && d[..4] == d;
    SumPrefixStep(d, 0); SumPrefixStep(d, 1); SumPrefixStep(d, 2); SumPrefixStep(d, 3);
  }

  lemma ExampleDifferenceSum()
    ensures Sum(SuccessiveDifferences(ExampleReadings)) == 53
  {
    ExampleDifferences();
    SumOfFour(SuccessiveDifferences(ExampleReadings));
  }

  lemma ExampleHrv()
    ensures Hrv(ExampleReadings) == 13
  {
    ExampleDifferenceSum();
    assert RoundDiv(53, 4) == 13;
  }

  /**
   * A worked session: readings 70, 72, 68, 90, 65 average to 73, range over
   * [65, 90], vary by 13 on average between neighbours, and so rate Medium.
   */
  lemma SummarizeExample()
    ensures Summarize(5, ExampleReadings, 0) ==
            Some(SessionSummary(5, 73, 65, 90, 13, Medium, 0))
  {
    var h := ExampleReadings;
    assert AverageHeartRate(h) == 73 by {
      ExampleSum();
      assert RoundDiv(365, 5) == 73;
    }
    assert Min(h) == 65 && Max(h) == 90 by {
      ExampleMinMax();
    }
    assert Hrv(h) == 13 by {
      ExampleHrv();
    }
  }

  /** `formatTime`: whole minutes, a colon, then the seconds padded to two digits. */
  function FormatTime(seconds: nat): (r: string)
    ensures |r| >= 4 && r[|r| - 3] == ':'
    ensures AllDigits(r[..|r| - 3]) && AllDigits(r[|r| - 2..])
  {
    var mins, secs := NatToString(seconds / 60), PadStart2(NatToString(seconds % 60));
    assert |secs| == 2 && AllDigits(secs) by {
      PadStart2Value(seconds % 60);
    }
    var r := mins + ":" + secs;
    assert r[..|r| - 3] == mins && r[|r| - 2..] == secs;
    r
  }

  /** Reads an "m:ss" clock back into seconds: the partner of `FormatTime`. */
  function ParseTime(s: string): Option<nat> {
    var parts := Split(s, ':');
    if |parts| != 2 then None
    else match (ParseNat(parts[0]), ParseNat(parts[1]))
      case (Some(m), Some(sec)) => if sec < 60 then Some(m * 60 + sec) else None
      case _ => None
  }

  /** Two runs of digits joined by a colon split back into those two runs. */
  lemma SplitClock(mins: string, secs: string)
    requires AllDigits(mins) && AllDigits(secs)
    ensures Split(mins + ":" + secs, ':') == [mins, secs]
  {
    SplitFree(secs, ':');
    SplitFirst(mins, ':', secs);
    assert mins + ":" + secs == mins + [':'] + secs;
  }

  /** The clock display loses nothing: its minutes and seconds recombine to the count. */
  lemma FormatTimeRoundTrip(seconds: nat)
    ensures ParseTime(FormatTime(seconds)) == Some(seconds)
    ensures |Split(FormatTime(seconds), ':')[1]| == 2
  {
    var m, sc := seconds / 60, seconds % 60;
    var mins, secs := NatToString(m), PadStart2(NatToString(sc));
    PadStart2Value(sc);
    ParseNatToString(m);
    SplitClock(mins, secs);
    assert FormatTime(seconds) == mins + ":" + secs;
    assert m * 60 + sc == seconds;
  }

  /**
   * The component's state. `onComplete` is modelled by `completed`, the
   * summaries handed to it so far; the clock by the `now` parameters.
   */
  class MeditationSession {
    const duration: nat
    var isActive: bool
    var sessionStarted: bool
    var timeLeft: nat
    var heartRateHistory: seq<int>
    var completed: seq<SessionSummary>
    /**
     * The values of the tracking effect's dependencies
     * `[healthMetrics?.heartRate, isActive]` when it last ran; None before
     * its first run.
     */
    var trackedDeps: Option<(Option<int>, bool)>

    /** The countdown stays within the planned duration, and only a started session is active. */
    ghost predicate Valid()
      reads this
    {
      timeLeft <= duration * 60 && (isActive ==> sessionStarted)
    }

    constructor (duration: nat)
      ensures Valid()
      ensures this.duration == duration && timeLeft == duration * 60
      ensures !isActive && !sessionStarted && heartRateHistory == [] && completed == []
      ensures trackedDeps.None?
    {
      this.duration := duration;
      isActive := false;
      sessionStarted := false;
      timeLeft := duration * 60;
      heartRateHistory := [];
      completed := [];
      trackedDeps := None;
    }

    /**
     * `startSession`: asks for heart-rate monitoring when a watch is connected,
     * then activates the session and empties the history. The Resume button
     * calls this too, so resuming discards what was recorded before the pause.
     */
    method StartSession(isConnected: bool) returns (startMonitoring: bool)
      requires Valid()
      modifies this
      ensures Valid()
      ensures startMonitoring == isConnected
      ensures isActive && sessionStarted && heartRateHistory == []
      ensures timeLeft == old(timeLeft) && completed == old(completed) && trackedDeps == old(trackedDeps)
    {
      startMonitoring := isConnected;
      isActive := true;
      sessionStarted := true;
      heartRateHistory := [];
    }

    /** `pauseSession`: clears `isActive` and nothing else. */
    method PauseSession()
      requires Valid()
      modifies this
      ensures Valid()
      ensures !isActive && sessionStarted == old(sessionStarted)
      ensures timeLeft == old(timeLeft) && heartRateHistory == old(heartRateHistory)
      ensures completed == old(completed) && trackedDeps == old(trackedDeps)
    {
      isActive := false;
    }

    /** `resetSession`: back to the initial state, the full duration on the clock. */
    method ResetSession()
      requires Valid()
      modifies this
      ensures Valid()
      ensures !isActive && !sessionStarted && timeLeft == duration * 60 && heartRateHistory == []
      ensures completed == old(completed) && trackedDeps == old(trackedDeps)
    {
      isActive := false;
      sessionStarted := false;
      timeLeft := duration * 60;
      heartRateHistory := [];
    }

    /**
     * The play/pause button: Start before the session has begun, then Pause
     * while active and Resume (the same `startSession`) while paused.
     */
    method PlayPauseButton(isConnected: bool) returns (startMonitoring: bool)
      requires Valid()
      modifies this
      ensures Valid()
      ensures isActive == !old(isActive) && sessionStarted
      ensures !old(isActive) ==> heartRateHistory == [] && startMonitoring == isConnected
      ensures old(isActive) ==> heartRateHistory == old(heartRateHistory) && !startMonitoring
      ensures timeLeft == old(timeLeft) && completed == old(completed) && trackedDeps == old(trackedDeps)
    {
      if !sessionStarted || !isActive {
        startMonitoring := StartSession(isConnected);
      } else {
        PauseSession();
        startMonitoring := false;
      }
    }

    /**
     * A render with the current reading `healthMetrics?.heartRate` (None when
     * there is no snapshot). The tracking effect runs only when the reading
     * or `isActive` differs from its last run: an unchanged reading is not
     * recorded again, and activating the session records the reading already
     * shown. When it runs, a truthy reading is appended while active.
     */
    method TrackHeartRate(heartRate: Option<int>)
      requires Valid()
      modifies this
      ensures Valid()
      ensures trackedDeps == Some((heartRate, isActive))
      ensures old(trackedDeps) == Some((heartRate, old(isActive))) ==>
                heartRateHistory == old(heartRateHistory)
      ensures old(trackedDeps) != Some((heartRate, old(isActive))) &&
              isActive && heartRate.Some? && heartRate.value != 0 ==>
                heartRateHistory == old(heartRateHistory) + [heartRate.value]
      ensures old(trackedDeps) != Some((heartRate, old(isActive))) &&
              !(isActive && heartRate.Some? && heartRate.value != 0) ==>
                heartRateHistory == old(heartRateHistory)
      ensures isActive == old(isActive) && sessionStarted == old(sessionStarted)
      ensures timeLeft == old(timeLeft) && completed == old(completed)
    {
      if trackedDeps != Some((heartRate, isActive)) {
        trackedDeps := Some((heartRate, isActive));
        if isActive && heartRate.Some? && heartRate.value != 0 {
          heartRateHistory := heartRateHistory + [heartRate.value];
        }
      }
    }

    /**
     * `handleSessionComplete`: ends the session and, when the history is not
     * empty, hands its summary to `onComplete`.
     */
    method HandleSessionComplete(now: int) returns (summary: Option<SessionSummary>)
      requires Valid()
      modifies this
      ensures Valid()
      ensures !isActive && !sessionStarted
      ensures summary == Summarize(duration, old(heartRateHistory), now)
      ensures completed == old(completed) + (if summary.Some? then [summary.value] else [])
      ensures timeLeft == old(timeLeft) && heartRateHistory == old(heartRateHistory)
      ensures trackedDeps == old(trackedDeps)
    {
      isActive := false;
      sessionStarted := false;
      if |heartRateHistory| > 0 {
        var hrv := CalculateHrv(heartRateHistory);
        var avg := AverageHeartRate(heartRateHistory);
        summary := Some(SessionSummary(duration, avg, Min(heartRateHistory), Max(heartRateHistory),
                                       hrv, StressLevelOf(avg, hrv), now));
        completed := completed + [summary.value];
      } else {
        summary := None;
      }
    }

    /**
     * One step of the countdown effect: a second ticks away while active with
     * time left; at zero a started session completes; otherwise nothing happens.
     */
    method TimerStep(now: int) returns (summary: Option<SessionSummary>)
      requires Valid()
      modifies this
      ensures Valid()
      ensures old(isActive) && old(timeLeft) > 0 ==>
                timeLeft == old(timeLeft) - 1 && summary.None? && isActive && sessionStarted
      ensures !(old(isActive) && old(timeLeft) > 0) && old(timeLeft) == 0 && old(sessionStarted) ==>
                !isActive && !sessionStarted && summary == Summarize(duration, old(heartRateHistory), now)
      ensures !(old(isActive) && old(timeLeft) > 0) && !(old(timeLeft) == 0 && old(sessionStarted)) ==>
                isActive == old(isActive) && sessionStarted == old(sessionStarted) && summary.None?
      ensures !(old(isActive) && old(timeLeft) > 0) ==> timeLeft == old(timeLeft)
      ensures completed == old(completed) + (if summary.Some? then [summary.value] else [])
      ensures heartRateHistory == old(heartRateHistory) && trackedDeps == old(trackedDeps)
    {
      if isActive && timeLeft > 0 {
        timeLeft := timeLeft - 1;
        summary := None;
      } else if timeLeft == 0 && sessionStarted {
        summary := HandleSessionComplete(now);
      } else {
        summary := None;
      }
    }
  }

  /** A paused session that is resumed loses the samples recorded before the pause. */
  method ResumeDiscardsHistory(hr1: int, hr2: int)
    requires hr1 != 0 && hr2 != 0 && hr1 != hr2
  {
    var s := new MeditationSession(5);
    var monitor := s.PlayPauseButton(true);
    s.TrackHeartRate(Some(hr1));
    s.TrackHeartRate(Some(hr2));
    assert |s.heartRateHistory| == 2;
    monitor := s.PlayPauseButton(false);
    s.TrackHeartRate(Some(hr1));
    assert |s.heartRateHistory| == 2;
    monitor := s.PlayPauseButton(false);
    assert s.heartRateHistory == [];
  }

  /**
   * A reading already on screen is recorded once when the session starts,
   * and a notification repeating the same value records nothing.
   */
  method RepeatedReadingRecordedOnce() returns (history: seq<int>)
    ensures history == [72, 75]
  {
    var s := new MeditationSession(5);
    s.TrackHeartRate(Some(72));
    assert s.heartRateHistory == [];
    var monitor := s.PlayPauseButton(true);
    s.TrackHeartRate(Some(72));
    assert s.heartRateHistory == [72];
    s.TrackHeartRate(Some(72));
    assert s.heartRateHistory == [72];
    s.TrackHeartRate(Some(75));
    history := s.heartRateHistory;
  }
}
