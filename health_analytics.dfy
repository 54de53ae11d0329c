/**
 * The weekly summary of HealthAnalytics: the rounded average of one field
 * over the week's records, and whether that field went up or down from the
 * first half of the week to the second.
 */
module HealthAnalytics {
  import opened Wrappers
  import opened Seqs
  import opened Numbers

  /** `HealthTrend`: one day's record. */
  datatype HealthTrend = HealthTrend(date: string, heartRate: int, steps: int, meditation: int, stress: int)

  /** The numeric fields a summary can be asked for. */
  datatype Metric = HeartRate | Steps | Meditation | Stress

  datatype Trend = Up | Down

  function Field(d: HealthTrend, key: Metric): int {
    match key
    case HeartRate => d.heartRate
    case Steps => d.steps
    case Meditation => d.meditation
    case Stress => d.stress
  }

  /** `data.map(d => d[key])`. */
  function Values(data: seq<HealthTrend>, key: Metric): (v: seq<int>)
    ensures |v| == |data|
    ensures forall i :: 0 <= i < |data| ==> v[i] == Field(data[i], key)
  {
    seq(|data|, i requires 0 <= i < |data| => Field(data[i], key))
  }

  /**
   * `getWeeklyAverage`: the rounded mean of the field. With no records the
   * source divides 0 by 0 and shows NaN; the model answers None.
   */
  function WeeklyAverage(data: seq<HealthTrend>, key: Metric): (r: Option<int>)
    ensures r.Some? <==> |data| > 0
    ensures r.Some? ==> Min(Values(data, key)) <= r.value <= Max(Values(data, key))
  {
    var v := Values(data, key);
    if |v| == 0 then None
    else
      SumBounds(v, Min(v), Max(v));
      RoundDivBetween(Sum(v), |v|, Min(v), Max(v));
      Some(RoundDiv(Sum(v), |v|))
  }

  /** `values.slice(0, floor(n / 2))`. */
  function FirstHalf(v: seq<int>): seq<int> {
    v[..|v| / 2]
  }

  /** `values.slice(floor(n / 2))`. */
  function SecondHalf(v: seq<int>): seq<int> {
    v[|v| / 2..]
  }

  /**
   * `getTrend`: 'up' when the mean of the second half is strictly larger
   * than that of the first. The means are compared by cross-multiplying
   * with the (positive) lengths. An empty half has mean NaN, which compares
   * false, so it gives 'down'.
   */
  function TrendOf(v: seq<int>): Trend {
    var first, second := FirstHalf(v), SecondHalf(v);
    if |first| > 0 && |second| > 0 && Sum(second) * |first| > Sum(first) * |second| then Up else Down
  }

  /** `getTrend` on the records: 'up' exactly when there are two records or more and the later half's mean is higher. */
  function GetTrend(data: seq<HealthTrend>, key: Metric): (r: Trend)
    ensures r == Up <==> |data| >= 2 && Mean(FirstHalf(Values(data, key))) < Mean(SecondHalf(Values(data, key)))
  {
    TrendUpIff(Values(data, key));
    TrendOf(Values(data, key))
  }

  /** The mean of a non-empty series as a real number, the value the source computes in floating point. */
  function Mean(s: seq<int>): (r: real)
    requires |s| > 0
    ensures r * |s| as real == Sum(s) as real
  {
    Sum(s) as real / |s| as real
  }

  /** The halves split the series at floor(n / 2): they rebuild it, and the second is at most one longer. */
  lemma HalvesSplit(v: seq<int>)
    ensures FirstHalf(v) + SecondHalf(v) == v
    ensures |FirstHalf(v)| == |v| / 2
    ensures |SecondHalf(v)| == |FirstHalf(v)| || |SecondHalf(v)| == |FirstHalf(v)| + 1
  {
  }

  /** For positive denominators, comparing fractions is comparing cross-products. */
  lemma FractionLess(a: int, m: nat, b: int, n: nat)
    requires m > 0 && n > 0
    ensures (a as real / m as real < b as real / n as real) <==> a * n < b * m
  {
    var x, y := a as real / m as real, b as real / n as real;
    assert a as real == x * m as real;
    assert b as real == y * n as real;
    assert (a * n) as real == x * (m as real * n as real);
    assert (b * m) as real == y * (m as real * n as real);
    if x < y {
      MulPositiveLess(x, y, m as real * n as real);
    } else {
      MulPositiveLess(y, x, m as real * n as real);
      assert !(y < x) ==> x == y;
    }
  }

  lemma MulPositiveLess(x: real, y: real, k: real)
    requires k > 0.0
    ensures x < y <==> x * k < y * k
  {
  }

  /** 'up' exactly when at least two points exist and the second half's mean is above the first's. */
  lemma TrendUpIff(v: seq<int>)
    ensures TrendOf(v) == Up <==> |v| >= 2 && Mean(FirstHalf(v)) < Mean(SecondHalf(v))
  {
    var first, second := FirstHalf(v), SecondHalf(v);
    if |v| >= 2 {
      FractionLess(Sum(first), |first|, Sum(second), |second|);
    }
  }

  /** With fewer than two points the first half is empty and the trend is 'down'. */
  lemma ShortSeriesDown(v: seq<int>)
    requires |v| < 2
    ensures FirstHalf(v) == [] && TrendOf(v) == Down
  {
  }

  /** A flat series is reported as 'down': ties never count as 'up'. */
  lemma ConstantSeriesDown(v: seq<int>, c: int)
    requires forall i :: 0 <= i < |v| ==> v[i] == c
    ensures TrendOf(v) == Down
  {
    var first, second := FirstHalf(v), SecondHalf(v);
    SumBounds(first, c, c);
    SumBounds(second, c, c);
    assert Sum(second) * |first| == |second| * c * |first|;
    assert Sum(first) * |second| == |first| * c * |second|;
  }

  /** Raising values of the second half, the first half left as it is, keeps an 'up' trend 'up'. */
  lemma TrendRaisingSecondHalf(v: seq<int>, w: seq<int>)
    requires |v| == |w|
    requires forall i :: 0 <= i < |v| / 2 ==> w[i] == v[i]
    requires forall i :: |v| / 2 <= i < |v| ==> w[i] >= v[i]
    requires TrendOf(v) == Up
    ensures TrendOf(w) == Up
  {
    var f, s, wf, ws := FirstHalf(v), SecondHalf(v), FirstHalf(w), SecondHalf(w);
    assert wf == f;
    SumPointwise(s, ws);
    MulMonoNat(Sum(s), Sum(ws), |f|);
  }

  lemma {:induction false} SumPointwise(a: seq<int>, b: seq<int>)
    requires |a| == |b|
    requires forall i :: 0 <= i < |a| ==> a[i] <= b[i]
    ensures Sum(a) <= Sum(b)
    decreases |a|
  {
    if a != [] {
      SumPointwise(a[..|a| - 1], b[..|b| - 1]);
    }
  }

  lemma MulMonoNat(x: int, y: int, k: nat)
    requires x <= y
    ensures x * k <= y * k
  {
  }

  /** `mockHealthData`, the records shown when no data is passed. */
  const MockHealthData: seq<HealthTrend> := [
    HealthTrend("2024-01-01", 72, 8500, 10, 3),
    HealthTrend("2024-01-02", 68, 9200, 15, 2),
    HealthTrend("2024-01-03", 75, 7800, 5, 4),
    HealthTrend("2024-01-04", 70, 10500, 20, 2),
    HealthTrend("2024-01-05", 73, 8900, 12, 3),
    HealthTrend("2024-01-06", 67, 11200, 25, 1),
    HealthTrend("2024-01-07", 71, 9800, 18, 2)
  ]

  lemma MockHeartRateSum()
    ensures Sum(Values(MockHealthData, HeartRate)) == 496
  {
    var v := Values(MockHealthData, HeartRate);
    assert v[0] == 72 && v[1] == 68 && v[2] == 75 && v[3] == 70 && v[4] == 73 && v[5] == 67 && v[6] == 71;
    assert v[..0] == [] && v[..7] == v;
    SumPrefixStep(v, 0); SumPrefixStep(v, 1); SumPrefixStep(v, 2); SumPrefixStep(v, 3);
    SumPrefixStep(v, 4); SumPrefixStep(v, 5); SumPrefixStep(v, 6);
  }

  /** On the demonstration data the average heart rate shown is round(496 / 7) = 71. */
  lemma MockWeeklyAverage()
    ensures WeeklyAverage(MockHealthData, HeartRate) == Some(71)
  {
    MockHeartRateSum();
    assert RoundDiv(496, 7) == 71;
  }
}
