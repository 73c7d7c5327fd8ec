/** `backend/services/ml_predictor.py`: the prediction service behind the
    predictions router. A fill predictor keeps a sliding window of fill
    readings per bin and derives fill rates, time-to-full estimates and an
    hourly pattern; an anomaly detector keeps a sliding window of sensor
    readings per bin and flags readings by z-score; a collection optimiser
    turns predictions into collection decisions and an urgency order.
    Times are whole seconds since the epoch; numpy's standard deviation is
    a parameter of the detector. */
module MlPredictor {
  import opened Common
  import Sorting

  /** Readings kept per bin by the fill predictor. */
  const HistoryLimit: nat := 100
  /** Readings kept per bin and metric by the anomaly detector. */
  const BaselineLimit: nat := 50
  /** Readings needed before a baseline's statistics are computed or used. */
  const BaselineMinimum: nat := 5
  const SecondsPerHour: real := 3600.0

  /** `list[-n:]`: the last `n` entries, or all of them when there are fewer. */
  function LastN<T>(s: seq<T>, n: nat): (r: seq<T>)
    ensures |r| == if |s| > n then n else |s|
    ensures r == s[|s| - |r|..]
  {
    if |s| > n then s[|s| - n..] else s
  }

  // ---------------------------------------------------------------- fill history

  datatype DataPoint = DataPoint(time: int, level: int)

  /** The fill rate (% per hour) between two consecutive readings, when
      time moved forward and the level rose; a fall means the bin was
      emptied and is ignored. */
  function PairRate(prev: DataPoint, curr: DataPoint): (r: Option<real>)
    ensures r.Some? <==> curr.time > prev.time && curr.level > prev.level
    ensures r.Some? ==> r.value > 0.0
  {
    var timeDiff := (curr.time - prev.time) as real / SecondsPerHour;
    if timeDiff > 0.0 && curr.level - prev.level > 0 then Some((curr.level - prev.level) as real / timeDiff)
    else None
  }

  /** The rates of the rising consecutive pairs, in order. */
  function Rates(data: seq<DataPoint>): (r: seq<real>)
    ensures forall k :: 0 <= k < |r| ==> r[k] > 0.0
    ensures |r| < |data| || data == []
  {
    if |data| < 2 then []
    else
      Rates(data[..|data| - 1]) +
      (match PairRate(data[|data| - 2], data[|data| - 1]) case Some(x) => [x] case None => [])
  }

  /** One more reading adds the rate of its pair with the previous one, if any. */
  lemma RatesStep(data: seq<DataPoint>, i: nat)
    requires 1 <= i < |data|
    ensures PairRate(data[i - 1], data[i]).Some? ==> Rates(data[..i + 1]) == Rates(data[..i]) + [PairRate(data[i - 1], data[i]).value]
    ensures PairRate(data[i - 1], data[i]).None? ==> Rates(data[..i + 1]) == Rates(data[..i])
  {
    assert data[..i + 1][..i] == data[..i];
  }

  /** The median of exact reals, as numpy computes it: the middle element
      of the sorted values, or the mean of the two middle ones. */
  function Median(xs: seq<real>): real
    requires |xs| > 0
  {
    var s := Sorting.SortDesc(xs, x => x);
    assert |s| == |xs| by { assert |multiset(s)| == |multiset(xs)|; }
    var n := |s|;
    if n % 2 == 1 then s[n / 2] else (s[n / 2 - 1] + s[n / 2]) / 2.0
  }

  /** The median lies between the smallest and the largest value. */
  lemma MedianWithin(xs: seq<real>)
    requires |xs| > 0
    ensures exists i :: 0 <= i < |xs| && xs[i] <= Median(xs)
    ensures exists j :: 0 <= j < |xs| && Median(xs) <= xs[j]
  {
    var s := Sorting.SortDesc(xs, x => x);
    Sorting.PermutationMembers(s, xs);
    var n := |s|;
    var lo, hi := s[n / 2], s[n / 2];
    if n % 2 == 0 {
      lo, hi := if s[n / 2 - 1] <= s[n / 2] then s[n / 2 - 1] else s[n / 2],
                if s[n / 2 - 1] <= s[n / 2] then s[n / 2] else s[n / 2 - 1];
    }
    assert lo <= Median(xs) <= hi;
    assert lo in xs && hi in xs;
    var i :| 0 <= i < |xs| && xs[i] == lo;
    var j :| 0 <= j < |xs| && xs[j] == hi;
  }

  lemma MedianPositive(xs: seq<real>)
    requires |xs| > 0
    requires forall k :: 0 <= k < |xs| ==> xs[k] > 0.0
    ensures Median(xs) > 0.0
  {
    MedianWithin(xs);
  }

  /** `calculate_fill_rate`: none for an unknown bin, for fewer than two
      readings, or when no consecutive pair rose; else the median rate. */
  function FillRate(history: map<string, seq<DataPoint>>, binId: string): Option<real> {
    if binId !in history || |history[binId]| < 2 then None
    else
      var rates := Rates(history[binId]);
      if rates == [] then None else Some(Median(rates))
  }

  lemma FillRateFacts(history: map<string, seq<DataPoint>>, binId: string)
    ensures FillRate(history, binId).None? <==> binId !in history || Rates(history[binId]) == []
    ensures binId in history && |history[binId]| < 2 ==> FillRate(history, binId).None?
    ensures FillRate(history, binId).Some? ==> FillRate(history, binId).value > 0.0
  {
    if FillRate(history, binId).Some? {
      MedianPositive(Rates(history[binId]));
    }
  }

  /** `min(0.95, points / 50)`: grows with the readings used, capped at 95%. */
  function Confidence(points: nat): (c: real)
    ensures 0.0 <= c <= 0.95
    ensures c == 0.95 <==> points >= 48
    ensures points < 48 ==> c * 50.0 == points as real
  {
    if 0.95 <= points as real / 50.0 then 0.95 else points as real / 50.0
  }

  datatype Prediction = Prediction(
    binId: string,
    currentFill: int,
    fillRatePerHour: real,
    hoursUntilFull: real,
    predictedFullTime: real,   // seconds since the epoch
    confidence: real,
    dataPointsUsed: nat)

  /** `predict_full_time`: none unless the fill rate is positive; otherwise
      the hours the remaining capacity takes at that rate. */
  function PredictionOf(history: map<string, seq<DataPoint>>, binId: string, currentFill: int, now: int): Option<Prediction> {
    match FillRate(history, binId)
    case None => None
    case Some(rate) =>
      if rate <= 0.0 then None
      else
        var hours := (100 - currentFill) as real / rate;
        var points := if binId in history then |history[binId]| else 0;
        Some(Prediction(binId, currentFill, rate, hours, now as real + hours * SecondsPerHour, Confidence(points), points))
  }

  /** A prediction exists exactly when a fill rate does; it carries that
      rate, the hours the remaining capacity takes at it (positive exactly
      while the bin is below 100%), and the readings it used. */
  lemma PredictionFacts(history: map<string, seq<DataPoint>>, binId: string, currentFill: int, now: int)
    ensures PredictionOf(history, binId, currentFill, now).Some? <==> FillRate(history, binId).Some?
    ensures PredictionOf(history, binId, currentFill, now).Some? ==>
              && PredictionOf(history, binId, currentFill, now).value.fillRatePerHour == FillRate(history, binId).value > 0.0
              && PredictionOf(history, binId, currentFill, now).value.dataPointsUsed == |history[binId]|
              && PredictionOf(history, binId, currentFill, now).value.confidence == Confidence(|history[binId]|)
    ensures PredictionOf(history, binId, currentFill, now).Some? ==>
              PredictionOf(history, binId, currentFill, now).value.hoursUntilFull * FillRate(history, binId).value
                == (100 - currentFill) as real
    ensures PredictionOf(history, binId, currentFill, now).Some? ==>
              (PredictionOf(history, binId, currentFill, now).value.hoursUntilFull > 0.0 <==> currentFill < 100)
  {
    FillRateFacts(history, binId);
    if PredictionOf(history, binId, currentFill, now).Some? {
      var p := PredictionOf(history, binId, currentFill, now).value;
      var rate := FillRate(history, binId).value;
      assert p.fillRatePerHour == rate;
      assert p.hoursUntilFull == (100 - currentFill) as real / rate;
      HoursSign((100 - currentFill) as real, rate);
    }
  }

  lemma HoursSign(remaining: real, rate: real)
    requires rate > 0.0
    ensures (remaining / rate) * rate == remaining
    ensures remaining / rate > 0.0 <==> remaining > 0.0
  {
  }

  // ---------------------------------------------------------------- hourly pattern

  /** The hours of the day, 0 to 23. */
  const HoursOfDay: seq<int> := seq(24, h => h)

  /** `datetime.hour` of a time in seconds since the epoch (UTC). */
  function HourOf(t: int): (h: int)
    ensures 0 <= h < 24
  {
    (t / 3600) % 24
  }

  /** The rates of the rising pairs whose later reading falls in `hour`. */
  function HourRates(data: seq<DataPoint>, hour: int): (r: seq<real>)
    ensures forall k :: 0 <= k < |r| ==> r[k] > 0.0
  {
    if |data| < 2 then []
    else
      var prev, curr := data[|data| - 2], data[|data| - 1];
      HourRates(data[..|data| - 1], hour) +
      (if HourOf(curr.time) == hour && PairRate(prev, curr).Some? then [PairRate(prev, curr).value] else [])
  }

  /** The pattern over the hours below `n`: one (hour, mean rate) entry per
      hour that has a rate, in hour order. */
  function PatternUpTo(data: seq<DataPoint>, n: nat): seq<(int, real)>
    requires n <= 24
  {
    if n == 0 then []
    else
      PatternUpTo(data, n - 1) +
      (if HourRates(data, n - 1) != [] then [(n - 1, Mean(HourRates(data, n - 1)))] else [])
  }

  /** `get_hourly_pattern`, as the dictionary's entries in insertion order. */
  function HourlyPattern(history: map<string, seq<DataPoint>>, binId: string): seq<(int, real)> {
    if binId !in history then [] else PatternUpTo(history[binId], 24)
  }

  /** Every entry of the pattern is an hour below `n` that has a rising
      pair, with the mean of its rates, which is positive. */
  lemma {:induction false} PatternEntries(data: seq<DataPoint>, n: nat)
    requires n <= 24
    ensures forall k :: 0 <= k < |PatternUpTo(data, n)| ==>
              && 0 <= PatternUpTo(data, n)[k].0 < n
              && HourRates(data, PatternUpTo(data, n)[k].0) != []
              && PatternUpTo(data, n)[k].1 == Mean(HourRates(data, PatternUpTo(data, n)[k].0))
              && PatternUpTo(data, n)[k].1 > 0.0
    decreases n
  {
    if n > 0 {
      PatternEntries(data, n - 1);
      var rates := HourRates(data, n - 1);
      if rates != [] {
        SumPositive(rates);
        MeanPositive(rates);
      }
    }
  }

  lemma MeanPositive(xs: seq<real>)
    requires |xs| > 0 && Sum(xs) > 0.0
    ensures Mean(xs) > 0.0
  {
  }

  /** The pattern's hours increase strictly, so no hour appears twice. */
  lemma {:induction false} PatternIncreasing(data: seq<DataPoint>, n: nat)
    requires n <= 24
    ensures forall i, j :: 0 <= i < j < |PatternUpTo(data, n)| ==> PatternUpTo(data, n)[i].0 < PatternUpTo(data, n)[j].0
    decreases n
  {
    if n > 0 {
      PatternIncreasing(data, n - 1);
      PatternEntries(data, n - 1);
    }
  }

  predicate HasHour(p: seq<(int, real)>, h: int) {
    exists k :: 0 <= k < |p| && p[k].0 == h
  }

  lemma HasHourAppend(q: seq<(int, real)>, t: seq<(int, real)>, h: int)
    requires HasHour(q, h) || HasHour(t, h)
    ensures HasHour(q + t, h)
  {
    if HasHour(q, h) {
      var k :| 0 <= k < |q| && q[k].0 == h;
      assert (q + t)[k] == q[k];
    } else {
      var k :| 0 <= k < |t| && t[k].0 == h;
      assert (q + t)[|q| + k] == t[k];
    }
  }

  /** Every hour below `n` that has a rising pair appears in the pattern. */
  lemma {:induction false} PatternComplete(data: seq<DataPoint>, n: nat)
    requires n <= 24
    ensures forall h :: 0 <= h < n && HourRates(data, h) != [] ==> HasHour(PatternUpTo(data, n), h)
    decreases n
  {
    if n > 0 {
      PatternComplete(data, n - 1);
      var rates := HourRates(data, n - 1);
      var q := PatternUpTo(data, n - 1);
      var t := if rates != [] then [(n - 1, Mean(rates))] else [];
      assert PatternUpTo(data, n) == q + t;
      forall h | 0 <= h < n && HourRates(data, h) != [] ensures HasHour(q + t, h) {
        if h == n - 1 {
          assert |t| == 1 && t[0].0 == h;
          assert HasHour(t, h);
        } else {
          assert HasHour(q, h);
        }
        HasHourAppend(q, t, h);
      }
    }
  }

  // ---------------------------------------------------------------- the fill predictor

  class BinFillPredictor {
    /** bin id -> readings, oldest first. */
    var historicalData: map<string, seq<DataPoint>>
    /** The dictionary's keys in insertion order. */
    var order: seq<string>

    ghost predicate Valid()
      reads this
    {
      && (forall id :: id in historicalData ==> 0 < |historicalData[id]| <= HistoryLimit)
      && Distinct(order)
      && (forall id :: id in historicalData <==> id in order)
    }

    constructor ()
      ensures Valid()
      ensures historicalData == map[] && order == []
    {
      historicalData := map[];
      order := [];
    }

    /** `add_data_point`: append the reading and keep the newest 100. */
    method AddDataPoint(binId: string, fillLevel: int, timestamp: int)
      requires Valid()
      modifies this
      ensures Valid()
      ensures historicalData == old(historicalData)[binId := LastN(old(Readings(binId)) + [DataPoint(timestamp, fillLevel)], HistoryLimit)]
      ensures order == if binId in old(historicalData) then old(order) else old(order) + [binId]
    {
      ghost var before := Readings(binId);
      if binId !in historicalData {
        historicalData := historicalData[binId := []];
        order := order + [binId];
      }
      var data := historicalData[binId] + [DataPoint(timestamp, fillLevel)];
      assert data == before + [DataPoint(timestamp, fillLevel)];
      if |data| > HistoryLimit {
        data := data[|data| - HistoryLimit..];
      }
      assert data == LastN(before + [DataPoint(timestamp, fillLevel)], HistoryLimit);
      historicalData := historicalData[binId := data];
      assert forall id :: id in historicalData <==> id in order;
    }

    /** `historical_data.get(bin_id, [])`. */
    function Readings(binId: string): seq<DataPoint>
      reads this
    {
      if binId in historicalData then historicalData[binId] else []
    }

    /** The loop of `calculate_fill_rate`, then the median. */
    method CalculateFillRate(binId: string) returns (r: Option<real>)
      ensures r == FillRate(historicalData, binId)
    {
      if binId !in historicalData {
        return None;
      }
      var data := historicalData[binId];
      if |data| < 2 {
        return None;
      }
      var rates: seq<real> := [];
      for i := 1 to |data|
        invariant rates == Rates(data[..i])
      {
        RatesStep(data, i);
        var timeDiff := (data[i].time - data[i - 1].time) as real / SecondsPerHour;
        if timeDiff > 0.0 {
          var levelDiff := data[i].level - data[i - 1].level;
          if levelDiff > 0 {
            rates := rates + [levelDiff as real / timeDiff];
          }
        }
      }
      assert data[..|data|] == data;
      if rates == [] {
        return None;
      }
      return Some(Median(rates));
    }
  
    /** `predict_full_time` at the current time `now`. */
    method PredictFullTime(binId: string, currentFill: int, now: int) returns (r: Option<Prediction>)
      ensures r == PredictionOf(historicalData, binId, currentFill, now)
    {
      var fillRate := CalculateFillRate(binId);
      if fillRate.None? || fillRate.value <= 0.0 {
        return None;
      }
      var remaining := 100 - currentFill;
      var hours := remaining as real / fillRate.value;
      var points := |Readings(binId)|;
      return Some(Prediction(binId, currentFill, fillRate.value, hours, now as real + hours * SecondsPerHour,
                             Confidence(points), points));
    }

    /** `get_hourly_pattern`: collect the rising pairs' rates per hour of
        the later reading, then average each hour that has any. */
    method GetHourlyPattern(binId: string) returns (pattern: seq<(int, real)>)
      requires Valid()
      ensures pattern == HourlyPattern(historicalData, binId)
    {
      if binId !in historicalData {
        return [];
      }
      var data := historicalData[binId];
      var hourlyRates: map<int, seq<real>> := map h | h in HoursOfDay :: [];
      forall h | 0 <= h < 24 ensures h in hourlyRates && hourlyRates[h] == HourRates(data[..1], h) {
        assert HoursOfDay[h] == h;
      }
      for i := 1 to |data|
        invariant forall h :: 0 <= h < 24 ==> h in hourlyRates && hourlyRates[h] == HourRates(data[..i], h)
      {
        HourRatesStep(data, i);
        var hour := HourOf(data[i].time);
        var timeDiff := (data[i].time - data[i - 1].time) as real / SecondsPerHour;
        if timeDiff > 0.0 && data[i].level > data[i - 1].level {
          var rate := (data[i].level - data[i - 1].level) as real / timeDiff;
          hourlyRates := hourlyRates[hour := hourlyRates[hour] + [rate]];
        }
      }
      assert data[..|data|] == data;
      pattern := [];
      for h := 0 to 24
        invariant pattern == PatternUpTo(data, h)
      {
        if hourlyRates[h] != [] {
          pattern := pattern + [(h, Mean(hourlyRates[h]))];
        }
      }
    }
  }

  /** One more reading adds at most the rate of its pair, to the hour of
      the new reading only. */
  lemma HourRatesStep(data: seq<DataPoint>, i: nat)
    requires 1 <= i < |data|
    ensures forall h :: HourRates(data[..i + 1], h) ==
              HourRates(data[..i], h) +
              (if HourOf(data[i].time) == h && PairRate(data[i - 1], data[i]).Some? then [PairRate(data[i - 1], data[i]).value] else [])
  {
    assert data[..i + 1][..i] == data[..i];
  }

  // ---------------------------------------------------------------- anomaly baselines

  datatype Metric = FillLevel | Battery | Temperature | Humidity

  /** The metrics in the order both detector methods visit them. */
  const Metrics: seq<Metric> := [FillLevel, Battery, Temperature, Humidity]

  /** The sensor readings of one telemetry message; any may be missing. */
  datatype Telemetry = Telemetry(
    fillLevelPercent: Option<int>,
    batteryPercent: Option<int>,
    temperatureC: Option<real>,
    humidityPercent: Option<int>)

  function ReadingOf(t: Telemetry, m: Metric): Option<real> {
    match m
    case FillLevel => if t.fillLevelPercent.Some? then Some(t.fillLevelPercent.value as real) else None
    case Battery => if t.batteryPercent.Some? then Some(t.batteryPercent.value as real) else None
    case Temperature => t.temperatureC
    case Humidity => if t.humidityPercent.Some? then Some(t.humidityPercent.value as real) else None
  }

  /** A reading the detector uses: present and not negative. */
  predicate Usable(value: Option<real>) {
    value.Some? && value.value >= 0.0
  }

  datatype Baseline = Baseline(values: seq<real>, mean: real, std: real)

  const EmptyBaseline := Baseline([], 0.0, 0.0)

  /** Every metric is one of the four. */
  lemma MetricsComplete()
    ensures forall m: Metric :: m in Metrics
  {
    forall m: Metric ensures m in Metrics {
      match m
      case FillLevel => assert Metrics[0] == m;
      case Battery => assert Metrics[1] == m;
      case Temperature => assert Metrics[2] == m;
      case Humidity => assert Metrics[3] == m;
    }
  }

  function FreshBaselines(): (r: map<Metric, Baseline>)
    ensures forall m :: m in r && r[m] == EmptyBaseline
  {
    MetricsComplete();
    map m | m in Metrics :: EmptyBaseline
  }

  /** One metric's baseline after a reading: a usable reading joins the
      window of the last 50, and with five or more values the mean and
      standard deviation are recomputed; otherwise nothing changes. */
  function Recorded(b: Baseline, value: Option<real>, stdDev: seq<real> -> real): Baseline {
    if !Usable(value) then b
    else
      var values := LastN(b.values + [value.value], BaselineLimit);
      if |values| >= BaselineMinimum then Baseline(values, Mean(values), stdDev(values))
      else b.(values := values)
  }

  ghost predicate BaselineValid(b: Baseline) {
    |b.values| <= BaselineLimit && forall k :: 0 <= k < |b.values| ==> b.values[k] >= 0.0
  }

  /** Recording keeps the window bounded and free of negative readings. */
  lemma RecordedValid(b: Baseline, value: Option<real>, stdDev: seq<real> -> real)
    requires BaselineValid(b)
    ensures BaselineValid(Recorded(b, value, stdDev))
  {
    if Usable(value) {
      var all := b.values + [value.value];
      var values := LastN(all, BaselineLimit);
      assert Recorded(b, value, stdDev).values == values;
      forall k | 0 <= k < |values| ensures values[k] >= 0.0 {
        assert values[k] == all[|all| - |values| + k];
      }
    }
  }

  /** Recording ignores a missing or negative reading, keeps the newest
      reading last, and touches the statistics only once there are enough
      values. */
  lemma RecordedFacts(b: Baseline, value: Option<real>, stdDev: seq<real> -> real)
    ensures !Usable(value) ==> Recorded(b, value, stdDev) == b
    ensures Usable(value) ==> Recorded(b, value, stdDev).values[|Recorded(b, value, stdDev).values| - 1] == value.value
    ensures |Recorded(b, value, stdDev).values| < BaselineMinimum ==>
              Recorded(b, value, stdDev).mean == b.mean && Recorded(b, value, stdDev).std == b.std
    ensures Usable(value) && |Recorded(b, value, stdDev).values| >= BaselineMinimum ==>
              Recorded(b, value, stdDev).mean == Mean(Recorded(b, value, stdDev).values)
  {
  }

  /** The baselines of one bin after `update_baseline` has visited the
      first `k` metrics. */
  function RecordedUpTo(bs: map<Metric, Baseline>, t: Telemetry, stdDev: seq<real> -> real, k: nat): map<Metric, Baseline>
    requires forall m :: m in bs
    requires k <= |Metrics|
    ensures forall m :: m in RecordedUpTo(bs, t, stdDev, k)
  {
    if k == 0 then bs
    else
      var m := Metrics[k - 1];
      RecordedUpTo(bs, t, stdDev, k - 1)[m := Recorded(RecordedUpTo(bs, t, stdDev, k - 1)[m], ReadingOf(t, m), stdDev)]
  }

  /** A metric without a usable reading leaves the baselines as they are. */
  lemma RecordedStep(bs: map<Metric, Baseline>, t: Telemetry, stdDev: seq<real> -> real, k: nat)
    requires forall m :: m in bs
    requires k < |Metrics|
    ensures !Usable(ReadingOf(t, Metrics[k])) ==> RecordedUpTo(bs, t, stdDev, k + 1) == RecordedUpTo(bs, t, stdDev, k)
    ensures Usable(ReadingOf(t, Metrics[k])) ==>
              RecordedUpTo(bs, t, stdDev, k + 1) ==
              RecordedUpTo(bs, t, stdDev, k)[Metrics[k] := Recorded(RecordedUpTo(bs, t, stdDev, k)[Metrics[k]], Some(ReadingOf(t, Metrics[k]).value), stdDev)]
  {
    var before := RecordedUpTo(bs, t, stdDev, k);
    var m := Metrics[k];
    if !Usable(ReadingOf(t, m)) {
      assert before[m := before[m]] == before;
    }
  }

  /** After all four metrics, each baseline has recorded its own reading
      once and no other. */
  lemma {:induction false} RecordedPrefix(bs: map<Metric, Baseline>, t: Telemetry, stdDev: seq<real> -> real, k: nat)
    requires forall m :: m in bs
    requires k <= |Metrics|
    ensures forall m :: RecordedUpTo(bs, t, stdDev, k)[m] ==
              if m in Metrics[..k] then Recorded(bs[m], ReadingOf(t, m), stdDev) else bs[m]
    decreases k
  {
    if k > 0 {
      RecordedPrefix(bs, t, stdDev, k - 1);
      assert Metrics[..k] == Metrics[..k - 1] + [Metrics[k - 1]];
      assert Metrics[k - 1] !in Metrics[..k - 1];
    }
  }

  lemma RecordedAll(bs: map<Metric, Baseline>, t: Telemetry, stdDev: seq<real> -> real)
    requires forall m :: m in bs
    ensures forall m :: RecordedUpTo(bs, t, stdDev, |Metrics|)[m] == Recorded(bs[m], ReadingOf(t, m), stdDev)
  {
    RecordedPrefix(bs, t, stdDev, |Metrics|);
    assert Metrics[..|Metrics|] == Metrics;
    MetricsComplete();
  }

  datatype Anomaly = Anomaly(
    metric: Metric,
    currentValue: real,
    expectedLow: real,
    expectedHigh: real,
    zScore: real,
    severity: string)

  function Abs(x: real): real { if x < 0.0 then -x else x }

  function Severity(zScore: real): string {
    if zScore > 3.0 then "high" else "medium"
  }

  /** The check of one metric: a usable reading against a baseline with a
      non-zero deviation and at least five values is reported when its
      z-score exceeds the sensitivity; beyond 3 it is "high". */
  function AnomalyFor(m: Metric, b: Baseline, value: Option<real>, sensitivity: real): Option<Anomaly> {
    if !Usable(value) || b.std == 0.0 || |b.values| < BaselineMinimum then None
    else
      var z := Abs(value.value - b.mean) / b.std;
      if z > sensitivity then
        Some(Anomaly(m, value.value, b.mean - sensitivity * b.std, b.mean + sensitivity * b.std, z, Severity(z)))
      else None
  }

  /** An optional anomaly as a list of zero or one entries. */
  function Listed(a: Option<Anomaly>): seq<Anomaly> {
    if a.Some? then [a.value] else []
  }

  function AnomaliesUpTo(bs: map<Metric, Baseline>, t: Telemetry, sensitivity: real, k: nat): seq<Anomaly>
    requires forall m :: m in bs
    requires k <= |Metrics|
  {
    if k == 0 then []
    else
      var m := Metrics[k - 1];
      AnomaliesUpTo(bs, t, sensitivity, k - 1) + Listed(AnomalyFor(m, bs[m], ReadingOf(t, m), sensitivity))
  }

  /** `detect_anomalies`: nothing for a bin without baselines. */
  function Anomalies(baselines: map<string, map<Metric, Baseline>>, binId: string, t: Telemetry, sensitivity: real): seq<Anomaly>
    requires forall id :: id in baselines ==> forall m :: m in baselines[id]
  {
    if binId !in baselines then [] else AnomaliesUpTo(baselines[binId], t, sensitivity, |Metrics|)
  }

  /** Each reported anomaly exceeds the sensitivity, is "high" exactly when
      its z-score exceeds 3, and comes from a usable reading checked
      against a baseline of five or more values and a non-zero deviation;
      a metric is reported exactly when its check flags it. */
  lemma {:induction false} AnomalyRules(bs: map<Metric, Baseline>, t: Telemetry, sensitivity: real, k: nat)
    requires forall m :: m in bs
    requires k <= |Metrics|
    ensures forall a :: a in AnomaliesUpTo(bs, t, sensitivity, k) ==>
              && a.zScore > sensitivity
              && (a.severity == "high" <==> a.zScore > 3.0)
              && Usable(ReadingOf(t, a.metric)) && a.currentValue == ReadingOf(t, a.metric).value
              && bs[a.metric].std != 0.0 && |bs[a.metric].values| >= BaselineMinimum
    ensures forall j :: 0 <= j < k && AnomalyFor(Metrics[j], bs[Metrics[j]], ReadingOf(t, Metrics[j]), sensitivity).Some? ==>
              AnomalyFor(Metrics[j], bs[Metrics[j]], ReadingOf(t, Metrics[j]), sensitivity).value in AnomaliesUpTo(bs, t, sensitivity, k)
    decreases k
  {
    if k > 0 {
      AnomalyRules(bs, t, sensitivity, k - 1);
    }
  }

  ghost predicate BaselinesValid(bs: map<string, map<Metric, Baseline>>) {
    forall id :: id in bs ==> forall m :: m in bs[id] && BaselineValid(bs[id][m])
  }

  /** The baselines of one bin before an update: its own, or four empty ones. */
  function BaselinesOf(bs: map<string, map<Metric, Baseline>>, binId: string): (r: map<Metric, Baseline>)
    requires BaselinesValid(bs)
    ensures forall m :: m in r
  {
    if binId in bs then bs[binId] else FreshBaselines()
  }

  /** All baselines after `update_baseline(binId, telemetry)`. */
  function UpdatedBaselines(bs: map<string, map<Metric, Baseline>>, binId: string, t: Telemetry, stdDev: seq<real> -> real)
    : map<string, map<Metric, Baseline>>
    requires BaselinesValid(bs)
  {
    bs[binId := RecordedUpTo(BaselinesOf(bs, binId), t, stdDev, |Metrics|)]
  }

  /** An update records each of the bin's four readings in that metric's
      baseline, leaves every other bin alone and keeps every window
      bounded and non-negative. */
  lemma UpdatedFacts(bs: map<string, map<Metric, Baseline>>, binId: string, t: Telemetry, stdDev: seq<real> -> real)
    requires BaselinesValid(bs)
    ensures BaselinesValid(UpdatedBaselines(bs, binId, t, stdDev))
    ensures binId in UpdatedBaselines(bs, binId, t, stdDev)
    ensures forall m :: UpdatedBaselines(bs, binId, t, stdDev)[binId][m] == Recorded(BaselinesOf(bs, binId)[m], ReadingOf(t, m), stdDev)
    ensures forall id :: id != binId ==> (id in UpdatedBaselines(bs, binId, t, stdDev) <==> id in bs)
    ensures forall id :: id != binId && id in bs ==> UpdatedBaselines(bs, binId, t, stdDev)[id] == bs[id]
  {
    var start := BaselinesOf(bs, binId);
    RecordedAll(start, t, stdDev);
    forall m ensures BaselineValid(RecordedUpTo(start, t, stdDev, |Metrics|)[m]) {
      RecordedValid(start[m], ReadingOf(t, m), stdDev);
    }
  }

  class AnomalyDetector {
    /** Standard deviations from the mean that count as an anomaly. */
    const sensitivity: real
    /** numpy's population standard deviation, left abstract. */
    const stdDev: seq<real> -> real
    var baselines: map<string, map<Metric, Baseline>>

    ghost predicate Valid()
      reads this
    {
      BaselinesValid(baselines)
    }

    constructor (sensitivity: real, stdDev: seq<real> -> real)
      ensures Valid()
      ensures this.sensitivity == sensitivity && this.stdDev == stdDev && baselines == map[]
    {
      this.sensitivity := sensitivity;
      this.stdDev := stdDev;
      baselines := map[];
    }

    /** `update_baseline`: a bin seen for the first time gets four empty
        baselines; then every metric records its reading. */
    method UpdateBaseline(binId: string, telemetry: Telemetry)
      requires Valid()
      modifies this
      ensures baselines == UpdatedBaselines(old(baselines), binId, telemetry, stdDev)
      ensures Valid()
    {
      var bins := if binId in baselines then baselines[binId] else FreshBaselines();
      bins := RecordAll(bins, telemetry);
      baselines := baselines[binId := bins];
      UpdatedFacts(old(baselines), binId, telemetry, stdDev);
    }

    /** The `for metric in ...` loop of `update_baseline` over one bin's
        baselines. */
    method RecordAll(bins0: map<Metric, Baseline>, telemetry: Telemetry) returns (bins: map<Metric, Baseline>)
      requires forall m :: m in bins0
      ensures bins == RecordedUpTo(bins0, telemetry, stdDev, |Metrics|)
    {
      bins := bins0;
      for k := 0 to |Metrics|
        invariant bins == RecordedUpTo(bins0, telemetry, stdDev, k)
      {
        var metric := Metrics[k];
        var value := ReadingOf(telemetry, metric);
        RecordedStep(bins0, telemetry, stdDev, k);
        if value.Some? && value.value >= 0.0 {
          var baseline := Record(bins[metric], value.value);
          bins := bins[metric := baseline];
        }
      }
    }

    /** The body of `update_baseline`'s loop for one usable reading:
        append, keep the last 50, recompute once there are five. */
    method Record(baseline: Baseline, value: real) returns (b: Baseline)
      requires value >= 0.0
      ensures b == Recorded(baseline, Some(value), stdDev)
    {
      var values := baseline.values + [value];
      if |values| > BaselineLimit {
        values := values[|values| - BaselineLimit..];
      }
      assert values == LastN(baseline.values + [value], BaselineLimit);
      b := baseline.(values := values);
      if |values| >= BaselineMinimum {
        b := b.(mean := Mean(values), std := stdDev(values));
      }
    }

    /** `detect_anomalies`: check the four metrics in order. */
    method DetectAnomalies(binId: string, telemetry: Telemetry) returns (anomalies: seq<Anomaly>)
      requires Valid()
      ensures anomalies == Anomalies(baselines, binId, telemetry, sensitivity)
    {
      if binId !in baselines {
        return [];
      }
      anomalies := [];
      for k := 0 to |Metrics|
        invariant anomalies == AnomaliesUpTo(baselines[binId], telemetry, sensitivity, k)
      {
        var metric := Metrics[k];
        var value := ReadingOf(telemetry, metric);
        var baseline := baselines[binId][metric];
        if value.Some? && value.value >= 0.0 && baseline.std != 0.0 && |baseline.values| >= BaselineMinimum {
          var zScore := Abs(value.value - baseline.mean) / baseline.std;
          if zScore > sensitivity {
            var anomaly := Anomaly(metric, value.value,
                                   baseline.mean - sensitivity * baseline.std,
                                   baseline.mean + sensitivity * baseline.std,
                                   zScore, Severity(zScore));
            ghost var got := AnomalyFor(metric, baseline, value, sensitivity);
            assert got.value.expectedLow == anomaly.expectedLow && got.value.expectedHigh == anomaly.expectedHigh;
            assert got == Some(anomaly);
            anomalies := anomalies + [anomaly];
          } else {
            assert AnomalyFor(metric, baseline, value, sensitivity) == None;
          }
        } else {
          assert AnomalyFor(metric, baseline, value, sensitivity) == None;
        }
      }
    }
  }

  // ---------------------------------------------------------------- collection decisions

  /** Python's `int()` on a real: truncation toward zero. */
  function Trunc(x: real): (r: int)
    ensures x >= 0.0 ==> r as real <= x < r as real + 1.0
    ensures x < 0.0 ==> r as real - 1.0 < x <= r as real
  {
    if x >= 0.0 then x.Floor else -((-x).Floor)
  }

  /** The `recommended_time` of a decision. */
  datatype CollectTime = Now | Unknown | Within(hours: int) | In(hours: int)

  datatype Advice = Advice(shouldCollect: bool, urgency: string, recommendedTime: CollectTime, prediction: Option<Prediction>)

  /** The decision table of `should_collect_now`: a bin at or over the
      threshold is collected now; without a prediction it waits; one
      predicted full within 24 hours is collected within that many whole
      hours; any other waits 12 hours less than its time to full. */
  function Decide(currentFill: int, threshold: int, prediction: Option<Prediction>): (a: Advice)
    ensures a.shouldCollect <==> currentFill >= threshold || (prediction.Some? && prediction.value.hoursUntilFull <= 24.0)
    ensures a.urgency == "high" <==> currentFill >= threshold
    ensures a.urgency == "medium" <==> currentFill < threshold && prediction.Some? && prediction.value.hoursUntilFull <= 24.0
    ensures a.recommendedTime == Now <==> currentFill >= threshold
    ensures a.recommendedTime == Unknown <==> currentFill < threshold && prediction.None?
    ensures a.recommendedTime.Within? ==> a.recommendedTime.hours <= 24
    ensures a.prediction.Some? <==> currentFill < threshold && prediction.Some?
    ensures a.prediction.Some? ==> a.prediction == prediction
    ensures a.urgency == "low" <==> !a.shouldCollect
    ensures a.recommendedTime.Within? ==>
              prediction.Some? && a.recommendedTime.hours == Trunc(prediction.value.hoursUntilFull)
    ensures a.recommendedTime.In? <==>
              currentFill < threshold && prediction.Some? && prediction.value.hoursUntilFull > 24.0
    ensures a.recommendedTime.In? ==>
              a.recommendedTime.hours == Trunc(prediction.value.hoursUntilFull - 12.0) && a.recommendedTime.hours >= 12
  {
    if currentFill >= threshold then Advice(true, "high", Now, None)
    else if prediction.None? then Advice(false, "low", Unknown, None)
    else
      var hours := prediction.value.hoursUntilFull;
      if hours <= 24.0 then Advice(true, "medium", Within(Trunc(hours)), prediction)
      else Advice(false, "low", In(Trunc(hours - 12.0)), prediction)
  }

  /** An entry of `optimize_collection_route`'s input: a bin id and its
      fill level, absent counting as 0. */
  datatype BinFill = BinFill(id: string, fillLevelPercent: Option<int>)

  function FillOf(b: BinFill): int {
    if b.fillLevelPercent.Some? then b.fillLevelPercent.value else 0
  }

  /** The urgency of one bin: its fill, raised by twice the hours short of
      a day when it is predicted full within 24 hours. */
  function UrgencyScore(history: map<string, seq<DataPoint>>, b: BinFill, now: int): real {
    var prediction := PredictionOf(history, b.id, FillOf(b), now);
    if prediction.Some? && prediction.value.hoursUntilFull <= 24.0
    then FillOf(b) as real + (24.0 - prediction.value.hoursUntilFull) * 2.0
    else FillOf(b) as real
  }

  lemma UrgencyBoost(history: map<string, seq<DataPoint>>, b: BinFill, now: int)
    ensures UrgencyScore(history, b, now) >= FillOf(b) as real
    ensures UrgencyScore(history, b, now) > FillOf(b) as real <==>
              PredictionOf(history, b.id, FillOf(b), now).Some? && PredictionOf(history, b.id, FillOf(b), now).value.hoursUntilFull < 24.0
  {
  }

  /** The `(bin_id, score)` pairs in input order. */
  function Scored(history: map<string, seq<DataPoint>>, bins: seq<BinFill>, now: int): (r: seq<(string, real)>)
    ensures |r| == |bins|
    ensures forall k :: 0 <= k < |bins| ==> r[k] == (bins[k].id, UrgencyScore(history, bins[k], now))
  {
    seq(|bins|, k requires 0 <= k < |bins| => (bins[k].id, UrgencyScore(history, bins[k], now)))
  }

  function Score(p: (string, real)): real { p.1 }

  function Names(pairs: seq<(string, real)>): (r: seq<string>)
    ensures |r| == |pairs|
    ensures forall k :: 0 <= k < |pairs| ==> r[k] == pairs[k].0
  {
    seq(|pairs|, k requires 0 <= k < |pairs| => pairs[k].0)
  }

  /** The scored bins, most urgent first, ties in input order. */
  function Ranked(history: map<string, seq<DataPoint>>, bins: seq<BinFill>, now: int): seq<(string, real)> {
    Sorting.SortDesc(Scored(history, bins, now), Score)
  }

  /** `optimize_collection_route`'s answer. */
  function CollectionOrder(history: map<string, seq<DataPoint>>, bins: seq<BinFill>, now: int): seq<string> {
    Names(Ranked(history, bins, now))
  }

  function Ids(bins: seq<BinFill>): (r: seq<string>)
    ensures |r| == |bins|
    ensures forall k :: 0 <= k < |bins| ==> r[k] == bins[k].id
  {
    seq(|bins|, k requires 0 <= k < |bins| => bins[k].id)
  }

  /** Projecting two permutations of each other gives permutations. */
  lemma {:induction false} NamesPermutation(a: seq<(string, real)>, b: seq<(string, real)>)
    requires multiset(a) == multiset(b)
    ensures multiset(Names(a)) == multiset(Names(b))
    decreases |a|
  {
    if a != [] {
      var x := a[|a| - 1];
      assert x in multiset(b);
      var i :| 0 <= i < |b| && b[i] == x;
      var a' := a[..|a| - 1];
      var b' := RemoveAt(b, i);
      NamesRemoveLast(a);
      NamesRemove(b, i);
      RemoveMatching(a, b, i);
      NamesPermutation(a', b');
    }
  }

  lemma NamesRemoveLast(a: seq<(string, real)>)
    requires a != []
    ensures multiset(Names(a)) == multiset(Names(a[..|a| - 1])) + multiset{a[|a| - 1].0}
  {
    assert Names(a) == Names(a[..|a| - 1]) + [a[|a| - 1].0];
  }

  lemma NamesRemove(b: seq<(string, real)>, i: nat)
    requires i < |b|
    ensures multiset(Names(b)) == multiset(Names(RemoveAt(b, i))) + multiset{b[i].0}
  {
    assert Names(RemoveAt(b, i)) == RemoveAt(Names(b), i);
    RemoveAtFacts(Names(b), i);
  }

  /** The order visits every input bin exactly once; the scores behind it
      never increase; equal scores keep their input order. */
  lemma CollectionOrderFacts(history: map<string, seq<DataPoint>>, bins: seq<BinFill>, now: int)
    ensures multiset(CollectionOrder(history, bins, now)) == multiset(Ids(bins))
    ensures |Ranked(history, bins, now)| == |bins|
    ensures forall k :: 0 <= k < |bins| ==> CollectionOrder(history, bins, now)[k] == Ranked(history, bins, now)[k].0
    ensures Sorting.NonIncreasing(Ranked(history, bins, now), Score)
    ensures forall v :: Sorting.WithKey(Ranked(history, bins, now), Score, v) == Sorting.WithKey(Scored(history, bins, now), Score, v)
  {
    var scored := Scored(history, bins, now);
    var ranked := Ranked(history, bins, now);
    NamesPermutation(ranked, scored);
    assert Names(scored) == Ids(bins);
    assert |multiset(ranked)| == |multiset(scored)|;
    Sorting.SortDescSorted(scored, Score);
    forall v ensures Sorting.WithKey(ranked, Score, v) == Sorting.WithKey(scored, Score, v) {
      Sorting.SortDescStable(scored, Score, v);
    }
  }

  class CollectionOptimizer {
    var predictor: BinFillPredictor

    /** The optimiser starts with a predictor of its own. */
    constructor ()
      ensures fresh(predictor) && predictor.historicalData == map[] && predictor.order == []
    {
      predictor := new BinFillPredictor();
    }

    /** `should_collect_now`: the predictor is consulted only below the
        threshold. */
    method ShouldCollectNow(binId: string, currentFill: int, threshold: int, now: int) returns (advice: Advice)
      ensures advice == Decide(currentFill, threshold, PredictionOf(predictor.historicalData, binId, currentFill, now))
    {
      if currentFill >= threshold {
        return Advice(true, "high", Now, None);
      }
      var prediction := predictor.PredictFullTime(binId, currentFill, now);
      if prediction.None? {
        return Advice(false, "low", Unknown, None);
      }
      var hoursUntilFull := prediction.value.hoursUntilFull;
      if hoursUntilFull <= 24.0 {
        return Advice(true, "medium", Within(Trunc(hoursUntilFull)), prediction);
      }
      return Advice(false, "low", In(Trunc(hoursUntilFull - 12.0)), prediction);
    }

    /** The score of one bin inside `optimize_collection_route`'s loop. */
    method Urgency(b: BinFill, now: int) returns (score: real)
      ensures score == UrgencyScore(predictor.historicalData, b, now)
    {
      var currentFill := FillOf(b);
      score := currentFill as real;
      var prediction := predictor.PredictFullTime(b.id, currentFill, now);
      if prediction.Some? {
        var hoursUntilFull := prediction.value.hoursUntilFull;
        if hoursUntilFull <= 24.0 {
          score := score + (24.0 - hoursUntilFull) * 2.0;
        }
      }
    }

    /** `optimize_collection_route`: score every bin, sort by score with
        the most urgent first, keep the ids. */
    method OptimizeCollectionRoute(bins: seq<BinFill>, now: int) returns (ids: seq<string>)
      ensures ids == CollectionOrder(predictor.historicalData, bins, now)
    {
      var urgencyScores: seq<(string, real)> := [];
      for k := 0 to |bins|
        invariant urgencyScores == Scored(predictor.historicalData, bins[..k], now)
      {
        var score := Urgency(bins[k], now);
        ghost var before := Scored(predictor.historicalData, bins[..k], now);
        assert Scored(predictor.historicalData, bins[..k + 1], now) == before + [(bins[k].id, score)];
        urgencyScores := urgencyScores + [(bins[k].id, score)];
      }
      assert bins[..|bins|] == bins;
      urgencyScores := Sorting.SortDesc(urgencyScores, Score);
      ids := [];
      for k := 0 to |urgencyScores|
        invariant ids == Names(urgencyScores[..k])
      {
        ids := ids + [urgencyScores[k].0];
      }
      assert urgencyScores[..|urgencyScores|] == urgencyScores;
    }
  }

  // ---------------------------------------------------------------- the service

  /** The counters `get_statistics` reports. */
  datatype Statistics = Statistics(totalBinsTracked: nat, totalDataPoints: nat, binsWithPredictions: nat, predictionCoverage: real)

  function PointsOf(history: map<string, seq<DataPoint>>, ids: seq<string>): nat {
    if ids == [] then 0
    else PointsOf(history, ids[..|ids| - 1]) + (if ids[|ids| - 1] in history then |history[ids[|ids| - 1]]| else 0)
  }

  function PredictableOf(history: map<string, seq<DataPoint>>, ids: seq<string>): nat {
    if ids == [] then 0
    else PredictableOf(history, ids[..|ids| - 1]) + (if FillRate(history, ids[|ids| - 1]).Some? then 1 else 0)
  }

  function StatisticsOf(history: map<string, seq<DataPoint>>, order: seq<string>): Statistics {
    var total := |order|;
    var withPredictions := PredictableOf(history, order);
    Statistics(total, PointsOf(history, order), withPredictions,
               if total > 0 then withPredictions as real / total as real * 100.0 else 0.0)
  }

  lemma {:induction false} PredictableBound(history: map<string, seq<DataPoint>>, ids: seq<string>)
    ensures PredictableOf(history, ids) <= |ids|
    decreases |ids|
  {
    if ids != [] {
      PredictableBound(history, ids[..|ids| - 1]);
    }
  }

  lemma {:induction false} PointsBound(history: map<string, seq<DataPoint>>, ids: seq<string>)
    requires forall k :: 0 <= k < |ids| ==> ids[k] in history && 0 < |history[ids[k]]| <= HistoryLimit
    ensures |ids| <= PointsOf(history, ids) <= HistoryLimit * |ids|
    decreases |ids|
  {
    if ids != [] {
      PointsBound(history, ids[..|ids| - 1]);
    }
  }

  /** Predictions never cover more bins than are tracked, so the coverage
      is a percentage; every tracked bin holds between 1 and 100 readings. */
  lemma StatisticsBounds(history: map<string, seq<DataPoint>>, order: seq<string>)
    requires forall id :: id in order ==> id in history && 0 < |history[id]| <= HistoryLimit
    ensures StatisticsOf(history, order).binsWithPredictions <= StatisticsOf(history, order).totalBinsTracked
    ensures 0.0 <= StatisticsOf(history, order).predictionCoverage <= 100.0
    ensures StatisticsOf(history, order).totalBinsTracked <= StatisticsOf(history, order).totalDataPoints
              <= HistoryLimit * StatisticsOf(history, order).totalBinsTracked
  {
    PredictableBound(history, order);
    PointsBound(history, order);
    if order != [] {
      Percentage(PredictableOf(history, order) as real, |order| as real);
    }
  }

  lemma Percentage(part: real, whole: real)
    requires 0.0 <= part <= whole && whole > 0.0
    ensures 0.0 <= part / whole * 100.0 <= 100.0
  {
    assert part / whole <= 1.0;
  }

  /** The service: one fill predictor shared with the collection optimiser,
      and an anomaly detector with sensitivity 2.5. */
  class MLPredictionService {
    const fillPredictor: BinFillPredictor
    const anomalyDetector: AnomalyDetector
    const collectionOptimizer: CollectionOptimizer

    ghost predicate Valid()
      reads this, fillPredictor, anomalyDetector, collectionOptimizer
    {
      && collectionOptimizer.predictor == fillPredictor
      && fillPredictor.Valid()
      && anomalyDetector.Valid()
      && anomalyDetector.sensitivity == 2.5
    }

    constructor (stdDev: seq<real> -> real)
      ensures Valid()
      ensures fresh(fillPredictor) && fresh(anomalyDetector) && fresh(collectionOptimizer)
      ensures fillPredictor.historicalData == map[] && anomalyDetector.baselines == map[]
    {
      var predictor := new BinFillPredictor();
      var detector := new AnomalyDetector(2.5, stdDev);
      var optimizer := new CollectionOptimizer();
      optimizer.predictor := predictor;
      fillPredictor := predictor;
      anomalyDetector := detector;
      collectionOptimizer := optimizer;
    }

    /** `ingest_telemetry`: a present, non-negative fill level becomes a
        reading at time `now`; every message updates the baselines. */
    method IngestTelemetry(binId: string, telemetry: Telemetry, now: int)
      requires Valid()
      modifies fillPredictor, anomalyDetector
      ensures Valid()
      ensures fillPredictor.historicalData ==
                if telemetry.fillLevelPercent.Some? && telemetry.fillLevelPercent.value >= 0
                then old(fillPredictor.historicalData)[binId := LastN(old(fillPredictor.Readings(binId)) + [DataPoint(now, telemetry.fillLevelPercent.value)], HistoryLimit)]
                else old(fillPredictor.historicalData)
      ensures anomalyDetector.baselines == UpdatedBaselines(old(anomalyDetector.baselines), binId, telemetry, anomalyDetector.stdDev)
    {
      var fillLevel := telemetry.fillLevelPercent;
      if fillLevel.Some? && fillLevel.value >= 0 {
        fillPredictor.AddDataPoint(binId, fillLevel.value, now);
      }
      anomalyDetector.UpdateBaseline(binId, telemetry);
    }

    /** `get_statistics`: one pass over the tracked bins in insertion order. */
    method GetStatistics() returns (stats: Statistics)
      requires Valid()
      ensures stats == StatisticsOf(fillPredictor.historicalData, fillPredictor.order)
    {
      var order := fillPredictor.order;
      var totalDataPoints := 0;
      var binsWithPredictions := 0;
      for k := 0 to |order|
        invariant totalDataPoints == PointsOf(fillPredictor.historicalData, order[..k])
        invariant binsWithPredictions == PredictableOf(fillPredictor.historicalData, order[..k])
      {
        assert order[..k + 1][..k] == order[..k];
        totalDataPoints := totalDataPoints + |fillPredictor.historicalData[order[k]]|;
        var rate := fillPredictor.CalculateFillRate(order[k]);
        if rate.Some? {
          binsWithPredictions := binsWithPredictions + 1;
        }
      }
      assert order[..|order|] == order;
      var totalBins := |order|;
      var coverage := if totalBins > 0 then binsWithPredictions as real / totalBins as real * 100.0 else 0.0;
      stats := Statistics(totalBins, totalDataPoints, binsWithPredictions, coverage);
    }
  }
}
