/** `backend/routers/predictions.py`: the endpoints that read the shared
    prediction service. Each handler takes the service's fill predictor and
    the bin table explicitly; `now` is the clock reading the predictor would
    take itself. */
module PredictionsRouter {
  import opened Common
  import opened Store
  import Sorting
  import opened MlPredictor

  // ---------------------------------------------------------------- one bin

  /** `predict_fill_time`: 404 for an unknown bin, 400 when the predictor
      has no prediction for it. */
  function PredictFillTimeOf(rows: seq<BinRow>, history: map<string, seq<DataPoint>>, binId: string, now: int): Result<Prediction> {
    match IndexOf(rows, BinKey, binId)
    case None => Err(NotFound)
    case Some(k) =>
      match PredictionOf(history, binId, rows[k].fillLevelPercent, now)
      case None => Err(BadRequest)
      case Some(p) => Ok(p)
  }

  method PredictFillTime(db: Database, predictor: BinFillPredictor, binId: string, now: int) returns (r: Result<Prediction>)
    ensures r == PredictFillTimeOf(db.bins, predictor.historicalData, binId, now)
    ensures r == Err(NotFound) <==> IndexOf(db.bins, BinKey, binId).None?
    ensures r == Err(BadRequest) <==> IndexOf(db.bins, BinKey, binId).Some? && FillRate(predictor.historicalData, binId).None?
    ensures r.Ok? ==> r.value.binId == binId && r.value.currentFill == db.bins[IndexOf(db.bins, BinKey, binId).value].fillLevelPercent
  {
    var k := IndexOf(db.bins, BinKey, binId);
    if k.None? {
      return Err(NotFound);
    }
    var prediction := predictor.PredictFullTime(binId, db.bins[k.value].fillLevelPercent, now);
    PredictionFacts(predictor.historicalData, binId, db.bins[k.value].fillLevelPercent, now);
    if prediction.None? {
      return Err(BadRequest);
    }
    return Ok(prediction.value);
  }

  // ---------------------------------------------------------------- usage pattern

  datatype UsagePattern = UsagePattern(binId: string, hourlyFillRates: seq<(int, real)>, peakHours: seq<(int, real)>)

  function Rate(entry: (int, real)): real { entry.1 }

  /** The first three entries of the pattern sorted by rate, highest first. */
  function PeakHours(pattern: seq<(int, real)>): (r: seq<(int, real)>)
    ensures |r| == if |pattern| < 3 then |pattern| else 3
  {
    var sorted := Sorting.SortDesc(pattern, Rate);
    assert |sorted| == |pattern| by { assert |multiset(sorted)| == |multiset(pattern)|; }
    sorted[..if |sorted| < 3 then |sorted| else 3]
  }

  /** The peak hours are a leading part of the stably sorted pattern: taken
      from it without repetition, and for each rate the earliest entries. */
  lemma PeakHoursKept(pattern: seq<(int, real)>)
    ensures multiset(PeakHours(pattern)) <= multiset(pattern)
    ensures forall v :: Sorting.WithKey(PeakHours(pattern), Rate, v) <= Sorting.WithKey(pattern, Rate, v)
  {
    var sorted := Sorting.SortDesc(pattern, Rate);
    var peak := PeakHours(pattern);
    assert peak == sorted[..|peak|];
    assert sorted == peak + sorted[|peak|..];
    assert multiset(sorted) == multiset(peak) + multiset(sorted[|peak|..]);
    forall v ensures Sorting.WithKey(peak, Rate, v) <= Sorting.WithKey(pattern, Rate, v) {
      Sorting.WithKeyPrefix(sorted, Rate, v, |peak|);
      Sorting.SortDescStable(pattern, Rate, v);
    }
  }

  /** The peak hours are taken from the pattern without repetition, in
      non-increasing rate order; no entry left out has a higher rate than any
      entry kept, and among entries of equal rate the earliest are kept, in
      their pattern order (the stable sort). */
  lemma PeakHoursFacts(pattern: seq<(int, real)>)
    ensures forall i :: 0 <= i < |PeakHours(pattern)| ==> PeakHours(pattern)[i] in pattern
    ensures multiset(PeakHours(pattern)) <= multiset(pattern)
    ensures Sorting.NonIncreasing(PeakHours(pattern), Rate)
    ensures forall e, i :: e in pattern && e !in PeakHours(pattern) && 0 <= i < |PeakHours(pattern)| ==>
              Rate(e) <= Rate(PeakHours(pattern)[i])
    ensures forall v :: Sorting.WithKey(PeakHours(pattern), Rate, v) <= Sorting.WithKey(pattern, Rate, v)
  {
    PeakHoursKept(pattern);
    var sorted := Sorting.SortDesc(pattern, Rate);
    var peak := PeakHours(pattern);
    Sorting.PermutationMembers(sorted, pattern);
    Sorting.PermutationMembers(pattern, sorted);
    Sorting.SortDescSorted(pattern, Rate);
    assert peak == sorted[..|peak|];
    forall e | e in pattern && e !in peak ensures forall i :: 0 <= i < |peak| ==> Rate(e) <= Rate(peak[i]) {
      Sorting.LeftOutNoHigher(sorted, Rate, |peak|, e);
    }
  }

  /** `get_usage_pattern`'s answer: 400 when the pattern is empty. */
  function UsagePatternOf(binId: string, pattern: seq<(int, real)>): (r: Result<UsagePattern>)
    ensures r.Err? <==> pattern == []
    ensures r.Err? ==> r.error == BadRequest
    ensures r.Ok? ==> r.value.hourlyFillRates == pattern && 0 < |r.value.peakHours| <= 3
  {
    if pattern == [] then Err(BadRequest) else Ok(UsagePattern(binId, pattern, PeakHours(pattern)))
  }

  method GetUsagePattern(predictor: BinFillPredictor, binId: string) returns (r: Result<UsagePattern>)
    requires predictor.Valid()
    ensures r == UsagePatternOf(binId, HourlyPattern(predictor.historicalData, binId))
  {
    var pattern := predictor.GetHourlyPattern(binId);
    if pattern == [] {
      return Err(BadRequest);
    }
    var peakHours := Sorting.SortDesc(pattern, Rate);
    assert |peakHours| == |pattern| by { assert |multiset(peakHours)| == |multiset(pattern)|; }
    if |peakHours| > 3 {
      peakHours := peakHours[..3];
    } else {
      assert peakHours == peakHours[..|peakHours|];
    }
    assert peakHours == PeakHours(pattern);
    return Ok(UsagePattern(binId, pattern, peakHours));
  }

  // ---------------------------------------------------------------- all bins

  /** The predictions of the bins in table order, skipping bins without one. */
  function Available(rows: seq<BinRow>, history: map<string, seq<DataPoint>>, now: int): seq<Prediction> {
    if rows == [] then []
    else
      var last := rows[|rows| - 1];
      var p := PredictionOf(history, last.id, last.fillLevelPercent, now);
      Available(rows[..|rows| - 1], history, now) + (if p.Some? then [p.value] else [])
  }

  /** Some bin of `rows` predicts `p`. */
  ghost predicate SomeBinPredicts(rows: seq<BinRow>, history: map<string, seq<DataPoint>>, now: int, p: Prediction) {
    exists b :: b in rows && PredictionOf(history, b.id, b.fillLevelPercent, now) == Some(p)
  }

  lemma SomeBinPredictsStep(rows: seq<BinRow>, history: map<string, seq<DataPoint>>, now: int, p: Prediction)
    requires rows != []
    ensures SomeBinPredicts(rows, history, now, p) <==>
              SomeBinPredicts(rows[..|rows| - 1], history, now, p) ||
              PredictionOf(history, rows[|rows| - 1].id, rows[|rows| - 1].fillLevelPercent, now) == Some(p)
  {
    var f := (b: BinRow) => PredictionOf(history, b.id, b.fillLevelPercent, now);
    SomeImageStep(rows, f, Some(p));
  }

  /** There is at most one prediction per bin, and a prediction is listed
      exactly when some bin has it. */
  lemma {:induction false} AvailableFacts(rows: seq<BinRow>, history: map<string, seq<DataPoint>>, now: int)
    ensures |Available(rows, history, now)| <= |rows|
    ensures forall p :: p in Available(rows, history, now) <==> SomeBinPredicts(rows, history, now, p)
    decreases |rows|
  {
    if rows != [] {
      var init := rows[..|rows| - 1];
      var last := rows[|rows| - 1];
      var q := PredictionOf(history, last.id, last.fillLevelPercent, now);
      var tail := if q.Some? then [q.value] else [];
      assert Available(rows, history, now) == Available(init, history, now) + tail;
      AvailableFacts(init, history, now);
      forall p ensures p in Available(rows, history, now) <==> SomeBinPredicts(rows, history, now, p) {
        SomeBinPredictsStep(rows, history, now, p);
        assert p in tail <==> q == Some(p);
      }
    }
  }

  datatype AllPredictions = AllPredictions(totalBins: nat, predictionsAvailable: nat, predictions: seq<Prediction>)

  /** `get_all_predictions`. */
  method GetAllPredictions(db: Database, predictor: BinFillPredictor, now: int) returns (r: AllPredictions)
    ensures r.totalBins == |db.bins|
    ensures r.predictions == Available(db.bins, predictor.historicalData, now)
    ensures r.predictionsAvailable == |r.predictions| <= r.totalBins
  {
    var bins := db.bins;
    var predictions: seq<Prediction> := [];
    for k := 0 to |bins|
      invariant predictions == Available(bins[..k], predictor.historicalData, now)
    {
      assert bins[..k + 1][..k] == bins[..k];
      var prediction := predictor.PredictFullTime(bins[k].id, bins[k].fillLevelPercent, now);
      if prediction.Some? {
        predictions := predictions + [prediction.value];
      }
    }
    assert bins[..|bins|] == bins;
    AvailableFacts(bins, predictor.historicalData, now);
    return AllPredictions(|bins|, |predictions|, predictions);
  }

  // ---------------------------------------------------------------- predicted alerts

  datatype PredictedAlert = PredictedAlert(
    binId: string,
    location: string,
    currentFill: int,
    hoursUntilFull: real,
    predictedTime: real,
    urgency: string)

  /** The alert for one bin, when it is predicted full within the horizon;
      within six hours it is urgent. */
  function AlertFor(row: BinRow, history: map<string, seq<DataPoint>>, hoursAhead: int, now: int): Option<PredictedAlert> {
    var p := PredictionOf(history, row.id, row.fillLevelPercent, now);
    if p.Some? && p.value.hoursUntilFull <= hoursAhead as real then
      Some(PredictedAlert(row.id, row.location, row.fillLevelPercent, p.value.hoursUntilFull, p.value.predictedFullTime,
                          if p.value.hoursUntilFull <= 6.0 then "high" else "medium"))
    else None
  }

  /** The alerts in table order, before sorting. */
  function Candidates(rows: seq<BinRow>, history: map<string, seq<DataPoint>>, hoursAhead: int, now: int): seq<PredictedAlert> {
    if rows == [] then []
    else
      var a := AlertFor(rows[|rows| - 1], history, hoursAhead, now);
      Candidates(rows[..|rows| - 1], history, hoursAhead, now) + (if a.Some? then [a.value] else [])
  }

  lemma CandidatesStep(rows: seq<BinRow>, history: map<string, seq<DataPoint>>, hoursAhead: int, now: int, k: nat)
    requires k < |rows|
    ensures AlertFor(rows[k], history, hoursAhead, now).None? ==>
              Candidates(rows[..k + 1], history, hoursAhead, now) == Candidates(rows[..k], history, hoursAhead, now)
    ensures AlertFor(rows[k], history, hoursAhead, now).Some? ==>
              Candidates(rows[..k + 1], history, hoursAhead, now)
                == Candidates(rows[..k], history, hoursAhead, now) + [AlertFor(rows[k], history, hoursAhead, now).value]
  {
    assert rows[..k + 1][..k] == rows[..k];
  }

  /** Sorting ascending by hours is the stable descending sort on the
      negated hours. */
  function Soonest(a: PredictedAlert): real { -a.hoursUntilFull }

  function PredictedAlertsOf(rows: seq<BinRow>, history: map<string, seq<DataPoint>>, hoursAhead: int, now: int): seq<PredictedAlert> {
    Sorting.SortDesc(Candidates(rows, history, hoursAhead, now), Soonest)
  }

  /** Every candidate is due within the horizon and urgent exactly when due
      within six hours; every bin so due has one. */
  lemma {:induction false} CandidatesFacts(rows: seq<BinRow>, history: map<string, seq<DataPoint>>, hoursAhead: int, now: int)
    ensures forall a :: a in Candidates(rows, history, hoursAhead, now) ==>
              a.hoursUntilFull <= hoursAhead as real && (a.urgency == "high" <==> a.hoursUntilFull <= 6.0)
    ensures forall k :: 0 <= k < |rows| && AlertFor(rows[k], history, hoursAhead, now).Some? ==>
              AlertFor(rows[k], history, hoursAhead, now).value in Candidates(rows, history, hoursAhead, now)
    decreases |rows|
  {
    if rows != [] {
      var init := rows[..|rows| - 1];
      CandidatesFacts(init, history, hoursAhead, now);
      forall k | 0 <= k < |rows| - 1 ensures rows[k] == init[k] { }
    }
  }

  /** The answer lists exactly the candidates, soonest first, and bins due
      at the same hour keep their table order. */
  lemma PredictedAlertsFacts(rows: seq<BinRow>, history: map<string, seq<DataPoint>>, hoursAhead: int, now: int)
    ensures multiset(PredictedAlertsOf(rows, history, hoursAhead, now)) == multiset(Candidates(rows, history, hoursAhead, now))
    ensures forall i, j :: 0 <= i < j < |PredictedAlertsOf(rows, history, hoursAhead, now)| ==>
              PredictedAlertsOf(rows, history, hoursAhead, now)[i].hoursUntilFull <= PredictedAlertsOf(rows, history, hoursAhead, now)[j].hoursUntilFull
    ensures forall v :: Sorting.WithKey(PredictedAlertsOf(rows, history, hoursAhead, now), Soonest, v)
                          == Sorting.WithKey(Candidates(rows, history, hoursAhead, now), Soonest, v)
  {
    var candidates := Candidates(rows, history, hoursAhead, now);
    Sorting.SortDescSorted(candidates, Soonest);
    forall v ensures Sorting.WithKey(PredictedAlertsOf(rows, history, hoursAhead, now), Soonest, v) == Sorting.WithKey(candidates, Soonest, v) {
      Sorting.SortDescStable(candidates, Soonest, v);
    }
  }

  datatype PredictedAlerts = PredictedAlerts(timeframeHours: int, alertsCount: nat, alerts: seq<PredictedAlert>)

  /** `get_predicted_alerts`. */
  method GetPredictedAlerts(db: Database, predictor: BinFillPredictor, hoursAhead: int, now: int) returns (r: PredictedAlerts)
    ensures r.timeframeHours == hoursAhead
    ensures r.alerts == PredictedAlertsOf(db.bins, predictor.historicalData, hoursAhead, now)
    ensures r.alertsCount == |r.alerts|
  {
    var bins := db.bins;
    var predictedAlerts: seq<PredictedAlert> := [];
    for k := 0 to |bins|
      invariant predictedAlerts == Candidates(bins[..k], predictor.historicalData, hoursAhead, now)
    {
      CandidatesStep(bins, predictor.historicalData, hoursAhead, now, k);
      var prediction := predictor.PredictFullTime(bins[k].id, bins[k].fillLevelPercent, now);
      if prediction.Some? && prediction.value.hoursUntilFull <= hoursAhead as real {
        var hours := prediction.value.hoursUntilFull;
        predictedAlerts := predictedAlerts + [PredictedAlert(bins[k].id, bins[k].location, bins[k].fillLevelPercent,
                                                             hours, prediction.value.predictedFullTime,
                                                             if hours <= 6.0 then "high" else "medium")];
      }
    }
    assert bins[..|bins|] == bins;
    predictedAlerts := Sorting.SortDesc(predictedAlerts, Soonest);
    return PredictedAlerts(hoursAhead, |predictedAlerts|, predictedAlerts);
  }
}
