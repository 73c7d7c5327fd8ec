/** `backend/simulate_ai_alerts.py`: the probability model of the AI alert simulator: for one alert type, one
    bin and one hour of the day, the chance that the simulator raises an alert.
    The draw itself, the HTTP calls and the printing are not part of this model. */
module AlertSimulation {
  import opened Common

  /** One entry of the simulator's alert-type table. */
  datatype AlertSpec = AlertSpec(probability: real, timeDependent: bool, fillDependent: bool)

  /** The alert-type table, keyed by the type's name. */
  const AlertTypes: map<string, AlertSpec> := map[
    "fire" := AlertSpec(0.001, true, false),
    "overflow" := AlertSpec(0.05, false, true),
    "vandalism" := AlertSpec(0.003, true, false),
    "illegal_dumping" := AlertSpec(0.008, true, false),
    "odor_complaint" := AlertSpec(0.01, true, true),
    "pest_activity" := AlertSpec(0.015, true, true),
    "sensor_malfunction" := AlertSpec(0.005, false, false)
  ]

  /** Hours counted as night for vandalism and illegal dumping. */
  predicate Night(hour: int) { 22 <= hour || hour <= 5 }

  /** The afternoon window of odour complaints. */
  predicate Afternoon(hour: int) { 12 <= hour <= 18 }

  /** The morning and evening windows of pest activity. */
  predicate PestHours(hour: int) { 5 <= hour <= 8 || 18 <= hour <= 22 }

  /** The time-of-day multiplier of a time-dependent type; a type with no
      rule of its own (fire) keeps the neutral factor. */
  function TimeFactor(alertType: string, hour: int): (f: real)
    ensures f > 0.0
  {
    if alertType == "vandalism" || alertType == "illegal_dumping" then
      (if Night(hour) then 3.0 else 0.5)
    else if alertType == "odor_complaint" then
      (if Afternoon(hour) then 2.5 else 1.0)
    else if alertType == "pest_activity" then
      (if PestHours(hour) then 2.0 else 1.0)
    else 1.0
  }

  /** The fill-level multiplier of a fill-dependent type. */
  function FillFactor(alertType: string, fill: int): (f: real)
    ensures f > 0.0
  {
    if alertType == "overflow" then
      if fill >= 95 then 20.0
      else if fill >= 85 then 10.0
      else if fill >= 75 then 3.0
      else 0.1
    else if alertType == "odor_complaint" || alertType == "pest_activity" then
      if fill >= 80 then 3.0
      else if fill >= 60 then 1.5
      else 1.0
    else 1.0
  }

  /** The fill level read from the bin record: a missing field counts as 0. */
  function FillOf(fillLevel: Option<int>): int {
    if fillLevel.Some? then fillLevel.value else 0
  }

  /** The alert probability for a bin with the given fill field at the given
      hour; a type missing from the table is the lookup failure (`None`). */
  function AlertProbability(alertType: string, fillLevel: Option<int>, hour: int): (r: Option<real>)
    ensures r.Some? <==> alertType in AlertTypes
    ensures r.Some? ==> r.value >= 0.0
  {
    if alertType !in AlertTypes then None
    else
      var spec := AlertTypes[alertType];
      var timed := if spec.timeDependent then TimeFactor(alertType, hour) else 1.0;
      var multiplier := if spec.fillDependent then timed * FillFactor(alertType, FillOf(fillLevel)) else timed;
      Some(spec.probability * multiplier)
  }

  /** Fire and sensor malfunctions ignore both the hour and the fill level. */
  lemma BaseOnly(fillLevel: Option<int>, hour: int)
    ensures AlertProbability("fire", fillLevel, hour) == Some(0.001)
    ensures AlertProbability("sensor_malfunction", fillLevel, hour) == Some(0.005)
  {
  }

  /** Vandalism and illegal dumping are three times as likely at night and
      half as likely by day, whatever the fill level. */
  lemma NightRule(alertType: string, fillLevel: Option<int>, hour: int)
    requires alertType == "vandalism" || alertType == "illegal_dumping"
    ensures AlertProbability(alertType, fillLevel, hour)
         == Some(AlertTypes[alertType].probability * (if Night(hour) then 3.0 else 0.5))
  {
  }

  /** Odour complaints and pest activity multiply a time factor and a fill factor. */
  lemma OdorPestRule(alertType: string, fill: int, hour: int)
    requires alertType == "odor_complaint" || alertType == "pest_activity"
    ensures AlertProbability(alertType, Some(fill), hour)
         == Some(AlertTypes[alertType].probability
                 * ((if alertType == "odor_complaint" then (if Afternoon(hour) then 2.5 else 1.0)
                     else (if PestHours(hour) then 2.0 else 1.0))
                    * (if fill >= 80 then 3.0 else if fill >= 60 then 1.5 else 1.0)))
  {
  }

  /** Overflow follows four fill tiers and ignores the hour; at the top tier
      the probability reaches 1, so nothing caps it. */
  lemma OverflowTiers(fill: int, hour: int)
    ensures AlertProbability("overflow", Some(fill), hour)
         == Some(if fill >= 95 then 1.0 else if fill >= 85 then 0.5 else if fill >= 75 then 0.15 else 0.005)
  {
  }

  /** A bin record without a fill level behaves as an empty bin. */
  lemma MissingFillIsEmpty(alertType: string, hour: int)
    ensures AlertProbability(alertType, None, hour) == AlertProbability(alertType, Some(0), hour)
  {
  }

  /** A fuller bin never makes an alert less likely. */
  lemma FillFactorMonotone(alertType: string, low: int, high: int)
    requires low <= high
    ensures FillFactor(alertType, low) <= FillFactor(alertType, high)
  {
  }

  /** For a fixed type and hour, the probability does not decrease as the fill level rises. */
  lemma FillMonotone(alertType: string, low: int, high: int, hour: int)
    requires alertType in AlertTypes
    requires low <= high
    ensures AlertProbability(alertType, Some(low), hour).value
         <= AlertProbability(alertType, Some(high), hour).value
  {
    var spec := AlertTypes[alertType];
    if spec.fillDependent {
      var timed := if spec.timeDependent then TimeFactor(alertType, hour) else 1.0;
      FillFactorMonotone(alertType, low, high);
      ScaleMonotone(spec.probability * timed, FillFactor(alertType, low), FillFactor(alertType, high));
    }
  }

  lemma ScaleMonotone(k: real, x: real, y: real)
    requires k >= 0.0 && x <= y
    ensures k * x <= k * y
  {
  }
}
