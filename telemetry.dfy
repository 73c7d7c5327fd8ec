/** `backend/routers/telemetry.py`: a sensor reading overwrites the fill
    level and status of its bin and the readings it carries. */
module TelemetryRouter {
  import opened Common
  import opened Store
  import opened Utils

  /** `TelemetryPayload`: fill, battery and humidity are percentages. */
  datatype TelemetryPayload = TelemetryPayload(
    binId: string,
    fillLevelPercent: int,
    batteryPercent: Option<int>,
    temperatureC: Option<real>,
    humidityPercent: Option<int>,
    timestamp: Option<Timestamp>)

  predicate Percent(x: int) { 0 <= x <= 100 }

  /** The payload's field constraints, checked before the handler runs. */
  predicate PayloadValid(p: TelemetryPayload) {
    && Percent(p.fillLevelPercent)
    && (p.batteryPercent.Some? ==> Percent(p.batteryPercent.value))
    && (p.humidityPercent.Some? ==> Percent(p.humidityPercent.value))
  }

  /** The acknowledgement; its timestamp is rendered with
      `Utils.FormatTimestampResponse`. */
  datatype TelemetryAck = TelemetryAck(accepted: bool, binId: string, timestamp: Timestamp)

  /** `payload.timestamp or get_current_timestamp()`. */
  function EffectiveTimestamp(given: Option<Timestamp>, now: Timestamp): (t: Timestamp)
    ensures given.Some? ==> t == given.value
    ensures given.None? ==> t == now
  {
    if given.Some? then given.value else now
  }

  /** The bin row after a reading: fill level always replaced and status
      recomputed, each optional reading replaced only when present, the
      reading time recorded; location and capacity untouched. */
  function AfterReading(b: BinRow, p: TelemetryPayload, now: Timestamp): (r: BinRow)
    ensures r.id == b.id && r.location == b.location && r.capacityLiters == b.capacityLiters
    ensures r.fillLevelPercent == p.fillLevelPercent
    ensures r.status == DetermineBinStatus(p.fillLevelPercent)
    ensures p.batteryPercent.None? ==> r.batteryPercent == b.batteryPercent
    ensures p.temperatureC.None? ==> r.temperatureC == b.temperatureC
    ensures p.humidityPercent.None? ==> r.humidityPercent == b.humidityPercent
    ensures p.batteryPercent.Some? ==> r.batteryPercent == p.batteryPercent
    ensures p.temperatureC.Some? ==> r.temperatureC == p.temperatureC
    ensures p.humidityPercent.Some? ==> r.humidityPercent == p.humidityPercent
    ensures r.lastTelemetry == Some(EffectiveTimestamp(p.timestamp, now))
  {
    b.(fillLevelPercent := p.fillLevelPercent,
       status := DetermineBinStatus(p.fillLevelPercent),
       batteryPercent := if p.batteryPercent.Some? then p.batteryPercent else b.batteryPercent,
       temperatureC := if p.temperatureC.Some? then p.temperatureC else b.temperatureC,
       humidityPercent := if p.humidityPercent.Some? then p.humidityPercent else b.humidityPercent,
       lastTelemetry := Some(EffectiveTimestamp(p.timestamp, now)))
  }

  /** `ingest_telemetry`: 422 for a payload outside its constraints, 404 for
      an unregistered bin (nothing changes in either case); otherwise only
      that bin's row is rewritten. */
  method IngestTelemetry(db: Database, payload: TelemetryPayload, now: Timestamp) returns (r: Result<TelemetryAck>)
    requires db.Valid()
    modifies db`bins
    ensures db.Valid()
    ensures !PayloadValid(payload) ==> r == Err(Unprocessable) && db.bins == old(db.bins)
    ensures PayloadValid(payload) && IndexOf(old(db.bins), BinKey, payload.binId).None? ==>
              r == Err(NotFound) && db.bins == old(db.bins)
    ensures PayloadValid(payload) && IndexOf(old(db.bins), BinKey, payload.binId).Some? ==>
              var k := IndexOf(old(db.bins), BinKey, payload.binId).value;
              && db.bins == old(db.bins)[k := AfterReading(old(db.bins)[k], payload, now)]
              && r == Ok(TelemetryAck(true, payload.binId, EffectiveTimestamp(payload.timestamp, now)))
  {
    if !PayloadValid(payload) {
      return Err(Unprocessable);
    }
    var found := IndexOf(db.bins, BinKey, payload.binId);
    if found.None? {
      return Err(NotFound);
    }
    var k := found.value;
    var effective := EffectiveTimestamp(payload.timestamp, now);
    var b := db.bins[k];
    b := b.(fillLevelPercent := payload.fillLevelPercent);
    b := b.(status := DetermineBinStatus(payload.fillLevelPercent));
    if payload.batteryPercent.Some? {
      b := b.(batteryPercent := payload.batteryPercent);
    }
    if payload.temperatureC.Some? {
      b := b.(temperatureC := payload.temperatureC);
    }
    if payload.humidityPercent.Some? {
      b := b.(humidityPercent := payload.humidityPercent);
    }
    b := b.(lastTelemetry := Some(effective));
    assert b == AfterReading(db.bins[k], payload, now);
    UniqueReplace(db.bins, BinKey, k, b);
    db.bins := db.bins[k := b];
    r := Ok(TelemetryAck(true, payload.binId, effective));
  }
}
