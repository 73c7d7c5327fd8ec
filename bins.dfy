/** `backend/routers/bins.py`: create, read, update and delete rows of the
    bin table. The request models' field constraints are checked before the
    handler runs (422); the response model's constraints are checked when
    the handler builds its answer, after any commit (500). */
module BinsRouter {
  import opened Common
  import opened Store
  import opened Utils

  /** The `Bin` response model. */
  datatype Bin = Bin(id: string, location: string, capacityLiters: int, fillLevelPercent: int, status: string)

  /** `CreateBinRequest`: no field constraints; the fill level defaults to 0. */
  datatype CreateBinRequest = CreateBinRequest(id: string, location: string, capacityLiters: int, fillLevelPercent: int)

  /** `UpdateBinRequest`: every field optional; a supplied capacity must be
      at least 1 and a supplied fill level within 0..100. */
  datatype UpdateBinRequest = UpdateBinRequest(
    location: Option<string>,
    capacityLiters: Option<int>,
    fillLevelPercent: Option<int>,
    status: Option<string>)

  predicate UpdateRequestValid(req: UpdateBinRequest) {
    && (req.capacityLiters.Some? ==> req.capacityLiters.value >= 1)
    && (req.fillLevelPercent.Some? ==> 0 <= req.fillLevelPercent.value <= 100)
  }

  /** The statuses an update may set directly. "warning" is not among them. */
  const SettableStatuses: set<string> := {"ok", "offline", "maintenance", "full"}

  /** Building the `Bin` answer from a row: it fails with 500 when the row
      breaks the model's constraints (capacity at least 1, fill 0..100). */
  function BinResponse(b: BinRow): (r: Result<Bin>)
    ensures r.Ok? <==> b.capacityLiters >= 1 && 0 <= b.fillLevelPercent <= 100
    ensures r.Err? ==> r.error == ServerError
    ensures r.Ok? ==> r.value.id == b.id && r.value.status == b.status
    ensures r.Ok? ==> r.value.location == b.location && r.value.capacityLiters == b.capacityLiters
    ensures r.Ok? ==> r.value.fillLevelPercent == b.fillLevelPercent
  {
    if b.capacityLiters >= 1 && 0 <= b.fillLevelPercent <= 100 then
      Ok(Bin(b.id, b.location, b.capacityLiters, b.fillLevelPercent, b.status))
    else Err(ServerError)
  }

  /** `list_bins`: every row in table order, or 500 if one cannot be answered. */
  function ListBins(rows: seq<BinRow>): (r: Result<seq<Bin>>)
    ensures r.Ok? <==> forall k :: 0 <= k < |rows| ==> BinResponse(rows[k]).Ok?
    ensures r.Ok? ==> |r.value| == |rows| && forall k :: 0 <= k < |rows| ==> r.value[k] == BinResponse(rows[k]).value
  {
    if rows == [] then Ok([])
    else
      match (BinResponse(rows[0]), ListBins(rows[1..]))
      case (Ok(b), Ok(rest)) => Ok([b] + rest)
      case _ => Err(ServerError)
  }

  /** `get_bin`: 404 for an unknown id. */
  function GetBin(rows: seq<BinRow>, binId: string): (r: Result<Bin>)
    ensures IndexOf(rows, BinKey, binId).None? ==> r == Err(NotFound)
    ensures r.Ok? ==> r.value.id == binId
    ensures IndexOf(rows, BinKey, binId).Some? ==> r == BinResponse(rows[IndexOf(rows, BinKey, binId).value])
  {
    match IndexOf(rows, BinKey, binId)
    case None => Err(NotFound)
    case Some(k) => BinResponse(rows[k])
  }

  /** The row `create_bin` inserts: status from the fill level, no sensor
      readings yet. */
  function NewBin(req: CreateBinRequest): (b: BinRow)
    ensures b.id == req.id && b.fillLevelPercent == req.fillLevelPercent
    ensures b.status == DetermineBinStatus(req.fillLevelPercent)
    ensures b.batteryPercent.None? && b.temperatureC.None? && b.humidityPercent.None? && b.lastTelemetry.None?
  {
    BinRow(req.id, req.location, req.capacityLiters, req.fillLevelPercent, DetermineBinStatus(req.fillLevelPercent),
           None, None, None, None)
  }

  /** The row after `update_bin`: supplied fields replace stored ones; a
      supplied fill level recomputes the status and overrides any supplied
      status; otherwise a supplied status is applied only when settable. */
  function UpdatedBin(b: BinRow, req: UpdateBinRequest): (r: BinRow)
    ensures r.id == b.id
    ensures r.batteryPercent == b.batteryPercent && r.temperatureC == b.temperatureC
    ensures r.humidityPercent == b.humidityPercent && r.lastTelemetry == b.lastTelemetry
    ensures req.location.None? ==> r.location == b.location
    ensures req.capacityLiters.None? ==> r.capacityLiters == b.capacityLiters
    ensures req.fillLevelPercent.None? ==> r.fillLevelPercent == b.fillLevelPercent
    ensures req.location.Some? ==> r.location == req.location.value
    ensures req.capacityLiters.Some? ==> r.capacityLiters == req.capacityLiters.value
    ensures req.fillLevelPercent.Some? ==> r.fillLevelPercent == req.fillLevelPercent.value
    ensures req.fillLevelPercent.None? && req.status.Some? && req.status.value in SettableStatuses
            ==> r.status == req.status.value
    ensures req.fillLevelPercent.None? && (req.status.None? || req.status.value !in SettableStatuses)
            ==> r.status == b.status
    ensures req.fillLevelPercent.Some? ==> r.status == DetermineBinStatus(req.fillLevelPercent.value)
    ensures req.fillLevelPercent.None? && r.status != b.status ==> r.status in SettableStatuses
    ensures req.fillLevelPercent.None? && req.status == Some("warning") ==> r.status == b.status
    ensures req == UpdateBinRequest(None, None, None, None) ==> r == b
  {
    b.(location := if req.location.Some? then req.location.value else b.location,
       capacityLiters := if req.capacityLiters.Some? then req.capacityLiters.value else b.capacityLiters,
       fillLevelPercent := if req.fillLevelPercent.Some? then req.fillLevelPercent.value else b.fillLevelPercent,
       status :=
         if req.fillLevelPercent.Some? then DetermineBinStatus(req.fillLevelPercent.value)
         else if req.status.Some? && req.status.value in SettableStatuses then req.status.value
         else b.status)
  }

  /** `create_bin`: 409 and no change when the id exists; otherwise the new
      row is appended. The answer is built after the commit, so a row that
      breaks the response model is stored and still answered with 500. */
  method CreateBin(db: Database, req: CreateBinRequest) returns (r: Result<Bin>)
    requires db.Valid()
    modifies db`bins
    ensures db.Valid()
    ensures IndexOf(old(db.bins), BinKey, req.id).Some? ==> r == Err(Conflict) && db.bins == old(db.bins)
    ensures IndexOf(old(db.bins), BinKey, req.id).None? ==>
              db.bins == old(db.bins) + [NewBin(req)] && r == BinResponse(NewBin(req))
  {
    var existing := IndexOf(db.bins, BinKey, req.id);
    if existing.Some? {
      return Err(Conflict);
    }
    var status := DetermineBinStatus(req.fillLevelPercent);
    var row := BinRow(req.id, req.location, req.capacityLiters, req.fillLevelPercent, status, None, None, None, None);
    UniqueAppend(db.bins, BinKey, row);
    db.bins := db.bins + [row];
    r := BinResponse(row);
  }

  /** `update_bin`: 422 for a request outside its constraints, 404 for an
      unknown id, otherwise only that row changes, field by field. */
  method UpdateBin(db: Database, binId: string, req: UpdateBinRequest) returns (r: Result<Bin>)
    requires db.Valid()
    modifies db`bins
    ensures db.Valid()
    ensures !UpdateRequestValid(req) ==> r == Err(Unprocessable) && db.bins == old(db.bins)
    ensures UpdateRequestValid(req) && IndexOf(old(db.bins), BinKey, binId).None? ==>
              r == Err(NotFound) && db.bins == old(db.bins)
    ensures UpdateRequestValid(req) && IndexOf(old(db.bins), BinKey, binId).Some? ==>
              var k := IndexOf(old(db.bins), BinKey, binId).value;
              db.bins == old(db.bins)[k := UpdatedBin(old(db.bins)[k], req)] && r == BinResponse(db.bins[k])
  {
    if !UpdateRequestValid(req) {
      return Err(Unprocessable);
    }
    var found := IndexOf(db.bins, BinKey, binId);
    if found.None? {
      return Err(NotFound);
    }
    var k := found.value;
    var b := db.bins[k];
    if req.location.Some? {
      b := b.(location := req.location.value);
    }
    if req.capacityLiters.Some? {
      b := b.(capacityLiters := req.capacityLiters.value);
    }
    if req.fillLevelPercent.Some? {
      b := b.(fillLevelPercent := req.fillLevelPercent.value);
      b := b.(status := DetermineBinStatus(req.fillLevelPercent.value));
    } else if req.status.Some? {
      if req.status.value in SettableStatuses {
        b := b.(status := req.status.value);
      }
    }
    assert b == UpdatedBin(db.bins[k], req);
    UniqueReplace(db.bins, BinKey, k, b);
    db.bins := db.bins[k := b];
    r := BinResponse(b);
  }

  /** `delete_bin`: 404 for an unknown id; otherwise exactly that row goes. */
  method DeleteBin(db: Database, binId: string) returns (r: Result<()>)
    requires db.Valid()
    modifies db`bins
    ensures db.Valid()
    ensures IndexOf(old(db.bins), BinKey, binId).None? ==> r == Err(NotFound) && db.bins == old(db.bins)
    ensures IndexOf(old(db.bins), BinKey, binId).Some? ==>
              r == Ok(()) && db.bins == RemoveAt(old(db.bins), IndexOf(old(db.bins), BinKey, binId).value)
    ensures IndexOf(db.bins, BinKey, binId).None?
  {
    var found := IndexOf(db.bins, BinKey, binId);
    if found.None? {
      return Err(NotFound);
    }
    UniqueRemove(db.bins, BinKey, found.value);
    db.bins := RemoveAt(db.bins, found.value);
    r := Ok(());
  }
}
