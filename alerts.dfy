/** `backend/routers/alerts.py`: alerts reported by the camera-side AI,
    stored against a registered bin. */
module AlertsRouter {
  import opened Common
  import opened Store
  import Sorting

  datatype AlertPayload = AlertPayload(binId: string, alertType: string, description: Option<string>, timestamp: Option<Timestamp>)

  /** The acknowledgement; its timestamp is rendered with
      `Utils.FormatTimestampResponse`. */
  datatype AlertAck = AlertAck(accepted: bool, binId: string, alertType: string, timestamp: Timestamp)

  function AlertTime(a: AlertRow): real { a.timestamp as real }

  /** `create_ai_alert`: 404 and nothing stored for an unregistered bin;
      otherwise one row is appended under the next id, stamped with the
      payload's time or, failing that, the current time. */
  method CreateAiAlert(db: Database, payload: AlertPayload, now: Timestamp) returns (r: Result<AlertAck>)
    requires db.Valid()
    modifies db`alerts, db`nextAlertId
    ensures db.Valid()
    ensures IndexOf(db.bins, BinKey, payload.binId).None? ==>
              r == Err(NotFound) && db.alerts == old(db.alerts) && db.nextAlertId == old(db.nextAlertId)
    ensures IndexOf(db.bins, BinKey, payload.binId).Some? ==>
              var stamp := if payload.timestamp.Some? then payload.timestamp.value else now;
              && db.alerts == old(db.alerts) + [AlertRow(old(db.nextAlertId), payload.binId, payload.alertType, payload.description, stamp)]
              && db.nextAlertId == old(db.nextAlertId) + 1
              && r == Ok(AlertAck(true, payload.binId, payload.alertType, stamp))
  {
    if IndexOf(db.bins, BinKey, payload.binId).None? {
      return Err(NotFound);
    }
    var effective := if payload.timestamp.Some? then payload.timestamp.value else now;
    var row := AlertRow(db.nextAlertId, payload.binId, payload.alertType, payload.description, effective);
    NewAlertIdFresh(db.alerts, db.nextAlertId, row);
    db.alerts := db.alerts + [row];
    db.nextAlertId := db.nextAlertId + 1;
    r := Ok(AlertAck(true, payload.binId, payload.alertType, effective));
  }

  /** A row under the next id keeps the alert ids unique and below the counter. */
  lemma NewAlertIdFresh(alerts: seq<AlertRow>, next: int, row: AlertRow)
    requires AlertIdsBelow(alerts, next)
    requires row.id == next
    ensures AlertIdsBelow(alerts + [row], next + 1)
  {
    assert IndexOf(alerts, AlertKey, next).None?;
    UniqueAppend(alerts, AlertKey, row);
  }

  /** `get_alerts`: every alert, newest first; alerts stamped with the same
      instant keep their row order. */
  function GetAlerts(rows: seq<AlertRow>): (r: seq<AlertRow>)
    ensures multiset(r) == multiset(rows)
    ensures Sorting.NonIncreasing(r, AlertTime)
  {
    Sorting.SortDescSorted(rows, AlertTime);
    Sorting.SortDesc(rows, AlertTime)
  }

  /** `get_alert`: 404 for an unknown id. */
  function GetAlert(rows: seq<AlertRow>, alertId: int): (r: Result<AlertRow>)
    ensures r.Ok? <==> IndexOf(rows, AlertKey, alertId).Some?
    ensures r.Ok? ==> r.value in rows && r.value.id == alertId
    ensures r.Err? ==> r.error == NotFound
  {
    match IndexOf(rows, AlertKey, alertId)
    case None => Err(NotFound)
    case Some(k) => Ok(rows[k])
  }

  /** `delete_alert`: 404 for an unknown id; otherwise exactly that alert goes. */
  method DeleteAlert(db: Database, alertId: int) returns (r: Result<()>)
    requires db.Valid()
    modifies db`alerts
    ensures db.Valid()
    ensures IndexOf(old(db.alerts), AlertKey, alertId).None? ==> r == Err(NotFound) && db.alerts == old(db.alerts)
    ensures IndexOf(old(db.alerts), AlertKey, alertId).Some? ==>
              r == Ok(()) && db.alerts == RemoveAt(old(db.alerts), IndexOf(old(db.alerts), AlertKey, alertId).value)
    ensures IndexOf(db.alerts, AlertKey, alertId).None?
  {
    var found := IndexOf(db.alerts, AlertKey, alertId);
    if found.None? {
      return Err(NotFound);
    }
    UniqueRemove(db.alerts, AlertKey, found.value);
    RemoveAtFacts(db.alerts, found.value);
    db.alerts := RemoveAt(db.alerts, found.value);
    r := Ok(());
  }
}
