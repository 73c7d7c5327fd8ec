/** The tables the routers read and write, as rows in insertion order
    (what an unordered query returns), with the primary key of each row
    unique. Timestamps are abstract instants, later ones larger. */
module Store {
  import opened Common

  type Timestamp = int

  /** A row of `bins`, with the sensor columns telemetry fills in. */
  datatype BinRow = BinRow(
    id: string,
    location: string,
    capacityLiters: int,
    fillLevelPercent: int,
    status: string,
    batteryPercent: Option<int>,
    temperatureC: Option<real>,
    humidityPercent: Option<int>,
    lastTelemetry: Option<Timestamp>)

  /** A row of `ai_alerts`; the id is assigned by the table. */
  datatype AlertRow = AlertRow(id: int, binId: string, alertType: string, description: Option<string>, timestamp: Timestamp)

  datatype TaskRow = TaskRow(
    id: string,
    title: string,
    description: Option<string>,
    priority: string,
    status: string,
    binId: Option<string>,
    location: Option<string>,
    estimatedTimeMinutes: Option<int>,
    crewId: Option<string>,
    alertId: Option<string>,
    createdAt: Timestamp,
    dueDate: Option<Timestamp>,
    completedAt: Option<Timestamp>)

  datatype CrewRow = CrewRow(
    id: string,
    name: string,
    leader: string,
    membersCount: int,
    status: string,
    phone: Option<string>,
    email: Option<string>,
    currentLocation: Option<string>,
    currentLatitude: Option<real>,
    currentLongitude: Option<real>,
    createdAt: Timestamp)

  /** One stop of a saved or returned route; `order` counts from 1. */
  datatype Waypoint = Waypoint(binId: string, latitude: real, longitude: real, fillLevel: int, order: int, estimatedCollectionTime: int)

  datatype RouteRow = RouteRow(
    id: string,
    crewId: Option<string>,
    status: string,
    algorithmUsed: Option<string>,
    totalDistanceKm: real,
    estimatedTimeMinutes: real,
    actualTimeMinutes: Option<real>,
    binIds: seq<string>,
    waypoints: seq<Waypoint>,
    createdAt: Timestamp,
    startedAt: Option<Timestamp>,
    completedAt: Option<Timestamp>)

  /** A row of the route history written when a route is completed. */
  datatype HistoryRow = HistoryRow(
    routeId: string,
    crewId: Option<string>,
    binsCollected: nat,
    totalDistanceKm: real,
    totalTimeMinutes: real,
    fuelEfficiencyScore: real,
    completionDate: Timestamp,
    notes: Option<string>)

  function BinKey(b: BinRow): string { b.id }
  function AlertKey(a: AlertRow): int { a.id }
  function TaskKey(t: TaskRow): string { t.id }
  function CrewKey(c: CrewRow): string { c.id }
  function RouteKey(r: RouteRow): string { r.id }

  /** `query(...).filter(key == id).first()`: the position of the first row
      with that key, if any. */
  function IndexOf<T, K(==)>(rows: seq<T>, key: T -> K, id: K): (r: Option<nat>)
    ensures r.Some? ==> r.value < |rows| && key(rows[r.value]) == id
    ensures r.None? ==> forall k :: 0 <= k < |rows| ==> key(rows[k]) != id
  {
    if rows == [] then None
    else if key(rows[0]) == id then Some(0)
    else
      match IndexOf(rows[1..], key, id)
      case None => None
      case Some(k) => Some(k + 1)
  }

  /** No two rows share a primary key. */
  ghost predicate UniqueKeys<T, K>(rows: seq<T>, key: T -> K) {
    forall i, j :: 0 <= i < j < |rows| ==> key(rows[i]) != key(rows[j])
  }

  /** Inserting a row whose key is absent keeps keys unique. */
  lemma UniqueAppend<T, K>(rows: seq<T>, key: T -> K, x: T)
    requires UniqueKeys(rows, key)
    requires IndexOf(rows, key, key(x)).None?
    ensures UniqueKeys(rows + [x], key)
  {
    assert forall k :: 0 <= k < |rows| ==> (rows + [x])[k] == rows[k];
  }

  /** Rewriting a row without touching its key keeps keys unique. */
  lemma UniqueReplace<T, K>(rows: seq<T>, key: T -> K, k: nat, x: T)
    requires UniqueKeys(rows, key)
    requires k < |rows| && key(x) == key(rows[k])
    ensures UniqueKeys(rows[k := x], key)
  {
  }

  /** Deleting a row keeps keys unique, and the deleted key is gone. */
  lemma UniqueRemove<T, K>(rows: seq<T>, key: T -> K, k: nat)
    requires UniqueKeys(rows, key)
    requires k < |rows|
    ensures UniqueKeys(RemoveAt(rows, k), key)
    ensures IndexOf(RemoveAt(rows, k), key, key(rows[k])).None?
  {
    RemoveAtFacts(rows, k);
    var r := RemoveAt(rows, k);
    forall i | 0 <= i < |r| ensures key(r[i]) != key(rows[k]) {
      if i < k { assert r[i] == rows[i]; } else { assert r[i] == rows[i + 1]; }
    }
  }

  /** With unique keys the row found for a key is the only one carrying it. */
  lemma IndexOfUnique<T, K>(rows: seq<T>, key: T -> K, k: nat)
    requires UniqueKeys(rows, key)
    requires k < |rows|
    ensures IndexOf(rows, key, key(rows[k])) == Some(k)
  {
    var r := IndexOf(rows, key, key(rows[k]));
    assert r.Some?;
  }

  /** The database behind one request. Every router method takes it,
      changes only the tables its `modifies` clause names, and keeps the
      keys of every table unique. */
  class Database {
    var bins: seq<BinRow>
    var alerts: seq<AlertRow>
    /** The id the next alert row receives (the table's autoincrement). */
    var nextAlertId: int
    var tasks: seq<TaskRow>
    var crews: seq<CrewRow>
    var routes: seq<RouteRow>
    var history: seq<HistoryRow>

    ghost predicate Valid()
      reads this
    {
      && UniqueKeys(bins, BinKey)
      && UniqueKeys(tasks, TaskKey)
      && UniqueKeys(crews, CrewKey)
      && UniqueKeys(routes, RouteKey)
      && AlertIdsBelow(alerts, nextAlertId)
    }

    constructor ()
      ensures Valid()
      ensures bins == [] && alerts == [] && tasks == [] && crews == [] && routes == [] && history == []
    {
      bins, alerts, nextAlertId, tasks, crews, routes, history := [], [], 1, [], [], [], [];
    }
  }

  /** Every stored alert id was handed out before `next`, so ids are unique. */
  ghost predicate AlertIdsBelow(alerts: seq<AlertRow>, next: int) {
    && UniqueKeys(alerts, AlertKey)
    && forall k :: 0 <= k < |alerts| ==> alerts[k].id < next
  }
}
