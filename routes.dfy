/** `backend/routers/routes.py`: the HTTP side of route optimisation. It
    looks the requested bins up, turns them into collection points, runs
    the optimiser from a chosen start with the depot set, numbers the
    stops, scores efficiency, and tracks saved routes through their
    statuses into a history table. The position of a bin is an input
    (`binLocation`); the distance function is the optimiser's. */
module RoutesRouter {
  import opened Common
  import opened Store
  import opened Tour
  import opened RouteOptimizer

  const DepotLat: real := 21.1458
  const DepotLon: real := 79.0882
  const Depot := Location(DepotLat, DepotLon)

  /** Service minutes the router gives every bin. */
  const CollectionMinutes: int := 10

  /** `determine_priority`: 3 for a full bin or one at 90% or more, 2 from
      70%, otherwise 1. */
  function DeterminePriority(fillLevel: int, status: string): (p: int)
    ensures p == 3 <==> status == "full" || fillLevel >= 90
    ensures p == 2 <==> status != "full" && 70 <= fillLevel < 90
    ensures p == 1 <==> status != "full" && fillLevel < 70
  {
    if status == "full" || fillLevel >= 90 then 3
    else if fillLevel >= 70 then 2
    else 1
  }

  // ---------------------------------------------------------------- bin lookup

  /** `query(BinDB).filter(BinDB.id.in_(ids)).all()`: the bins named in
      `ids`, each once, in table order. */
  function FoundBins(rows: seq<BinRow>, ids: seq<string>): (r: seq<BinRow>)
    ensures forall b :: b in r <==> b in rows && b.id in ids
  {
    if rows == [] then []
    else
      var last := rows[|rows| - 1];
      assert rows == rows[..|rows| - 1] + [last];
      FoundBins(rows[..|rows| - 1], ids) + (if last.id in ids then [last] else [])
  }

  function Ids(rows: seq<BinRow>): (r: seq<string>)
    ensures |r| == |rows| && forall k :: 0 <= k < |rows| ==> r[k] == rows[k].id
  {
    seq(|rows|, k requires 0 <= k < |rows| => rows[k].id)
  }

  lemma {:induction false} FoundBinsUnique(rows: seq<BinRow>, ids: seq<string>)
    requires UniqueKeys(rows, BinKey)
    ensures Distinct(Ids(FoundBins(rows, ids)))
    decreases |rows|
  {
    if rows != [] {
      var init := rows[..|rows| - 1];
      var last := rows[|rows| - 1];
      FoundBinsUnique(init, ids);
      var f := FoundBins(init, ids);
      forall b | b in f ensures b.id != last.id {
        var i :| 0 <= i < |init| && init[i] == b;
      }
      assert FoundBins(rows, ids) == f + (if last.id in ids then [last] else []);
    }
  }

  /** A sequence has at most as many distinct elements as entries, and
      fewer when it repeats one. */
  lemma {:induction false} ElementsCard<T>(s: seq<T>)
    ensures |set x | x in s| <= |s|
    ensures !Distinct(s) ==> |set x | x in s| < |s|
    decreases |s|
  {
    if s != [] {
      var init := s[..|s| - 1];
      var last := s[|s| - 1];
      ElementsCard(init);
      assert (set x | x in s) == (set x | x in init) + {last};
      if !Distinct(s) && last !in init {
        var i, j :| 0 <= i < j < |s| && s[i] == s[j];
        assert j < |s| - 1;
        assert init[i] == init[j];
      }
    }
  }

  /** The ids of the bins the query finds: the requested ids that exist. */
  ghost function FoundIds(rows: seq<BinRow>, ids: seq<string>): set<string> {
    set b | b in FoundBins(rows, ids) :: b.id
  }

  lemma FoundIdsExisting(rows: seq<BinRow>, ids: seq<string>)
    requires UniqueKeys(rows, BinKey)
    ensures |FoundIds(rows, ids)| == |FoundBins(rows, ids)|
    ensures forall id :: id in FoundIds(rows, ids) <==> id in ids && IndexOf(rows, BinKey, id).Some?
  {
    var found := FoundBins(rows, ids);
    FoundBinsUnique(rows, ids);
    DistinctCardinality(Ids(found));
    assert (set x | x in Ids(found)) == FoundIds(rows, ids) by {
      forall x | x in FoundIds(rows, ids) ensures x in Ids(found) {
        var b :| b in found && b.id == x;
        var i :| 0 <= i < |found| && found[i] == b;
        assert Ids(found)[i] == x;
      }
    }
    forall id | id in ids && IndexOf(rows, BinKey, id).Some? ensures id in FoundIds(rows, ids) {
      assert rows[IndexOf(rows, BinKey, id).value] in found;
    }
  }

  predicate AllFound(rows: seq<BinRow>, ids: seq<string>) {
    Distinct(ids) && forall id :: id in ids ==> IndexOf(rows, BinKey, id).Some?
  }

  lemma SubsetCard<T>(a: set<T>, b: set<T>)
    requires a <= b
    ensures |a| <= |b|
  {
    assert b == a + (b - a);
  }

  /** All requested bins exist, each requested once, exactly when the query
      finds as many bins as ids were sent. */
  lemma FoundAllIff(rows: seq<BinRow>, ids: seq<string>)
    requires UniqueKeys(rows, BinKey)
    ensures |FoundBins(rows, ids)| == |ids| <==> AllFound(rows, ids)
  {
    var foundIds := FoundIds(rows, ids);
    var requested := set x | x in ids;
    FoundIdsExisting(rows, ids);
    ElementsCard(ids);
    if forall id :: id in ids ==> IndexOf(rows, BinKey, id).Some? {
      assert foundIds == requested;
      if Distinct(ids) {
        DistinctCardinality(ids);
      }
    } else {
      var missing :| missing in ids && IndexOf(rows, BinKey, missing).None?;
      SubsetCard(foundIds, requested - {missing});
    }
  }

  // ---------------------------------------------------------------- start point

  /** The optimise request: bins by id, the strategy's name, an optional
      crew, an optional explicit start, and whether to save the route. */
  datatype OptimizeRouteRequest = OptimizeRouteRequest(
    binIds: seq<string>,
    algorithm: string,
    crewId: Option<string>,
    startLatitude: Option<real>,
    startLongitude: Option<real>,
    saveRoute: bool)

  /** Where the optimised route starts: an explicit start whose coordinates
      are both truthy; else the position of the named crew when it has
      truthy coordinates; else the depot. */
  function StartLocation(crews: seq<CrewRow>, startLatitude: Option<real>, startLongitude: Option<real>, crewId: Option<string>): (l: Location)
    ensures TruthyReal(startLatitude) && TruthyReal(startLongitude) ==> l == Location(startLatitude.value, startLongitude.value)
    ensures !(TruthyReal(startLatitude) && TruthyReal(startLongitude)) && !TruthyText(crewId) ==> l == Depot
  {
    if TruthyReal(startLatitude) && TruthyReal(startLongitude) then Location(startLatitude.value, startLongitude.value)
    else if TruthyText(crewId) then
      match IndexOf(crews, CrewKey, crewId.value)
      case Some(k) =>
        if TruthyReal(crews[k].currentLatitude) && TruthyReal(crews[k].currentLongitude) then
          Location(crews[k].currentLatitude.value, crews[k].currentLongitude.value)
        else Depot
      case None => Depot
    else Depot
  }

  /** Without an explicit start, a crew moves the start only to its own
      recorded position: the first crew with the requested id starts the
      route where it is when both its coordinates are truthy, and an unknown
      crew or one without a position leaves the start at the depot. */
  lemma StartFromCrew(crews: seq<CrewRow>, lat: Option<real>, lon: Option<real>, crewId: Option<string>)
    requires !(TruthyReal(lat) && TruthyReal(lon))
    ensures var l := StartLocation(crews, lat, lon, crewId);
            l == Depot || exists k :: 0 <= k < |crews| && crews[k].id == crewId.value &&
                                     TruthyReal(crews[k].currentLatitude) && TruthyReal(crews[k].currentLongitude) &&
                                     l == Location(crews[k].currentLatitude.value, crews[k].currentLongitude.value)
    ensures TruthyText(crewId) && IndexOf(crews, CrewKey, crewId.value).None? ==>
              StartLocation(crews, lat, lon, crewId) == Depot
    ensures TruthyText(crewId) && IndexOf(crews, CrewKey, crewId.value).Some? ==>
              var c := crews[IndexOf(crews, CrewKey, crewId.value).value];
              StartLocation(crews, lat, lon, crewId) ==
                if TruthyReal(c.currentLatitude) && TruthyReal(c.currentLongitude)
                then Location(c.currentLatitude.value, c.currentLongitude.value)
                else Depot
  {
  }

  /** The compare request ignores crews: explicit start or depot. */
  function CompareStart(startLatitude: Option<real>, startLongitude: Option<real>): (l: Location)
    ensures l == StartLocation([], startLatitude, startLongitude, None)
  {
    if TruthyReal(startLatitude) && TruthyReal(startLongitude) then Location(startLatitude.value, startLongitude.value)
    else Depot
  }

  // ---------------------------------------------------------------- points and waypoints

  /** The collection point for one bin: its fill level, the priority from
      `DeterminePriority`, ten service minutes. */
  function PointOf(b: BinRow, loc: Location): Point {
    Point(b.id, loc, b.fillLevelPercent, DeterminePriority(b.fillLevelPercent, b.status), CollectionMinutes)
  }

  /** One collection point per found bin, in the query's order. */
  function Points(found: seq<BinRow>, binLocation: BinRow -> Location): (r: seq<Point>)
    ensures |r| == |found| && forall k :: 0 <= k < |found| ==> r[k] == PointOf(found[k], binLocation(found[k]))
  {
    seq(|found|, k requires 0 <= k < |found| => PointOf(found[k], binLocation(found[k])))
  }

  /** The `for bin_db in bins` loop that builds the collection points. */
  method CollectionPoints(found: seq<BinRow>, binLocation: BinRow -> Location) returns (points: seq<Point>)
    ensures points == Points(found, binLocation)
  {
    points := [];
    for k := 0 to |found|
      invariant |points| == k
      invariant forall m :: 0 <= m < k ==> points[m] == PointOf(found[m], binLocation(found[m]))
    {
      points := points + [PointOf(found[k], binLocation(found[k]))];
    }
  }

  function WaypointOf(p: Point, index: nat, collectionTime: int): Waypoint {
    Waypoint(p.binId, p.loc.lat, p.loc.lon, p.fill, index + 1, collectionTime)
  }

  /** One waypoint per stop, in route order. */
  function Waypoints(route: seq<Point>, collectionTime: int): (r: seq<Waypoint>)
    ensures |r| == |route| && forall k :: 0 <= k < |route| ==> r[k] == WaypointOf(route[k], k, collectionTime)
  {
    seq(|route|, k requires 0 <= k < |route| => WaypointOf(route[k], k, collectionTime))
  }

  /** The `enumerate(result["route"])` loop: one waypoint per stop, in
      route order, numbered from 1. */
  method BuildWaypoints(route: seq<Point>, collectionTime: int) returns (waypoints: seq<Waypoint>)
    ensures waypoints == Waypoints(route, collectionTime)
  {
    waypoints := [];
    for idx := 0 to |route|
      invariant |waypoints| == idx
      invariant forall m :: 0 <= m < idx ==> waypoints[m] == WaypointOf(route[m], m, collectionTime)
    {
      waypoints := waypoints + [WaypointOf(route[idx], idx, collectionTime)];
    }
  }

  /** The waypoints carry the orders 1..n, strictly increasing, and the
      route's bins. */
  lemma WaypointOrders(route: seq<Point>, collectionTime: int)
    ensures var w := Waypoints(route, collectionTime);
            forall k :: 0 <= k < |w| ==> w[k].order == k + 1 && w[k].binId == route[k].binId
    ensures var w := Waypoints(route, collectionTime);
            forall i, j :: 0 <= i < j < |w| ==> w[i].order < w[j].order
  {
  }

  /** Bins per kilometre, 0 for a route of no length. */
  function Efficiency(binCount: nat, totalDistance: real): (e: real)
    ensures e >= 0.0
    ensures totalDistance > 0.0 ==> e * totalDistance == binCount as real
    ensures totalDistance <= 0.0 ==> e == 0.0
  {
    if totalDistance > 0.0 then binCount as real / totalDistance else 0.0
  }

  /** The optimisation answer. `algorithm` is read from the optimiser's
      result, which has no algorithm when nothing was routed. */
  datatype RouteOptimizationResult = RouteOptimizationResult(
    routeId: Option<string>,
    algorithm: string,
    totalDistanceKm: real,
    estimatedTimeMinutes: real,
    binCount: nat,
    waypoints: seq<Waypoint>,
    efficiencyScore: real)

  function Answer(result: RouteResult, routeId: Option<string>, waypoints: seq<Waypoint>): RouteOptimizationResult
    requires result.algorithm.Some?
  {
    RouteOptimizationResult(routeId, result.algorithm.value, result.totalDistance, result.totalTime, |waypoints|,
                            waypoints, Efficiency(|waypoints|, result.totalDistance))
  }

  function BinIdsOf(route: seq<Point>): (r: seq<string>)
    ensures |r| == |route| && forall k :: 0 <= k < |route| ==> r[k] == route[k].binId
  {
    seq(|route|, k requires 0 <= k < |route| => route[k].binId)
  }

  /** The row saved for an optimised route: planned, not yet started. */
  function PlannedRoute(routeId: string, crewId: Option<string>, result: RouteResult, waypoints: seq<Waypoint>, now: Timestamp): RouteRow
    requires result.algorithm.Some?
  {
    RouteRow(routeId, crewId, "planned", result.algorithm, result.totalDistance, result.totalTime, None,
             BinIdsOf(result.route), waypoints, now, None, None)
  }

  // ---------------------------------------------------------------- optimise and compare

  /** The middle of both handlers: build the collection points of the
      found bins, run the optimiser (depot set) from `start`, and number
      the stops of its route. */
  method PlanRoute(found: seq<BinRow>, ids: seq<string>, start: Location, algorithm: string, dist: Distance,
                   binLocation: BinRow -> Location) returns (result: RouteResult, waypoints: seq<Waypoint>)
    requires forall b :: b in found ==> b.id in ids
    ensures multiset(result.route) == multiset(Points(found, binLocation))
    ensures result == OptimizeResult(dist, Some(Depot), start, Points(found, binLocation), algorithm)
    ensures result.algorithm.None? <==> found == [] || (algorithm == "two_opt" && |found| < 2)
    ensures |result.route| == |found|
    ensures waypoints == Waypoints(result.route, CollectionMinutes)
    ensures forall k :: 0 <= k < |waypoints| ==> waypoints[k].order == k + 1 && waypoints[k].binId in ids
  {
    var points := CollectionPoints(found, binLocation);
    var optimizer := new RouteOptimizer(dist);
    optimizer.SetDepot(Depot);
    result := optimizer.Optimize(points, start, algorithm);
    OptimizeOutcome(dist, Some(Depot), start, points, algorithm);
    RouteBinsRequested(found, ids, points, result.route, binLocation);
    waypoints := BuildWaypoints(result.route, CollectionMinutes);
  }

  /** `db.add(route_db)` for a route whose id is not yet taken. */
  method SaveRoute(db: Database, row: RouteRow)
    requires db.Valid()
    requires IndexOf(db.routes, RouteKey, row.id).None?
    modifies db`routes
    ensures db.Valid()
    ensures db.routes == old(db.routes) + [row]
  {
    UniqueAppend(db.routes, RouteKey, row);
    db.routes := db.routes + [row];
  }

  /** The optimiser's result for an optimisation request: the collection
      points of the requested bins, routed from the request's start with the
      depot set. */
  function Optimization(bins: seq<BinRow>, crews: seq<CrewRow>, req: OptimizeRouteRequest, dist: Distance,
                        binLocation: BinRow -> Location): RouteResult
  {
    OptimizeResult(dist, Some(Depot), StartLocation(crews, req.startLatitude, req.startLongitude, req.crewId),
                   Points(FoundBins(bins, req.binIds), binLocation), req.algorithm)
  }

  /** `optimize_route`: 404 unless every requested bin exists and none is
      requested twice; 500 when the optimiser's result names no algorithm
      (no bins, or a single bin under 2-opt), in which case nothing is
      saved; otherwise the answer for the requested strategy, saved as a
      planned route under the fresh id `newRouteId` when asked. */
  method OptimizeRoute(db: Database, req: OptimizeRouteRequest, dist: Distance, binLocation: BinRow -> Location,
                       newRouteId: string, now: Timestamp) returns (r: Result<RouteOptimizationResult>)
    requires db.Valid()
    requires IndexOf(db.routes, RouteKey, newRouteId).None?
    modifies db`routes
    ensures db.Valid()
    ensures !AllFound(db.bins, req.binIds) ==> r == Err(NotFound)
    ensures r == Err(ServerError) <==>
              AllFound(db.bins, req.binIds) && (req.binIds == [] || (req.algorithm == "two_opt" && |req.binIds| < 2))
    ensures r.Ok? <==>
              AllFound(db.bins, req.binIds) && !(req.binIds == [] || (req.algorithm == "two_opt" && |req.binIds| < 2))
    ensures r.Err? ==> db.routes == old(db.routes)
    ensures r.Ok? ==> |r.value.waypoints| == r.value.binCount == |req.binIds|
    ensures r.Ok? ==> forall k :: 0 <= k < |r.value.waypoints| ==>
              r.value.waypoints[k].order == k + 1 && r.value.waypoints[k].binId in req.binIds
    ensures r.Ok? ==> r.value.routeId == (if req.saveRoute then Some(newRouteId) else None)
    ensures r.Ok? ==> Optimization(db.bins, db.crews, req, dist, binLocation).algorithm.Some?
    ensures r.Ok? ==> r.value == Answer(Optimization(db.bins, db.crews, req, dist, binLocation), r.value.routeId,
                                        Waypoints(Optimization(db.bins, db.crews, req, dist, binLocation).route, CollectionMinutes))
    ensures r.Ok? ==> r.value.algorithm == StrategyName(req.algorithm)
    ensures r.Ok? ==> r.value.efficiencyScore == Efficiency(r.value.binCount, r.value.totalDistanceKm)
    ensures r.Ok? && req.saveRoute ==>
              db.routes == old(db.routes) + [PlannedRoute(newRouteId, req.crewId, Optimization(db.bins, db.crews, req, dist, binLocation),
                                                          r.value.waypoints, now)]
    ensures r.Ok? && !req.saveRoute ==> db.routes == old(db.routes)
  {
    var found := FoundBins(db.bins, req.binIds);
    FoundAllIff(db.bins, req.binIds);
    if |found| != |req.binIds| {
      return Err(NotFound);
    }
    var start := StartLocation(db.crews, req.startLatitude, req.startLongitude, req.crewId);
    var result, waypoints := PlanRoute(found, req.binIds, start, req.algorithm, dist, binLocation);
    assert result == Optimization(db.bins, db.crews, req, dist, binLocation);
    if result.algorithm.None? {
      return Err(ServerError);
    }
    OptimizeOutcome(dist, Some(Depot), start, Points(found, binLocation), req.algorithm);
    var routeId: Option<string> := None;
    if req.saveRoute {
      routeId := Some(newRouteId);
      SaveRoute(db, PlannedRoute(newRouteId, req.crewId, result, waypoints, now));
    }
    r := Ok(Answer(result, routeId, waypoints));
  }

  /** Whatever the strategy, the optimiser's route is a reordering of the
      points it was given; it names no algorithm exactly when there is
      nothing to route, or when 2-opt is given a single point. */
  lemma OptimizeOutcome(d: Distance, depot: Option<Location>, start: Location, points: seq<Point>, algorithm: string)
    ensures multiset(OptimizeResult(d, depot, start, points, algorithm).route) == multiset(points)
    ensures OptimizeResult(d, depot, start, points, algorithm).algorithm.None? <==>
              points == [] || (algorithm == "two_opt" && |points| < 2)
    ensures OptimizeResult(d, depot, start, points, algorithm).algorithm.Some? ==>
              OptimizeResult(d, depot, start, points, algorithm).algorithm.value == StrategyName(algorithm)
  {
    if algorithm == "greedy" || algorithm == "two_opt" {
      GreedyOrderPermutes(d, start, points);
      if algorithm == "two_opt" && |points| >= 2 {
        TwoOptFromProperties(d, depot, start, GreedyOrder(d, start, points));
      }
    } else if algorithm == "priority" {
    } else if points != [] {
      HybridProperties(d, start, points);
    }
  }

  /** Every stop of a route built from the looked-up bins is one of the
      requested bins. */
  lemma RouteBinsRequested(found: seq<BinRow>, ids: seq<string>, points: seq<Point>, route: seq<Point>, binLocation: BinRow -> Location)
    requires forall b :: b in found ==> b.id in ids
    requires |points| == |found|
    requires forall k :: 0 <= k < |found| ==> points[k] == PointOf(found[k], binLocation(found[k]))
    requires multiset(route) == multiset(points)
    ensures forall k :: 0 <= k < |route| ==> route[k].binId in ids
  {
    forall k | 0 <= k < |route| ensures route[k].binId in ids {
      assert route[k] in multiset(points);
      var m :| 0 <= m < |points| && points[m] == route[k];
      assert found[m] in found;
    }
  }

  /** The name each strategy reports; an unknown request name runs hybrid. */
  function StrategyName(algorithm: string): string {
    if algorithm == "greedy" then "greedy_nearest_neighbor"
    else if algorithm == "priority" then "priority_based"
    else if algorithm == "two_opt" then "two_opt_optimized"
    else "hybrid_optimized"
  }

  /** The four results of a comparison all name their strategy, unless
      fewer than two points were given: then at least 2-opt names none. */
  lemma CompareOutcome(d: Distance, depot: Option<Location>, start: Location, points: seq<Point>, results: seq<RouteResult>)
    requires |results| == |CompareOrder|
    requires forall k :: 0 <= k < |results| ==> results[k] == OptimizeResult(d, depot, start, points, CompareOrder[k])
    ensures (exists k :: 0 <= k < |results| && results[k].algorithm.None?) <==> |points| < 2
    ensures forall k :: 0 <= k < |results| ==>
              |results[k].route| == |points| &&
              (results[k].algorithm.Some? ==> results[k].algorithm.value == StrategyName(CompareOrder[k]))
  {
    forall k | 0 <= k < |CompareOrder|
      ensures results[k].algorithm.None? <==> points == [] || (CompareOrder[k] == "two_opt" && |points| < 2)
      ensures results[k].algorithm.Some? ==> results[k].algorithm.value == StrategyName(CompareOrder[k])
      ensures |results[k].route| == |points|
    {
      OptimizeOutcome(d, depot, start, points, CompareOrder[k]);
      assert |multiset(results[k].route)| == |multiset(points)|;
    }
    assert |points| < 2 ==> results[3].algorithm.None?;
  }

  /** The compare request: bins by id and an optional explicit start. */
  datatype CompareRoutesRequest = CompareRoutesRequest(
    binIds: seq<string>,
    startLatitude: Option<real>,
    startLongitude: Option<real>)

  datatype RouteComparison = RouteComparison(algorithms: seq<RouteOptimizationResult>, recommended: string)

  /** Python's `max` over a non-empty list: the first of the largest. */
  function BestIndex(xs: seq<real>): (k: nat)
    requires |xs| > 0
    ensures k < |xs|
    ensures forall j :: 0 <= j < |xs| ==> xs[j] <= xs[k]
    ensures forall j :: 0 <= j < k ==> xs[j] < xs[k]
  {
    if |xs| == 1 then 0
    else
      var k := BestIndex(xs[..|xs| - 1]);
      if xs[|xs| - 1] > xs[k] then |xs| - 1 else k
  }

  function Scores(answers: seq<RouteOptimizationResult>): (r: seq<real>)
    ensures |r| == |answers| && forall k :: 0 <= k < |answers| ==> r[k] == answers[k].efficiencyScore
  {
    seq(|answers|, k requires 0 <= k < |answers| => answers[k].efficiencyScore)
  }

  /** The "convert to response format" loop of `compare_routes`: the
      answer of each result in turn, or 500 at the first result that names
      no algorithm. */
  method ToAnswers(results: seq<RouteResult>) returns (r: Result<seq<RouteOptimizationResult>>)
    ensures r.Err? <==> exists k :: 0 <= k < |results| && results[k].algorithm.None?
    ensures r.Err? ==> r.error == ServerError
    ensures r.Ok? ==> |r.value| == |results|
    ensures r.Ok? ==> forall k :: 0 <= k < |results| ==>
              results[k].algorithm.Some? && r.value[k] == Answer(results[k], None, Waypoints(results[k].route, CollectionMinutes))
  {
    var answers: seq<RouteOptimizationResult> := [];
    for k := 0 to |results|
      invariant |answers| == k
      invariant forall m :: 0 <= m < k ==>
                  results[m].algorithm.Some? && answers[m] == Answer(results[m], None, Waypoints(results[m].route, CollectionMinutes))
    {
      var waypoints := BuildWaypoints(results[k].route, CollectionMinutes);
      if results[k].algorithm.None? {
        return Err(ServerError);
      }
      answers := answers + [Answer(results[k], None, waypoints)];
    }
    return Ok(answers);
  }

  /** The answer `compare_routes` gives for one strategy: the optimiser's
      result for the points from `start` with the depot set, unsaved. */
  function ComparedAnswer(dist: Distance, start: Location, points: seq<Point>, algorithm: string): RouteOptimizationResult
    requires |points| >= 2
  {
    var result := OptimizeResult(dist, Some(Depot), start, points, algorithm);
    OptimizeOutcome(dist, Some(Depot), start, points, algorithm);
    Answer(result, None, Waypoints(result.route, CollectionMinutes))
  }

  /** The rest of `compare_routes` once the bins are found: run every
      strategy from `start`, convert each result, recommend the first of
      highest efficiency. */
  method CompareFound(found: seq<BinRow>, start: Location, dist: Distance, binLocation: BinRow -> Location)
    returns (r: Result<RouteComparison>)
    ensures r.Err? <==> |found| < 2
    ensures r.Err? ==> r.error == ServerError
    ensures r.Ok? ==> |r.value.algorithms| == |CompareOrder|
    ensures r.Ok? ==> forall k :: 0 <= k < |CompareOrder| ==>
              && r.value.algorithms[k].algorithm == StrategyName(CompareOrder[k])
              && r.value.algorithms[k].routeId == None
              && r.value.algorithms[k].binCount == |found|
    ensures r.Ok? ==> forall k :: 0 <= k < |CompareOrder| ==>
              r.value.algorithms[k] == ComparedAnswer(dist, start, Points(found, binLocation), CompareOrder[k])
    ensures r.Ok? ==> r.value.recommended == r.value.algorithms[BestIndex(Scores(r.value.algorithms))].algorithm
  {
    var points := CollectionPoints(found, binLocation);
    var optimizer := new RouteOptimizer(dist);
    optimizer.SetDepot(Depot);
    var results := optimizer.CompareAlgorithms(points, start);
    CompareOutcome(dist, Some(Depot), start, points, results);
    var answers := ToAnswers(results);
    if answers.Err? {
      return Err(ServerError);
    }
    var best := BestIndex(Scores(answers.value));
    r := Ok(RouteComparison(answers.value, answers.value[best].algorithm));
  }

  /** `compare_routes`: 404 unless every requested bin exists and none is
      requested twice; 500 when fewer than two bins are sent (2-opt, and
      with no bins every strategy, returns a result without an
      algorithm); otherwise one answer per strategy in the fixed order,
      and the first strategy of highest efficiency recommended. */
  method CompareRoutes(db: Database, req: CompareRoutesRequest, dist: Distance, binLocation: BinRow -> Location)
    returns (r: Result<RouteComparison>)
    requires db.Valid()
    ensures !AllFound(db.bins, req.binIds) ==> r == Err(NotFound)
    ensures r == Err(ServerError) <==> AllFound(db.bins, req.binIds) && |req.binIds| < 2
    ensures r.Ok? <==> AllFound(db.bins, req.binIds) && |req.binIds| >= 2
    ensures r.Ok? ==> |r.value.algorithms| == |CompareOrder|
    ensures r.Ok? ==> forall k :: 0 <= k < |CompareOrder| ==>
              && r.value.algorithms[k].algorithm == StrategyName(CompareOrder[k])
              && r.value.algorithms[k].routeId == None
              && r.value.algorithms[k].binCount == |req.binIds|
    ensures r.Ok? ==> |FoundBins(db.bins, req.binIds)| == |req.binIds|
    ensures r.Ok? ==> forall k :: 0 <= k < |CompareOrder| ==>
              r.value.algorithms[k] == ComparedAnswer(dist, CompareStart(req.startLatitude, req.startLongitude),
                                                      Points(FoundBins(db.bins, req.binIds), binLocation), CompareOrder[k])
    ensures r.Ok? ==> r.value.recommended == r.value.algorithms[BestIndex(Scores(r.value.algorithms))].algorithm
  {
    var found := FoundBins(db.bins, req.binIds);
    FoundAllIff(db.bins, req.binIds);
    if |found| != |req.binIds| {
      return Err(NotFound);
    }
    var start := CompareStart(req.startLatitude, req.startLongitude);
    r := CompareFound(found, start, dist, binLocation);
  }

  // ---------------------------------------------------------------- route status and history

  /** The status update request: the new status (not checked against a
      list), the minutes the route actually took, and notes. */
  datatype UpdateRouteStatusRequest = UpdateRouteStatusRequest(
    status: string,
    actualTimeMinutes: Option<real>,
    notes: Option<string>)

  /** A route after a status update: the status is replaced; "active"
      stamps the start time unless one is recorded; "completed" stamps the
      completion time and stores a truthy actual duration. */
  function StatusUpdated(route: RouteRow, req: UpdateRouteStatusRequest, now: Timestamp): RouteRow {
    var started := if req.status == "active" && route.startedAt.None? then Some(now) else route.startedAt;
    var completed := if req.status == "completed" then Some(now) else route.completedAt;
    var actual := if req.status == "completed" && TruthyReal(req.actualTimeMinutes) then req.actualTimeMinutes
                  else route.actualTimeMinutes;
    route.(status := req.status, startedAt := started, completedAt := completed, actualTimeMinutes := actual)
  }

  /** What a status update changes and what it keeps. */
  lemma StatusUpdateRules(route: RouteRow, req: UpdateRouteStatusRequest, now: Timestamp)
    ensures var r := StatusUpdated(route, req, now);
            && r.status == req.status
            && r.id == route.id && r.crewId == route.crewId && r.binIds == route.binIds
            && r.waypoints == route.waypoints && r.totalDistanceKm == route.totalDistanceKm
            && r.estimatedTimeMinutes == route.estimatedTimeMinutes && r.createdAt == route.createdAt
            && r.algorithmUsed == route.algorithmUsed
    ensures var r := StatusUpdated(route, req, now);
            && (route.startedAt.Some? ==> r.startedAt == route.startedAt)
            && (req.status == "active" ==> r.startedAt.Some?)
            && (req.status != "active" ==> r.startedAt == route.startedAt)
    ensures var r := StatusUpdated(route, req, now);
            && (req.status == "completed" ==> r.completedAt == Some(now))
            && (req.status == "completed" && TruthyReal(req.actualTimeMinutes) ==> r.actualTimeMinutes == req.actualTimeMinutes)
            && (req.status != "completed" ==> r.completedAt == route.completedAt && r.actualTimeMinutes == route.actualTimeMinutes)
            && (req.status == "completed" && !TruthyReal(req.actualTimeMinutes) ==> r.actualTimeMinutes == route.actualTimeMinutes)
  {
  }

  /** The sequence of assignments `update_route_status` makes on the
      loaded route. */
  method ApplyStatus(route: RouteRow, req: UpdateRouteStatusRequest, now: Timestamp) returns (r: RouteRow)
    ensures r == StatusUpdated(route, req, now)
  {
    r := route.(status := req.status);
    if req.status == "active" && r.startedAt.None? {
      r := r.(startedAt := Some(now));
    }
    if req.status == "completed" {
      r := r.(completedAt := Some(now));
      if TruthyReal(req.actualTimeMinutes) {
        r := r.(actualTimeMinutes := req.actualTimeMinutes);
      }
    }
  }

  /** The history row of a completed route: its bins, its distance, its
      actual minutes when truthy else the estimate, and bins per kilometre
      (0 for a route of no length). */
  function HistoryOf(route: RouteRow, notes: Option<string>): (h: HistoryRow)
    requires route.completedAt.Some?
    ensures h.binsCollected == |route.binIds| && h.routeId == route.id && h.completionDate == route.completedAt.value
    ensures h.fuelEfficiencyScore >= 0.0
    ensures route.totalDistanceKm > 0.0 ==> h.fuelEfficiencyScore * route.totalDistanceKm == |route.binIds| as real
    ensures h.crewId == route.crewId && h.totalDistanceKm == route.totalDistanceKm && h.notes == notes
    ensures h.totalTimeMinutes
         == if TruthyReal(route.actualTimeMinutes) then route.actualTimeMinutes.value else route.estimatedTimeMinutes
  {
    HistoryRow(route.id, route.crewId, |route.binIds|, route.totalDistanceKm,
               if TruthyReal(route.actualTimeMinutes) then route.actualTimeMinutes.value else route.estimatedTimeMinutes,
               Efficiency(|route.binIds|, route.totalDistanceKm), route.completedAt.value, notes)
  }

  /** The history time of a route completed by a status update: the actual
      time sent with the update when truthy, else one recorded earlier when
      truthy, else the planned estimate. */
  lemma CompletedHistoryTime(route: RouteRow, req: UpdateRouteStatusRequest, now: Timestamp)
    requires req.status == "completed"
    ensures HistoryOf(StatusUpdated(route, req, now), req.notes).totalTimeMinutes
         == if TruthyReal(req.actualTimeMinutes) then req.actualTimeMinutes.value
            else if TruthyReal(route.actualTimeMinutes) then route.actualTimeMinutes.value
            else route.estimatedTimeMinutes
  {
  }

  /** `update_route_status`: 404 for an unknown route; otherwise the route
      is updated in place and, when it is completed, one history row is
      added for it. Nothing else changes. */
  method UpdateRouteStatus(db: Database, routeId: string, req: UpdateRouteStatusRequest, now: Timestamp)
    returns (r: Result<RouteRow>)
    requires db.Valid()
    modifies db`routes, db`history
    ensures db.Valid()
    ensures IndexOf(old(db.routes), RouteKey, routeId).None? ==>
              r == Err(NotFound) && db.routes == old(db.routes) && db.history == old(db.history)
    ensures IndexOf(old(db.routes), RouteKey, routeId).Some? ==>
              var k := IndexOf(old(db.routes), RouteKey, routeId).value;
              && r == Ok(StatusUpdated(old(db.routes)[k], req, now))
              && db.routes == old(db.routes)[k := r.value]
              && db.history == old(db.history) + (if req.status == "completed" then [HistoryOf(r.value, req.notes)] else [])
  {
    var found := IndexOf(db.routes, RouteKey, routeId);
    if found.None? {
      return Err(NotFound);
    }
    var k := found.value;
    var route := ApplyStatus(db.routes[k], req, now);
    UniqueReplace(db.routes, RouteKey, k, route);
    db.routes := db.routes[k := route];
    if req.status == "completed" {
      db.history := db.history + [HistoryOf(route, req.notes)];
    }
    r := Ok(route);
  }

  /** The performance summary over the route history. */
  datatype RouteAnalytics = RouteAnalytics(
    totalRoutesCompleted: nat,
    totalBinsCollected: nat,
    totalDistanceKm: real,
    averageEfficiency: real,
    averageTimeMinutes: real)

  function BinsTotal(history: seq<HistoryRow>): nat {
    if history == [] then 0 else BinsTotal(history[..|history| - 1]) + history[|history| - 1].binsCollected
  }

  function Distances(history: seq<HistoryRow>): (r: seq<real>)
    ensures |r| == |history| && forall k :: 0 <= k < |history| ==> r[k] == history[k].totalDistanceKm
  {
    seq(|history|, k requires 0 <= k < |history| => history[k].totalDistanceKm)
  }

  function Efficiencies(history: seq<HistoryRow>): (r: seq<real>)
    ensures |r| == |history| && forall k :: 0 <= k < |history| ==> r[k] == history[k].fuelEfficiencyScore
  {
    seq(|history|, k requires 0 <= k < |history| => history[k].fuelEfficiencyScore)
  }

  function Times(history: seq<HistoryRow>): (r: seq<real>)
    ensures |r| == |history| && forall k :: 0 <= k < |history| ==> r[k] == history[k].totalTimeMinutes
  {
    seq(|history|, k requires 0 <= k < |history| => history[k].totalTimeMinutes)
  }

  /** `get_route_analytics`: all zeros for an empty history; otherwise the
      number of routes, the bins and kilometres summed, and the mean
      efficiency and duration. */
  function RouteAnalyticsOf(history: seq<HistoryRow>): (a: RouteAnalytics)
    ensures a.totalRoutesCompleted == |history|
    ensures history == [] ==> a == RouteAnalytics(0, 0, 0.0, 0.0, 0.0)
    ensures history != [] ==> a.averageEfficiency * (|history| as real) == Sum(Efficiencies(history))
    ensures history != [] ==> a.averageTimeMinutes * (|history| as real) == Sum(Times(history))
  {
    if history == [] then RouteAnalytics(0, 0, 0.0, 0.0, 0.0)
    else
      RouteAnalytics(|history|, BinsTotal(history), Sum(Distances(history)),
                     Mean(Efficiencies(history)), Mean(Times(history)))
  }

  /** Completing one more route adds one route, its bins and its distance
      to the totals. */
  lemma AnalyticsAppend(history: seq<HistoryRow>, h: HistoryRow)
    ensures var before := RouteAnalyticsOf(history);
            var after := RouteAnalyticsOf(history + [h]);
            && after.totalRoutesCompleted == before.totalRoutesCompleted + 1
            && after.totalBinsCollected == before.totalBinsCollected + h.binsCollected
            && after.totalDistanceKm == before.totalDistanceKm + h.totalDistanceKm
  {
    var all := history + [h];
    assert all[..|all| - 1] == history;
    assert Distances(all) == Distances(history) + [h.totalDistanceKm];
    SumAppend(Distances(history), [h.totalDistanceKm]);
    assert [h.totalDistanceKm][..0] == [];
  }

  /** History written by `update_route_status` never averages to a negative
      efficiency. */
  lemma AverageEfficiencyNonNegative(history: seq<HistoryRow>)
    requires forall k :: 0 <= k < |history| ==> history[k].fuelEfficiencyScore >= 0.0
    ensures RouteAnalyticsOf(history).averageEfficiency >= 0.0
  {
    SumNonNegative(Efficiencies(history));
  }
}
