/** `backend/services/route_optimizer.py`: the optimiser object of the route service: it holds an optional depot
    and computes collection routes with four strategies. Each method is the
    loop the service runs, proved equal to the order and statistics that
    module Tour specifies. */
module RouteOptimizer {
  import opened Common
  import Sorting
  import opened Tour

  class RouteOptimizer {
    /** `Location.distance_to`, fixed for the lifetime of the optimiser. */
    const dist: Distance
    var depot: Option<Location>

    constructor (dist: Distance)
      ensures this.dist == dist && depot == None
    {
      this.dist := dist;
      depot := None;
    }

    method SetDepot(location: Location)
      modifies this
      ensures depot == Some(location)
    {
      depot := Some(location);
    }

    /** The `for point in route` loop of the priority and 2-opt strategies:
        drive `route` from `start`, summing distance and minutes. */
    method Drive(route: seq<Point>, start: Location) returns (current: Location, totalDistance: real, totalTime: real)
      ensures Driven(dist, start, route, current, totalDistance, totalTime)
    {
      current := start;
      totalDistance := 0.0;
      totalTime := 0.0;
      for k := 0 to |route|
        invariant Driven(dist, start, route[..k], current, totalDistance, totalTime)
      {
        DriveOn(dist, start, route[..k], current, totalDistance, totalTime, route[k]);
        assert route[..k + 1] == route[..k] + [route[k]];
        var distance := dist(current, route[k].loc);
        totalDistance := totalDistance + distance;
        totalTime := totalTime + TravelMinutes(distance) + route[k].estTime as real;
        current := route[k].loc;
      }
      assert route[..|route|] == route;
    }

    /** The "return to depot" step every strategy ends with: the leg back to
        the depot, when one is set, is added to distance and time. */
    method ReturnToDepot(start: Location, route: seq<Point>, current: Location, distance0: real, time0: real, name: string)
      returns (result: RouteResult)
      requires Driven(dist, start, route, current, distance0, time0)
      ensures result == Summary(dist, depot, start, route, name)
    {
      var totalDistance, totalTime := distance0, time0;
      if depot.Some? {
        var back := dist(current, depot.value);
        totalDistance := totalDistance + back;
        totalTime := totalTime + TravelMinutes(back);
      }
      return RouteResult(route, totalDistance, totalTime, Some(name));
    }

    /** The `while unvisited` loop shared by greedy and hybrid: from
        `current`, repeatedly drive to the nearest unvisited point (the
        first of several equally near ones), extending `route` and the
        running totals. */
    method NearestNeighborRun(start: Location, route0: seq<Point>, current0: Location, distance0: real, time0: real, points: seq<Point>)
      returns (route: seq<Point>, current: Location, totalDistance: real, totalTime: real)
      requires Driven(dist, start, route0, current0, distance0, time0)
      ensures route == route0 + GreedyOrder(dist, current0, points)
      ensures Driven(dist, start, route, current, totalDistance, totalTime)
    {
      var unvisited := points;
      route, current, totalDistance, totalTime := route0, current0, distance0, time0;
      ghost var target := route0 + GreedyOrder(dist, current0, points);
      while unvisited != []
        invariant RunState(dist, start, target, route, current, unvisited, totalDistance, totalTime)
        decreases |unvisited|
      {
        var k := NearestIndex(dist, current, unvisited);
        var nearest := unvisited[k];
        var distance := dist(current, nearest.loc);
        RunStep(dist, start, target, route, current, unvisited, totalDistance, totalTime);
        totalDistance := totalDistance + distance;
        totalTime := totalTime + TravelMinutes(distance) + nearest.estTime as real;
        route := route + [nearest];
        unvisited := RemoveAt(unvisited, k);
        current := nearest.loc;
      }
    }

    /** `greedy_nearest_neighbor`. */
    method GreedyNearestNeighbor(points: seq<Point>, start: Location) returns (result: RouteResult)
      ensures result == GreedyResult(dist, depot, start, points)
    {
      if points == [] {
        return NoRoute;
      }
      var route, current, totalDistance, totalTime := NearestNeighborRun(start, [], start, 0.0, 0.0, points);
      assert route == GreedyOrder(dist, start, points);
      result := ReturnToDepot(start, route, current, totalDistance, totalTime, "greedy_nearest_neighbor");
    }

    /** `priority_based`: most urgent first, ties in input order. */
    method PriorityBased(points: seq<Point>, start: Location) returns (result: RouteResult)
      ensures result == PriorityResult(dist, depot, start, points)
    {
      if points == [] {
        return NoRoute;
      }
      var sortedPoints := Sorting.SortDesc(points, Urgency);
      var route: seq<Point> := [];
      for k := 0 to |sortedPoints|
        invariant route == sortedPoints[..k]
      {
        route := route + [sortedPoints[k]];
      }
      assert route == sortedPoints;
      var current, totalDistance, totalTime := Drive(route, start);
      result := ReturnToDepot(start, route, current, totalDistance, totalTime, "priority_based");
    }

    /** `hybrid_optimized`: nearest neighbour inside the high, medium and
        low urgency groups in turn. */
    method HybridOptimized(points: seq<Point>, start: Location) returns (result: RouteResult)
      ensures result == HybridResult(dist, depot, start, points)
    {
      if points == [] {
        return NoRoute;
      }
      var groups := [InBand(points, 0), InBand(points, 1), InBand(points, 2)];
      var route: seq<Point> := [];
      var current := start;
      var totalDistance := 0.0;
      var totalTime := 0.0;
      for g := 0 to |groups|
        invariant route == HybridPrefix(dist, start, points, g)
        invariant Driven(dist, start, route, current, totalDistance, totalTime)
      {
        route, current, totalDistance, totalTime := NearestNeighborRun(start, route, current, totalDistance, totalTime, groups[g]);
      }
      HybridPrefixComplete(dist, start, points);
      result := ReturnToDepot(start, route, current, totalDistance, totalTime, "hybrid_optimized");
    }

    /** `calculate_route_distance` inside the 2-opt pass: start to the first
        stop, stop to stop, last stop to the depot if set. */
    method RouteDistance(route: seq<Point>, start: Location) returns (r: real)
      requires |route| > 0
      ensures r == TourLength(dist, depot, start, route)
    {
      r := dist(start, route[0].loc);
      assert route[..1] == [] + [route[0]];
      PathStep(dist, start, [], route[0]);
      for k := 0 to |route| - 1
        invariant r == PathLength(dist, start, route[..k + 1])
      {
        PathStep(dist, start, route[..k + 1], route[k + 1]);
        assert route[..k + 2] == route[..k + 1] + [route[k + 1]];
        r := r + dist(route[k].loc, route[k + 1].loc);
      }
      assert route[..|route|] == route;
      if depot.Some? {
        r := r + dist(route[|route| - 1].loc, depot.value);
      }
    }

    /** One pass of `two_opt_optimization`'s `while improved` loop: scan the
        pairs (i, j) in order and apply the first reversal that shortens
        the tour, if any. */
    method TwoOptPass(route: seq<Point>, start: Location) returns (improved: bool, next: seq<Point>)
      requires |route| >= 2
      ensures improved == FirstImprovement(dist, depot, start, route).Some?
      ensures improved ==> next == TwoOptMove(route, FirstImprovement(dist, depot, start, route).value.0,
                                                     FirstImprovement(dist, depot, start, route).value.1)
      ensures !improved ==> next == route
    {
      improved := false;
      next := route;
      var bestDistance := RouteDistance(route, start);
      var n := |route|;
      ghost var f := MoveLengths(dist, depot, start, route);
      ghost var first := FirstImprovement(dist, depot, start, route);
      for i := 1 to n - 1
        invariant !improved && next == route
        invariant first == ScanFrom(n, f, bestDistance, i, i + 1)
      {
        for j := i + 1 to n
          invariant !improved && next == route
          invariant first == ScanFrom(n, f, bestDistance, i, j)
        {
          var newRoute := route[..i] + Reversed(route[i..j + 1]) + route[j + 1..];
          var newDistance := RouteDistance(newRoute, start);
          MoveLengthsAt(dist, depot, start, route, i, j);
          ScanStep(n, f, bestDistance, i, j);
          if newDistance < bestDistance {
            next := newRoute;
            improved := true;
            break;
          }
        }
        if improved {
          break;
        }
        ScanStep(n, f, bestDistance, i, n);
      }
    }

    /** `two_opt_optimization`: repeat passes until one finds no shorter
        reversal. Fewer than two points come back unchanged with zero
        distance and time. */
    method TwoOptOptimization(initialRoute: seq<Point>, start: Location) returns (result: RouteResult)
      ensures result == TwoOptResult(dist, depot, start, initialRoute)
    {
      if |initialRoute| < 2 {
        return RouteResult(initialRoute, 0.0, 0.0, None);
      }
      var route := initialRoute;
      var improved := true;
      while improved
        invariant |route| == |initialRoute|
        invariant TwoOptFrom(dist, depot, start, route) == TwoOptFrom(dist, depot, start, initialRoute)
        invariant !improved ==> FirstImprovement(dist, depot, start, route).None?
        decreases if improved then |Shorter(dist, depot, start, route)| + 1 else 0
      {
        ghost var before := route;
        improved, route := TwoOptPass(route, start);
        if improved {
          ShorterShrinks(dist, depot, start, before, route);
        }
      }
      var current, totalDistance, totalTime := Drive(route, start);
      result := ReturnToDepot(start, route, current, totalDistance, totalTime, "two_opt_optimized");
    }

    /** `optimize`: "greedy", "priority" and "two_opt" (2-opt seeded with
        the greedy route) select their strategy; anything else is hybrid. */
    method Optimize(points: seq<Point>, start: Location, algorithm: string) returns (result: RouteResult)
      ensures result == OptimizeResult(dist, depot, start, points, algorithm)
    {
      if algorithm == "greedy" {
        result := GreedyNearestNeighbor(points, start);
      } else if algorithm == "priority" {
        result := PriorityBased(points, start);
      } else if algorithm == "two_opt" {
        var initial := GreedyNearestNeighbor(points, start);
        result := TwoOptOptimization(initial.route, start);
      } else {
        result := HybridOptimized(points, start);
      }
    }

    /** `compare_algorithms`: one result per strategy, in a fixed order. */
    method CompareAlgorithms(points: seq<Point>, start: Location) returns (results: seq<RouteResult>)
      ensures |results| == |CompareOrder|
      ensures forall k :: 0 <= k < |results| ==> results[k] == OptimizeResult(dist, depot, start, points, CompareOrder[k])
    {
      results := [];
      for k := 0 to |CompareOrder|
        invariant |results| == k
        invariant forall m :: 0 <= m < k ==> results[m] == OptimizeResult(dist, depot, start, points, CompareOrder[m])
      {
        var result := Optimize(points, start, CompareOrder[k]);
        results := results + [result];
      }
    }
  }
}
