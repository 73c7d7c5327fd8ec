/** The specification side of the collection-route optimiser: locations,
    collection points, the length and duration of a tour, and the visiting
    order each strategy produces, as functions. The optimiser class in
    module RouteOptimizer computes the same orders with loops. */
module Tour {
  import opened Common
  import Sorting

  datatype Location = Location(lat: real, lon: real)

  /** `Location.distance_to`: a haversine distance in kilometres. Its
      trigonometry is not modelled; every distance is non-negative. */
  type Distance = d: (Location, Location) -> real | forall a, b :: d(a, b) >= 0.0
    witness (a: Location, b: Location) => 0.0

  /** `WasteCollectionPoint`: priority 1 = low, 2 = medium, 3 = high;
      `estTime` is the minutes needed to empty the bin. */
  datatype Point = Point(binId: string, loc: Location, fill: int, priority: int, estTime: int)

  /** `urgency_score`: 0.7 per fill percent plus 10 per priority level. */
  function Urgency(p: Point): real {
    (p.fill as real) * 0.7 + (p.priority as real) * 10.0
  }

  /** What a strategy returns. An empty input yields no algorithm name. */
  datatype RouteResult = RouteResult(route: seq<Point>, totalDistance: real, totalTime: real, algorithm: Option<string>)

  const NoRoute := RouteResult([], 0.0, 0.0, None)

  /** Travel minutes for a leg, at the assumed 30 km/h. */
  function TravelMinutes(km: real): real { km / 30.0 * 60.0 }

  /** Where the vehicle stands after driving `route` from `start`. */
  function Last(start: Location, route: seq<Point>): Location {
    if route == [] then start else route[|route| - 1].loc
  }

  /** Sum of the legs start -> p1 -> ... -> pn. */
  function PathLength(d: Distance, start: Location, route: seq<Point>): (r: real)
    ensures r >= 0.0
  {
    if route == [] then 0.0
    else
      var init := route[..|route| - 1];
      PathLength(d, start, init) + d(Last(start, init), route[|route| - 1].loc)
  }

  /** Travel minutes of every leg plus each point's collection minutes. */
  function PathTime(d: Distance, start: Location, route: seq<Point>): real {
    if route == [] then 0.0
    else
      var init := route[..|route| - 1];
      var p := route[|route| - 1];
      PathTime(d, start, init) + TravelMinutes(d(Last(start, init), p.loc)) + p.estTime as real
  }

  /** The leg back to the depot, when one is set. */
  function ReturnLeg(d: Distance, depot: Option<Location>, from: Location): (r: real)
    ensures r >= 0.0
  {
    if depot.Some? then d(from, depot.value) else 0.0
  }

  function TourLength(d: Distance, depot: Option<Location>, start: Location, route: seq<Point>): (r: real)
    ensures r >= 0.0
  {
    PathLength(d, start, route) + ReturnLeg(d, depot, Last(start, route))
  }

  function TourTime(d: Distance, depot: Option<Location>, start: Location, route: seq<Point>): real {
    PathTime(d, start, route) + TravelMinutes(ReturnLeg(d, depot, Last(start, route)))
  }

  function ServiceMinutes(route: seq<Point>): int {
    if route == [] then 0 else ServiceMinutes(route[..|route| - 1]) + route[|route| - 1].estTime
  }

  /** Driving one more stop adds exactly that leg. */
  lemma PathStep(d: Distance, start: Location, route: seq<Point>, p: Point)
    ensures PathLength(d, start, route + [p]) == PathLength(d, start, route) + d(Last(start, route), p.loc)
    ensures PathTime(d, start, route + [p])
         == PathTime(d, start, route) + TravelMinutes(d(Last(start, route), p.loc)) + p.estTime as real
    ensures Last(start, route + [p]) == p.loc
    ensures ServiceMinutes(route + [p]) == ServiceMinutes(route) + p.estTime
  {
    assert (route + [p])[..|route|] == route;
  }

  /** The running position and totals after driving `route` from `start`. */
  ghost predicate Driven(d: Distance, start: Location, route: seq<Point>, current: Location, totalDistance: real, totalTime: real) {
    && current == Last(start, route)
    && totalDistance == PathLength(d, start, route)
    && totalTime == PathTime(d, start, route)
  }

  /** One more stop: its leg is added to the distance, its travel and
      collection minutes to the time. */
  lemma DriveOn(d: Distance, start: Location, route: seq<Point>, current: Location, totalDistance: real, totalTime: real, p: Point)
    requires Driven(d, start, route, current, totalDistance, totalTime)
    ensures Driven(d, start, route + [p], p.loc, totalDistance + d(current, p.loc),
                   totalTime + TravelMinutes(d(current, p.loc)) + p.estTime as real)
  {
    PathStep(d, start, route, p);
  }

  /** Legs are additive: driving `a` then `b` is the sum of both. */
  lemma {:induction false} PathAppend(d: Distance, start: Location, a: seq<Point>, b: seq<Point>)
    ensures PathLength(d, start, a + b) == PathLength(d, start, a) + PathLength(d, Last(start, a), b)
    ensures PathTime(d, start, a + b) == PathTime(d, start, a) + PathTime(d, Last(start, a), b)
    ensures Last(start, a + b) == Last(Last(start, a), b)
    decreases |b|
  {
    if b == [] {
      assert a + b == a;
    } else {
      var b' := b[..|b| - 1];
      var p := b[|b| - 1];
      PathAppend(d, start, a, b');
      assert a + b == (a + b') + [p];
      assert b == b' + [p];
      PathStep(d, start, a + b', p);
      PathStep(d, Last(start, a), b', p);
    }
  }

  /** Duration splits into driving (two minutes per km) and service: so the
      time of a tour is determined by its length and the points it visits. */
  lemma {:induction false} TimeIsDrivingPlusService(d: Distance, depot: Option<Location>, start: Location, route: seq<Point>)
    ensures PathTime(d, start, route) == 2.0 * PathLength(d, start, route) + ServiceMinutes(route) as real
    ensures TourTime(d, depot, start, route) == 2.0 * TourLength(d, depot, start, route) + ServiceMinutes(route) as real
    decreases |route|
  {
    if route != [] {
      TimeIsDrivingPlusService(d, depot, start, route[..|route| - 1]);
    }
  }

  lemma ServiceSnoc(route: seq<Point>, p: Point)
    ensures ServiceMinutes(route + [p]) == ServiceMinutes(route) + p.estTime
  {
    assert (route + [p])[..|route|] == route;
  }

  lemma {:induction false} ServiceMinutesRemove(route: seq<Point>, k: nat)
    requires k < |route|
    ensures ServiceMinutes(route) == ServiceMinutes(RemoveAt(route, k)) + route[k].estTime
    decreases |route|
  {
    var n := |route|;
    var init := route[..n - 1];
    assert route == init + [route[n - 1]];
    RemoveAtFacts(route, k);
    if k < n - 1 {
      ServiceMinutesRemove(init, k);
      assert RemoveAt(route, k) == RemoveAt(init, k) + [route[n - 1]];
      ServiceSnoc(RemoveAt(init, k), route[n - 1]);
    } else {
      assert RemoveAt(route, k) == init;
    }
  }

  /** Collection minutes do not depend on the visiting order. */
  lemma {:induction false} ServiceMinutesPermutation(a: seq<Point>, b: seq<Point>)
    requires multiset(a) == multiset(b)
    ensures ServiceMinutes(a) == ServiceMinutes(b)
    decreases |a|
  {
    assert |multiset(a)| == |a| && |multiset(b)| == |b|;
    if a != [] {
      var p := a[|a| - 1];
      var a' := a[..|a| - 1];
      assert a == a' + [p];
      assert multiset(a) == multiset(a') + multiset{p};
      assert p in multiset(b);
      var k :| 0 <= k < |b| && b[k] == p;
      RemoveAtFacts(b, k);
      calc {
        multiset(a');
        multiset(a) - multiset{p};
        multiset(b) - multiset{p};
        multiset(RemoveAt(b, k));
      }
      ServiceMinutesPermutation(a', RemoveAt(b, k));
      ServiceMinutesRemove(b, k);
      ServiceSnoc(a', p);
    }
  }

  // ---------------------------------------------------------------- greedy

  /** Python's `min(unvisited, key=distance from here)`: the index of the
      first point at minimal distance from `from`. */
  function NearestIndex(d: Distance, from: Location, pts: seq<Point>): (k: nat)
    requires |pts| > 0
    ensures k < |pts|
  {
    if |pts| == 1 then 0
    else
      var k := NearestIndex(d, from, pts[..|pts| - 1]);
      if d(from, pts[|pts| - 1].loc) < d(from, pts[k].loc) then |pts| - 1 else k
  }

  /** `min` keeps the first of several equally near points: the chosen
      point is at least as near as every point, and strictly nearer than
      every point before it. */
  lemma {:induction false} NearestIndexIsFirstMinimum(d: Distance, from: Location, pts: seq<Point>)
    requires |pts| > 0
    ensures var k := NearestIndex(d, from, pts);
            && (forall j :: 0 <= j < |pts| ==> d(from, pts[k].loc) <= d(from, pts[j].loc))
            && (forall j :: 0 <= j < k ==> d(from, pts[k].loc) < d(from, pts[j].loc))
    decreases |pts|
  {
    if |pts| > 1 {
      var init := pts[..|pts| - 1];
      NearestIndexIsFirstMinimum(d, from, init);
      var m := NearestIndex(d, from, init);
      assert forall j :: 0 <= j < |init| ==> pts[j] == init[j];
      if d(from, pts[|pts| - 1].loc) < d(from, pts[m].loc) {
        assert NearestIndex(d, from, pts) == |pts| - 1;
      } else {
        assert NearestIndex(d, from, pts) == m;
      }
    }
  }

  /** Nearest neighbour from `from`: take the nearest unvisited point, move
      there, repeat. */
  function GreedyOrder(d: Distance, from: Location, pts: seq<Point>): (r: seq<Point>)
    ensures |r| == |pts|
    decreases |pts|
  {
    if pts == [] then []
    else
      var k := NearestIndex(d, from, pts);
      [pts[k]] + GreedyOrder(d, pts[k].loc, RemoveAt(pts, k))
  }

  /** One greedy step: moving the nearest point from the unvisited rest to
      the route keeps the route on course for the same greedy order. */
  lemma GreedyStep(d: Distance, current: Location, unvisited: seq<Point>, route: seq<Point>, target: seq<Point>)
    requires unvisited != []
    requires route + GreedyOrder(d, current, unvisited) == target
    ensures var k := NearestIndex(d, current, unvisited);
            (route + [unvisited[k]]) + GreedyOrder(d, unvisited[k].loc, RemoveAt(unvisited, k)) == target
  {
  }

  /** The state of a nearest-neighbour run that is to end with route
      `target`: the points still unvisited, visited in greedy order from
      here, complete it, and the totals so far are those of `route`. */
  ghost predicate RunState(d: Distance, start: Location, target: seq<Point>, route: seq<Point>, current: Location,
                           unvisited: seq<Point>, totalDistance: real, totalTime: real) {
    && route + GreedyOrder(d, current, unvisited) == target
    && Driven(d, start, route, current, totalDistance, totalTime)
  }

  /** Driving to the nearest unvisited point keeps the run on course. */
  lemma RunStep(d: Distance, start: Location, target: seq<Point>, route: seq<Point>, current: Location,
                unvisited: seq<Point>, totalDistance: real, totalTime: real)
    requires unvisited != []
    requires RunState(d, start, target, route, current, unvisited, totalDistance, totalTime)
    ensures var k := NearestIndex(d, current, unvisited);
            var p := unvisited[k];
            RunState(d, start, target, route + [p], p.loc, RemoveAt(unvisited, k), totalDistance + d(current, p.loc),
                     totalTime + TravelMinutes(d(current, p.loc)) + p.estTime as real)
  {
    var k := NearestIndex(d, current, unvisited);
    GreedyStep(d, current, unvisited, route, target);
    DriveOn(d, start, route, current, totalDistance, totalTime, unvisited[k]);
  }

  /** Greedy visits every point exactly once. */
  lemma {:induction false} GreedyOrderPermutes(d: Distance, from: Location, pts: seq<Point>)
    ensures multiset(GreedyOrder(d, from, pts)) == multiset(pts)
    decreases |pts|
  {
    if pts != [] {
      var k := NearestIndex(d, from, pts);
      GreedyOrderPermutes(d, pts[k].loc, RemoveAt(pts, k));
      RemoveAtFacts(pts, k);
    }
  }

  /** The greedy choice rule, read off the whole tour: each stop is at least
      as close to the position it is reached from as any stop made after it. */
  ghost predicate GreedyChoices(d: Distance, from: Location, route: seq<Point>)
    decreases |route|
  {
    route == [] ||
    ((forall j :: 0 <= j < |route| ==> d(from, route[0].loc) <= d(from, route[j].loc))
     && GreedyChoices(d, route[0].loc, route[1..]))
  }

  /** The point chosen first is no farther than any of the points left. */
  lemma NearestBeatsRest(d: Distance, from: Location, pts: seq<Point>, rest: seq<Point>)
    requires |pts| > 0
    requires multiset(rest) == multiset(RemoveAt(pts, NearestIndex(d, from, pts)))
    ensures forall j :: 0 <= j < |rest| ==> d(from, pts[NearestIndex(d, from, pts)].loc) <= d(from, rest[j].loc)
  {
    var k := NearestIndex(d, from, pts);
    var left := RemoveAt(pts, k);
    NearestIndexIsFirstMinimum(d, from, pts);
    RemoveAtFacts(pts, k);
    forall j | 0 <= j < |rest| ensures d(from, pts[k].loc) <= d(from, rest[j].loc) {
      assert rest[j] in multiset(left);
      var m :| 0 <= m < |left| && left[m] == rest[j];
      assert rest[j] == pts[if m < k then m else m + 1];
    }
  }

  lemma ChoicesCons(d: Distance, from: Location, p: Point, tail: seq<Point>)
    requires forall j :: 0 <= j < |tail| ==> d(from, p.loc) <= d(from, tail[j].loc)
    requires GreedyChoices(d, p.loc, tail)
    ensures GreedyChoices(d, from, [p] + tail)
  {
    assert ([p] + tail)[1..] == tail;
  }

  lemma {:induction false} GreedyOrderChoices(d: Distance, from: Location, pts: seq<Point>)
    ensures GreedyChoices(d, from, GreedyOrder(d, from, pts))
    decreases |pts|
  {
    if pts != [] {
      var k := NearestIndex(d, from, pts);
      var tail := GreedyOrder(d, pts[k].loc, RemoveAt(pts, k));
      GreedyOrderChoices(d, pts[k].loc, RemoveAt(pts, k));
      GreedyOrderPermutes(d, pts[k].loc, RemoveAt(pts, k));
      NearestBeatsRest(d, from, pts, tail);
      ChoicesCons(d, from, pts[k], tail);
    }
  }

  // ---------------------------------------------------------------- hybrid

  /** The three urgency groups of `hybrid_optimized`: 0 for a score of at
      least 70, 1 for [40, 70), 2 below 40. */
  function Band(p: Point): (b: nat)
    ensures b <= 2
  {
    if Urgency(p) >= 70.0 then 0 else if 40.0 <= Urgency(p) then 1 else 2
  }

  /** The points of one group, in input order. */
  function InBand(pts: seq<Point>, b: nat): (r: seq<Point>)
    ensures forall k :: 0 <= k < |r| ==> Band(r[k]) == b
  {
    if pts == [] then []
    else InBand(pts[..|pts| - 1], b) + (if Band(pts[|pts| - 1]) == b then [pts[|pts| - 1]] else [])
  }

  lemma InBandSnoc(init: seq<Point>, p: Point, b: nat)
    ensures InBand(init + [p], b) == InBand(init, b) + (if Band(p) == b then [p] else [])
  {
    assert (init + [p])[..|init|] == init;
  }

  /** Adding one point to exactly the group of its band. */
  lemma PartitionStep(a0: seq<Point>, a1: seq<Point>, a2: seq<Point>, init: seq<Point>, p: Point)
    requires multiset(a0) + multiset(a1) + multiset(a2) == multiset(init)
    ensures multiset(a0 + (if Band(p) == 0 then [p] else []))
          + multiset(a1 + (if Band(p) == 1 then [p] else []))
          + multiset(a2 + (if Band(p) == 2 then [p] else [])) == multiset(init + [p])
  {
  }

  /** The three groups together hold exactly the input points. */
  lemma {:induction false} BandsPartition(pts: seq<Point>)
    ensures multiset(InBand(pts, 0)) + multiset(InBand(pts, 1)) + multiset(InBand(pts, 2)) == multiset(pts)
    decreases |pts|
  {
    if pts != [] {
      var init := pts[..|pts| - 1];
      var p := pts[|pts| - 1];
      BandsPartition(init);
      assert pts == init + [p];
      InBandSnoc(init, p, 0);
      InBandSnoc(init, p, 1);
      InBandSnoc(init, p, 2);
      PartitionStep(InBand(init, 0), InBand(init, 1), InBand(init, 2), init, p);
    }
  }

  /** `hybrid_optimized`: nearest neighbour over the high group from the
      start, then over the medium group from where the high group ended,
      then over the low group. */
  function HybridOrder(d: Distance, start: Location, pts: seq<Point>): seq<Point> {
    var high := GreedyOrder(d, start, InBand(pts, 0));
    var medium := GreedyOrder(d, Last(start, high), InBand(pts, 1));
    high + medium + GreedyOrder(d, Last(start, high + medium), InBand(pts, 2))
  }

  /** The route after the hybrid loop has processed its first `g` groups
      (high, medium, low), each from where the previous one ended. */
  function HybridPrefix(d: Distance, start: Location, pts: seq<Point>, g: nat): seq<Point>
    decreases g
  {
    if g == 0 then []
    else
      var before := HybridPrefix(d, start, pts, g - 1);
      before + GreedyOrder(d, Last(start, before), InBand(pts, g - 1))
  }

  /** After all three groups the loop has built the hybrid order. */
  lemma HybridPrefixComplete(d: Distance, start: Location, pts: seq<Point>)
    ensures HybridPrefix(d, start, pts, 3) == HybridOrder(d, start, pts)
  {
    assert HybridPrefix(d, start, pts, 1) == GreedyOrder(d, start, InBand(pts, 0));
  }

  /** A run over one group visits only points of that group's band. */
  lemma KeepsBand(r: seq<Point>, pts: seq<Point>, b: nat)
    requires multiset(r) == multiset(InBand(pts, b))
    ensures forall i :: 0 <= i < |r| ==> Band(r[i]) == b
  {
    forall i | 0 <= i < |r| ensures Band(r[i]) == b {
      assert r[i] in multiset(InBand(pts, b));
    }
  }

  /** Any arrangement of each group, the groups placed high, medium, low,
      holds every point once with bands in order. */
  lemma GroupedShape(pts: seq<Point>, h: seq<Point>, m: seq<Point>, l: seq<Point>)
    requires multiset(h) == multiset(InBand(pts, 0))
    requires multiset(m) == multiset(InBand(pts, 1))
    requires multiset(l) == multiset(InBand(pts, 2))
    ensures multiset(h + m + l) == multiset(pts)
    ensures var r := h + m + l;
            forall i, j :: 0 <= i < j < |r| ==> Band(r[i]) <= Band(r[j])
  {
    BandsPartition(pts);
    KeepsBand(h, pts, 0);
    KeepsBand(m, pts, 1);
    KeepsBand(l, pts, 2);
    BandsInOrder(h, m, l);
  }

  lemma BandsInOrder(h: seq<Point>, m: seq<Point>, l: seq<Point>)
    requires forall i :: 0 <= i < |h| ==> Band(h[i]) == 0
    requires forall i :: 0 <= i < |m| ==> Band(m[i]) == 1
    requires forall i :: 0 <= i < |l| ==> Band(l[i]) == 2
    ensures var r := h + m + l;
            forall i, j :: 0 <= i < j < |r| ==> Band(r[i]) <= Band(r[j])
  {
    var r := h + m + l;
    forall i | 0 <= i < |r|
      ensures Band(r[i]) == (if i < |h| then 0 else if i < |h| + |m| then 1 else 2)
    {
      if i < |h| {
        assert r[i] == h[i];
      } else if i < |h| + |m| {
        assert r[i] == m[i - |h|];
      } else {
        assert r[i] == l[i - |h| - |m|];
      }
    }
  }

  /** Hybrid visits every point once, and never visits a point of a lower
      urgency group before one of a higher group. */
  lemma HybridProperties(d: Distance, start: Location, pts: seq<Point>)
    ensures multiset(HybridOrder(d, start, pts)) == multiset(pts)
    ensures var r := HybridOrder(d, start, pts);
            forall i, j :: 0 <= i < j < |r| ==> Band(r[i]) <= Band(r[j])
  {
    var high := GreedyOrder(d, start, InBand(pts, 0));
    var medium := GreedyOrder(d, Last(start, high), InBand(pts, 1));
    var low := GreedyOrder(d, Last(start, high + medium), InBand(pts, 2));
    GreedyOrderPermutes(d, start, InBand(pts, 0));
    GreedyOrderPermutes(d, Last(start, high), InBand(pts, 1));
    GreedyOrderPermutes(d, Last(start, high + medium), InBand(pts, 2));
    GroupedShape(pts, high, medium, low);
  }

  // ---------------------------------------------------------------- 2-opt

  function Reversed<T>(s: seq<T>): (r: seq<T>)
    ensures |r| == |s|
    ensures forall k :: 0 <= k < |s| ==> r[k] == s[|s| - 1 - k]
    ensures multiset(r) == multiset(s)
  {
    if s == [] then []
    else
      assert s == [s[0]] + s[1..];
      Reversed(s[1..]) + [s[0]]
  }

  /** `route[:i] + route[i:j+1][::-1] + route[j+1:]`. */
  function TwoOptMove(route: seq<Point>, i: nat, j: nat): (r: seq<Point>)
    requires i <= j < |route|
    ensures |r| == |route|
    ensures multiset(r) == multiset(route)
    ensures 0 < i ==> r[0] == route[0]
  {
    assert route == route[..i] + route[i..j + 1] + route[j + 1..];
    route[..i] + Reversed(route[i..j + 1]) + route[j + 1..]
  }

  /** The length of the tour after reversing `route[i..j]`. */
  function MoveLength(d: Distance, depot: Option<Location>, start: Location, route: seq<Point>, i: nat, j: nat): real
    requires i <= j < |route|
  {
    TourLength(d, depot, start, TwoOptMove(route, i, j))
  }

  /** One pass of the 2-opt scan, continued from (i, j): i runs from 1 to
      n-2 and, for each i, j from i+1 to n-1; the first pair whose value
      lies below `best` is returned. */
  function ScanFrom(n: nat, moveLength: (nat, nat) -> real, best: real, i: nat, j: nat): (r: Option<(nat, nat)>)
    requires 1 <= i < j
    ensures r.Some? ==> 1 <= r.value.0 < r.value.1 < n && moveLength(r.value.0, r.value.1) < best
    decreases n - i, n - j
  {
    if i + 1 >= n then None
    else if j >= n then ScanFrom(n, moveLength, best, i + 1, i + 2)
    else if moveLength(i, j) < best then Some((i, j))
    else ScanFrom(n, moveLength, best, i, j + 1)
  }

  function MoveLengths(d: Distance, depot: Option<Location>, start: Location, route: seq<Point>): (nat, nat) -> real {
    (i: nat, j: nat) => if i <= j < |route| then MoveLength(d, depot, start, route, i, j) else 0.0
  }

  /** The reversal one pass of `two_opt_optimization` applies, if any. */
  function FirstImprovement(d: Distance, depot: Option<Location>, start: Location, route: seq<Point>): (r: Option<(nat, nat)>)
    ensures r.Some? ==> 1 <= r.value.0 < r.value.1 < |route|
    ensures r.Some? ==> MoveLength(d, depot, start, route, r.value.0, r.value.1) < TourLength(d, depot, start, route)
  {
    ScanFrom(|route|, MoveLengths(d, depot, start, route), TourLength(d, depot, start, route), 1, 2)
  }

  /** How the scan moves on from (i, j): to the next row once j has run
      past the end, to the next column when (i, j) is no improvement. */
  lemma ScanStep(n: nat, moveLength: (nat, nat) -> real, best: real, i: nat, j: nat)
    requires 1 <= i < j && i + 1 < n
    ensures j >= n ==> ScanFrom(n, moveLength, best, i, j) == ScanFrom(n, moveLength, best, i + 1, i + 2)
    ensures j < n && moveLength(i, j) < best ==> ScanFrom(n, moveLength, best, i, j) == Some((i, j))
    ensures j < n && moveLength(i, j) >= best ==> ScanFrom(n, moveLength, best, i, j) == ScanFrom(n, moveLength, best, i, j + 1)
  {
  }

  lemma MoveLengthsAt(d: Distance, depot: Option<Location>, start: Location, route: seq<Point>, i: nat, j: nat)
    requires i <= j < |route|
    ensures MoveLengths(d, depot, start, route)(i, j) == TourLength(d, depot, start, TwoOptMove(route, i, j))
  {
  }

  /** No reversal with 1 <= i < j < n shortens the tour. */
  ghost predicate TwoOptLocal(d: Distance, depot: Option<Location>, start: Location, route: seq<Point>) {
    forall i, j :: 1 <= i < j < |route| ==> MoveLength(d, depot, start, route, i, j) >= TourLength(d, depot, start, route)
  }

  /** No pair at or after (i, j), in scanning order, gets below `best`. */
  ghost predicate NoGainFrom(n: nat, moveLength: (nat, nat) -> real, best: real, i: nat, j: nat) {
    forall ii, jj :: 1 <= ii < jj < n && (i < ii || (i == ii && j <= jj)) ==> moveLength(ii, jj) >= best
  }

  /** A pass that finds nothing has looked at every later pair. */
  lemma {:induction false} ScanNone(n: nat, moveLength: (nat, nat) -> real, best: real, i: nat, j: nat)
    requires 1 <= i < j
    requires ScanFrom(n, moveLength, best, i, j).None?
    ensures NoGainFrom(n, moveLength, best, i, j)
    decreases n - i, n - j
  {
    if i + 1 >= n {
    } else if j >= n {
      ScanNone(n, moveLength, best, i + 1, i + 2);
      forall ii, jj | 1 <= ii < jj < n && (i < ii || (i == ii && j <= jj))
        ensures moveLength(ii, jj) >= best
      {
        assert i + 1 < ii || (i + 1 == ii && i + 2 <= jj);
      }
    } else {
      ScanNone(n, moveLength, best, i, j + 1);
      forall ii, jj | 1 <= ii < jj < n && (i < ii || (i == ii && j <= jj))
        ensures moveLength(ii, jj) >= best
      {
        if ii != i || jj != j {
          assert i < ii || (i == ii && j + 1 <= jj);
        }
      }
    }
  }

  lemma FirstImprovementNone(d: Distance, depot: Option<Location>, start: Location, route: seq<Point>)
    requires FirstImprovement(d, depot, start, route).None?
    ensures TwoOptLocal(d, depot, start, route)
  {
    var f := MoveLengths(d, depot, start, route);
    ScanNone(|route|, f, TourLength(d, depot, start, route), 1, 2);
    forall i, j | 1 <= i < j < |route|
      ensures MoveLength(d, depot, start, route, i, j) >= TourLength(d, depot, start, route)
    {
      assert f(i, j) == MoveLength(d, depot, start, route, i, j);
    }
  }

  /** Every arrangement of the elements of `s`. */
  ghost function Arrangements<T>(s: seq<T>): set<seq<T>>
    decreases |s|
  {
    if s == [] then {[]}
    else set i, q | 0 <= i < |s| && q in Arrangements(RemoveAt(s, i)) :: [s[i]] + q
  }

  lemma {:induction false} ArrangementsSound<T>(s: seq<T>, q: seq<T>)
    requires q in Arrangements(s)
    ensures multiset(q) == multiset(s)
    decreases |s|
  {
    if s != [] {
      var i, q' :| 0 <= i < |s| && q' in Arrangements(RemoveAt(s, i)) && q == [s[i]] + q';
      ArrangementsSound(RemoveAt(s, i), q');
      RemoveAtFacts(s, i);
    }
  }

  lemma {:induction false} ArrangementsComplete<T>(s: seq<T>, q: seq<T>)
    requires multiset(q) == multiset(s)
    ensures q in Arrangements(s)
    decreases |s|
  {
    assert |multiset(q)| == |q| && |multiset(s)| == |s|;
    if s != [] {
      assert q[0] in multiset(s);
      var i :| 0 <= i < |s| && s[i] == q[0];
      assert q == [q[0]] + q[1..];
      assert multiset(q) == multiset{q[0]} + multiset(q[1..]);
      RemoveAtFacts(s, i);
      calc {
        multiset(q[1..]);
        multiset(q) - multiset{q[0]};
        multiset(s) - multiset{s[i]};
        multiset(RemoveAt(s, i));
      }
      ArrangementsComplete(RemoveAt(s, i), q[1..]);
    }
  }

  /** The arrangements of `route` that are strictly shorter than it. */
  ghost function Shorter(d: Distance, depot: Option<Location>, start: Location, route: seq<Point>): set<seq<Point>> {
    set q | q in Arrangements(route) && TourLength(d, depot, start, q) < TourLength(d, depot, start, route)
  }

  lemma ProperSubsetSmaller<T>(a: set<T>, b: set<T>, x: T)
    requires a <= b && x in b && x !in a
    ensures |a| < |b|
  {
    assert b == a + (b - a);
    assert x in b - a;
  }

  /** Moving to a strictly shorter arrangement strictly shrinks the set of
      arrangements shorter still: the measure that ends 2-opt. */
  lemma ShorterShrinks(d: Distance, depot: Option<Location>, start: Location, route: seq<Point>, next: seq<Point>)
    requires multiset(next) == multiset(route)
    requires TourLength(d, depot, start, next) < TourLength(d, depot, start, route)
    ensures |Shorter(d, depot, start, next)| < |Shorter(d, depot, start, route)|
  {
    var a := Shorter(d, depot, start, next);
    var b := Shorter(d, depot, start, route);
    forall q | q in a ensures q in b {
      ArrangementsSound(next, q);
      ArrangementsComplete(route, q);
    }
    ArrangementsComplete(route, next);
    ProperSubsetSmaller(a, b, next);
  }

  /** Repeat first-improvement passes until one finds nothing. */
  function TwoOptFrom(d: Distance, depot: Option<Location>, start: Location, route: seq<Point>): seq<Point>
    decreases |Shorter(d, depot, start, route)|
  {
    match FirstImprovement(d, depot, start, route)
    case None => route
    case Some((i, j)) =>
      var next := TwoOptMove(route, i, j);
      ShorterShrinks(d, depot, start, route, next);
      TwoOptFrom(d, depot, start, next)
  }

  /** 2-opt keeps the points, keeps the first stop, never lengthens the tour
      and ends where no single reversal shortens it. */
  lemma {:induction false} TwoOptFromProperties(d: Distance, depot: Option<Location>, start: Location, route: seq<Point>)
    ensures var r := TwoOptFrom(d, depot, start, route);
            && multiset(r) == multiset(route)
            && |r| == |route|
            && (|route| > 0 ==> r[0] == route[0])
            && TourLength(d, depot, start, r) <= TourLength(d, depot, start, route)
            && TwoOptLocal(d, depot, start, r)
    decreases |Shorter(d, depot, start, route)|
  {
    match FirstImprovement(d, depot, start, route)
    case None =>
      FirstImprovementNone(d, depot, start, route);
    case Some((i, j)) =>
      var next := TwoOptMove(route, i, j);
      ShorterShrinks(d, depot, start, route, next);
      TwoOptFromProperties(d, depot, start, next);
  }

  // ---------------------------------------------------------------- results

  /** The statistics every strategy reports for a non-empty route. */
  function Summary(d: Distance, depot: Option<Location>, start: Location, route: seq<Point>, name: string): RouteResult {
    RouteResult(route, TourLength(d, depot, start, route), TourTime(d, depot, start, route), Some(name))
  }

  function GreedyResult(d: Distance, depot: Option<Location>, start: Location, points: seq<Point>): RouteResult {
    if points == [] then NoRoute
    else Summary(d, depot, start, GreedyOrder(d, start, points), "greedy_nearest_neighbor")
  }

  function PriorityResult(d: Distance, depot: Option<Location>, start: Location, points: seq<Point>): RouteResult {
    if points == [] then NoRoute
    else Summary(d, depot, start, Sorting.SortDesc(points, Urgency), "priority_based")
  }

  function HybridResult(d: Distance, depot: Option<Location>, start: Location, points: seq<Point>): RouteResult {
    if points == [] then NoRoute
    else Summary(d, depot, start, HybridOrder(d, start, points), "hybrid_optimized")
  }

  /** Fewer than two points come back unchanged with zero distance and time,
      a single point included. */
  function TwoOptResult(d: Distance, depot: Option<Location>, start: Location, initial: seq<Point>): RouteResult {
    if |initial| < 2 then RouteResult(initial, 0.0, 0.0, None)
    else Summary(d, depot, start, TwoOptFrom(d, depot, start, initial), "two_opt_optimized")
  }

  /** `optimize`: any name other than the three listed selects hybrid. */
  function OptimizeResult(d: Distance, depot: Option<Location>, start: Location, points: seq<Point>, algorithm: string): RouteResult {
    if algorithm == "greedy" then GreedyResult(d, depot, start, points)
    else if algorithm == "priority" then PriorityResult(d, depot, start, points)
    else if algorithm == "two_opt" then TwoOptResult(d, depot, start, GreedyResult(d, depot, start, points).route)
    else HybridResult(d, depot, start, points)
  }

  const CompareOrder: seq<string> := ["greedy", "priority", "hybrid", "two_opt"]
}
