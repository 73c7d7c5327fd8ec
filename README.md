# Smart waste management: a verified model of the backend core

The system tracks public waste bins fitted with fill-level sensors. Its
FastAPI backend stores bins, sensor telemetry, camera-side AI alerts,
collection crews, collection tasks and collection routes; it classifies a
bin by its fill level, plans collection routes with four strategies
(greedy nearest neighbour, priority order, hybrid urgency bands, 2-opt
improvement), predicts when a bin will be full from its fill history,
flags anomalous sensor readings, and simulates AI alerts with
fill- and time-dependent probabilities. The Next.js frontend maps backend
statuses to badges, renders relative timestamps, validates the sign-up
form and derives the header title and avatar initials.

This project models that core in Dafny, one module per source file:

- `Common`: optional values, results with HTTP error outcomes, sequence helpers.
- `Store`: the database as a class whose fields are the tables, rows in
  insertion order with unique primary keys.
- `Utils`, `TelemetryRouter`, `AlertsRouter`, `BinsRouter`, `CrewsRouter`,
  `TasksRouter`, `StatsRouter`, `RoutesRouter`, `PredictionsRouter`: the
  routers, each handler a method over the database with its error cases
  as `Err` results.
- `Tour` (specification functions) and `RouteOptimizer` (the optimiser
  class whose loops are proved equal to them): the route service.
- `Sorting`: Python's stable sort on a real key.
- `MlPredictor`: the fill predictor, anomaly detector, collection
  optimiser and the service object that joins them, as classes.
- `AlertSimulation`: the simulator's alert-probability rule.
- `StatusMapper`, `Signup`, `DashboardLayout`: the frontend helpers.

Distances between locations are a parameter (any non-negative function);
clocks, identifiers drawn from `uuid`, bin locations and numpy's standard
deviation are parameters as well. Reals are exact.

Behaviours of the route service worth noting:

- the efficiency score of a route is its number of bins per kilometre, and
  0 for a route of zero length (`backend/routers/routes.py:129-132`);
- the recommended strategy of a comparison is the first of the highest
  efficiency scores in the order greedy, priority, hybrid, 2-opt, as
  Python's `max` picks it (`backend/routers/routes.py:230`);
- every collection point gets a fixed 10 minutes of service time
  (`backend/routers/routes.py:96-108`);
- 2-opt repeats first-improvement passes, never moving the first stop,
  until a pass finds no shorter arrangement; the model proves it
  terminates because each pass strictly shortens the tour among finitely
  many arrangements (`backend/services/route_optimizer.py:196-212`);
- the comparison of fewer than two bins and an optimisation with 2-opt on
  one bin fail with a server error, since the optimiser's answer then
  lacks its algorithm name;
- analytics reduce the history table that status updates write, and read
  no route records (`backend/routers/routes.py:356-384`).

## Model

| member | source | states |
|---|---|---|
| Utils.DetermineBinStatus | backend/utils.py:3-18 | the status is "full" exactly when the fill level is at least 90, "warning" exactly when it is in [80, 90), and "ok" exactly below 80 |
| Utils.StatusMonotone | backend/utils.py:13-18 | a fuller bin never gets a less serious status (ok < warning < full) |
| Utils.FormatTimestampResponse | backend/utils.py:29-39 | the response text is the ISO text followed by exactly one "Z" |
| TelemetryRouter.EffectiveTimestamp | backend/routers/telemetry.py:20 | the payload's timestamp when it has one, otherwise the current time |
| TelemetryRouter.AfterReading | backend/routers/telemetry.py:22-34 | fill level replaced and status recomputed from it; battery, temperature and humidity replaced only when supplied; the reading time recorded; id, location and capacity unchanged |
| TelemetryRouter.IngestTelemetry | backend/routers/telemetry.py:10-42 | 422 and no change for a payload outside its field limits; 404 and no change for an unregistered bin; otherwise only that bin's row becomes AfterReading and the acknowledgement carries the bin id and effective time |
| AlertsRouter.CreateAiAlert | backend/routers/alerts.py:11-38 | 404 and nothing stored for an unregistered bin; otherwise exactly one row is appended under the next id, stamped with the payload's time or the current time, and ids stay unique |
| AlertsRouter.NewAlertIdFresh | backend/routers/alerts.py:23-31 | an alert stored under the next id keeps alert ids unique and below the id counter |
| AlertsRouter.GetAlerts | backend/routers/alerts.py:40-55 | the answer is a permutation of the stored alerts, newest first |
| AlertsRouter.GetAlert | backend/routers/alerts.py:57-70 | found exactly when a stored alert has that id, and then it is that alert; otherwise 404 |
| AlertsRouter.DeleteAlert | backend/routers/alerts.py:72-81 | 404 and no change for an unknown id; otherwise exactly that row is removed and no alert with that id remains |
| BinsRouter.BinResponse | backend/models.py:6-11 | a row can be answered exactly when its capacity is at least 1 and its fill level is within 0..100; otherwise the answer fails with 500; an answer copies the row's id, location, capacity, fill level and status |
| BinsRouter.ListBins | backend/routers/bins.py:11-21 | every row, in table order, answered one to one; 500 exactly when some row cannot be answered |
| BinsRouter.GetBin | backend/routers/bins.py:51-64 | 404 exactly for an unknown id; otherwise the response built from that id's stored row, so an answer always carries the requested id |
| BinsRouter.NewBin | backend/routers/bins.py:30-38 | the inserted row keeps the request's id and fill level, takes its status from the fill level and has no sensor readings yet |
| BinsRouter.UpdatedBin | backend/routers/bins.py:73-85 | the sensor readings are unchanged; each of location, capacity and fill level is taken when supplied and kept otherwise; a supplied fill level sets the status from it and overrides a supplied status; without one, a supplied settable status is applied and any other ("warning" included) leaves the status as it was; an empty request changes nothing |
| BinsRouter.CreateBin | backend/routers/bins.py:23-49 | 409 and no change for an existing id; otherwise the new row is appended and the answer is built from it, 500 included when it breaks the response model |
| BinsRouter.UpdateBin | backend/routers/bins.py:66-96 | 422 and no change for a request outside its limits; 404 and no change for an unknown id; otherwise only that row becomes UpdatedBin |
| BinsRouter.DeleteBin | backend/routers/bins.py:98-107 | 404 and no change for an unknown id; otherwise exactly that row is removed and the id is gone |
| CrewsRouter.NewCrew | backend/routers/crews.py:34-43 | a new crew keeps its id, is "available", is stamped with the creation time and has no position |
| CrewsRouter.UpdateCrewChangesOnlySupplied | backend/routers/crews.py:86-99 | an update keeps id, creation time and coordinates; each of name, leader, member count, status, phone, email and current location is the supplied value when given and the stored one otherwise; an empty request changes nothing |
| CrewsRouter.GetCrew | backend/routers/crews.py:60-77 | found exactly when a crew has that id, and then it is that crew; otherwise 404 |
| CrewsRouter.TasksOfCrew | backend/routers/crews.py:137 | a task is listed exactly when it is stored and names that crew |
| CrewsRouter.GetCrewTasks | backend/routers/crews.py:127-152 | 404 exactly for an unknown crew; otherwise exactly the tasks assigned to it |
| CrewsRouter.CreateCrew | backend/routers/crews.py:27-58 | 409 and no change for a known id; otherwise the available crew is appended and answered |
| CrewsRouter.ApplyCrewEdits | backend/routers/crews.py:86-99 | the field-by-field assignments give exactly the updated crew |
| CrewsRouter.UpdateCrew | backend/routers/crews.py:79-114 | 404 and no change for an unknown id; otherwise only that crew is replaced by its updated row |
| CrewsRouter.DeleteCrew | backend/routers/crews.py:116-125 | 404 and no change for an unknown id; otherwise exactly that row is removed and the id is gone |
| TasksRouter.NewTask | backend/routers/tasks.py:44-56 | a new task keeps its id and bin, starts "pending" with no crew and no completion time, and is stamped with the creation time |
| TasksRouter.WithCrew | backend/routers/tasks.py:125-128 | giving a task a crew sets that crew; a pending task becomes "in-progress", any other status stays; no other field changes |
| TasksRouter.UpdateKeepsUnsupplied | backend/routers/tasks.py:107-132 | an update keeps id, bin, alert, creation and due date; each of title, description, priority, location and estimate is the supplied value when given and the stored one otherwise; an empty request changes nothing |
| TasksRouter.UpdateCrewRule | backend/routers/tasks.py:113-128 | with a crew the task takes that crew and is never left pending; without one the crew is kept and the status is exactly the one supplied, if any |
| TasksRouter.UpdateCompletionRule | backend/routers/tasks.py:113-132 | an explicit completion time wins; otherwise a recorded one is kept, and a move to "completed" stamps the current time only when none was recorded |
| TasksRouter.ActivatedCrew | backend/routers/tasks.py:169-171 | an available crew becomes "active"; any other crew is unchanged |
| TasksRouter.ListTasks | backend/routers/tasks.py:11-29 | the answer is a permutation of the stored tasks, newest first |
| TasksRouter.GetTask | backend/routers/tasks.py:77-98 | found exactly when a task has that id, and then it is that task; otherwise 404 |
| TasksRouter.CreateTask | backend/routers/tasks.py:31-75 | 409 for a known id; 404 for a truthy bin id naming no bin; in every other case the new pending task is appended, and nothing changes on an error |
| TasksRouter.ApplyEdits | backend/routers/tasks.py:107-119 | the assignments before the crew check give exactly the edited row |
| TasksRouter.UpdateTask | backend/routers/tasks.py:100-151 | 404 and no change exactly when the task is unknown or a supplied crew names no crew; otherwise only that task is replaced by its updated row |
| TasksRouter.AssignTask | backend/routers/tasks.py:153-190 | 404 and no change exactly when the task or the crew is unknown; otherwise the task gets the crew (pending becomes in progress) and an available crew becomes active |
| TasksRouter.DeleteTask | backend/routers/tasks.py:192-201 | 404 and no change for an unknown id; otherwise exactly that row is removed and the id is gone |
| StatsRouter.BumpCounts | backend/routers/stats.py:41-44 | one loop step adds one to the counted key, changes no other count, keeps keys unique and raises the total by one |
| StatsRouter.TallyCounts | backend/routers/stats.py:39-44 | after the loop every key's count is its number of occurrences, keys are unique, and the counts add up to the number of rows |
| StatsRouter.CountBy | backend/routers/stats.py:39-44 | the counting loop computes exactly the tally of the keys in row order |
| StatsRouter.GetBinStats | backend/routers/stats.py:32-49 | the by-status counters are the tally of the bins' statuses and the total is the number of bins |
| StatsRouter.GetAlertStats | backend/routers/stats.py:51-68 | the by-type counters are the tally of the alerts' types and the total is the number of alerts |
| StatsRouter.BreakdownSumsToTotal | backend/routers/stats.py:46-49 | in both breakdowns the counters add up to the reported total |
| StatsRouter.FullAreOnline | backend/routers/stats.py:15-17 | full bins are at most the online bins, which are at most all bins |
| StatsRouter.AverageFillInRange | backend/routers/stats.py:21-28 | with fill levels within 0..100, the reported average fill lies within 0..100 |
| StatsRouter.OfflineComplement | backend/routers/stats.py:15-29 | every bin is either online or marked "offline", so the offline count is the number of bins marked "offline" |
| StatsRouter.GetDashboardStats | backend/routers/stats.py:9-30 | online bins are those not "offline", full bins those "full", offline bins the total minus the online ones, which is exactly the bins marked "offline"; the average fill is the unrounded mean fill level (0 without bins); full never exceeds online; every stored alert counts as active |
| Store.IndexOf | backend/routers/bins.py:54-56 | a lookup by key that finds a position whose row carries the key, and finds nothing only when no row carries it |
| Store.UniqueAppend | backend/database.py:14 | inserting a row whose key is absent keeps the primary key unique |
| Store.UniqueRemove | backend/database.py:14 | deleting a row keeps the key unique, and the deleted key can no longer be found |
| Store.IndexOfUnique | backend/database.py:14 | with a unique key, the lookup of a row's key finds exactly that row |
| Store.Database.constructor | backend/database.py:11-30 | an empty database satisfies the table invariants (unique keys, alert ids below the id counter) |
| Tour.PathLength | backend/services/route_optimizer.py:109-115 | the distance driven along a route is a sum of legs and never negative |
| Tour.ReturnLeg | backend/services/route_optimizer.py:117-120 | the leg back to the depot is non-negative, and zero when no depot is set |
| Tour.TourLength | backend/services/route_optimizer.py:185-191 | the tour length (start, every stop, depot if set) is never negative |
| Tour.PathStep | backend/services/route_optimizer.py:72-78 | driving one more stop adds exactly that leg to the distance, its travel and collection minutes to the time, and moves the vehicle there |
| Tour.DriveOn | backend/services/route_optimizer.py:109-115 | the running position and totals stay those of the route driven so far after one more stop |
| Tour.PathAppend | backend/services/route_optimizer.py:149-162 | driving one route and then another costs the sum of both, each from where the previous ended |
| Tour.TimeIsDrivingPlusService | backend/services/route_optimizer.py:74-83 | at 30 km/h the total time is exactly two minutes per km driven plus the collection minutes, with or without the depot leg |
| Tour.ServiceMinutesPermutation | backend/services/route_optimizer.py:74 | the collection minutes of a route do not depend on the visiting order |
| Tour.NearestIndex | backend/services/route_optimizer.py:69-70 | the chosen index lies within the unvisited points |
| Tour.NearestIndexIsFirstMinimum | backend/services/route_optimizer.py:69-70 | the chosen point is no farther than any other, and strictly nearer than every point before it, as Python's min picks the first minimum |
| Tour.GreedyOrder | backend/services/route_optimizer.py:61-78 | the greedy order has as many stops as there are points |
| Tour.GreedyStep | backend/services/route_optimizer.py:69-78 | moving the nearest point from the unvisited rest to the route keeps the run on course for the greedy order |
| Tour.RunStep | backend/services/route_optimizer.py:67-78 | one iteration of the while-unvisited loop keeps both the target order and the running totals |
| Tour.GreedyOrderPermutes | backend/services/route_optimizer.py:52-90 | greedy visits every point exactly once: its route is a permutation of the input |
| Tour.GreedyOrderChoices | backend/services/route_optimizer.py:67-78 | along the greedy route every stop is no farther from the previous position than any stop still to come |
| Tour.NearestBeatsRest | backend/services/route_optimizer.py:69-70 | the point chosen first is no farther than any of the points left |
| Tour.Band | backend/services/route_optimizer.py:139-141 | each point falls in exactly one of the three urgency groups (score >= 70, 40..70, < 40) |
| Tour.InBand | backend/services/route_optimizer.py:139-141 | a group holds only points of its band |
| Tour.BandsPartition | backend/services/route_optimizer.py:139-141 | the three groups together hold exactly the input points |
| Tour.HybridPrefixComplete | backend/services/route_optimizer.py:149-162 | after all three groups the loop has built the hybrid order |
| Tour.GroupedShape | backend/services/route_optimizer.py:149-162 | any arrangement of each group, placed high, medium, low, is a permutation of the input with non-decreasing band |
| Tour.HybridProperties | backend/services/route_optimizer.py:129-174 | hybrid visits every point exactly once and never visits a less urgent group before a more urgent one |
| Tour.Reversed | backend/services/route_optimizer.py:203 | the reversed segment has the same length and elements, in reverse order |
| Tour.TwoOptMove | backend/services/route_optimizer.py:203 | reversing route[i..j] keeps the length and the points, and keeps the first stop when i > 0 |
| Tour.FirstImprovement | backend/services/route_optimizer.py:196-212 | a reversal the pass applies has 1 <= i < j < n and gives a strictly shorter tour |
| Tour.ScanNone | backend/services/route_optimizer.py:200-212 | a pass that finds nothing has checked every later pair in scanning order |
| Tour.FirstImprovementNone | backend/services/route_optimizer.py:196-212 | when a pass finds nothing, no reversal with 1 <= i < j < n shortens the tour (2-opt local optimum) |
| Tour.ArrangementsComplete | backend/services/route_optimizer.py:196-212 | every permutation of the route is among its arrangements, so the shorter arrangements bound the number of passes |
| Tour.ShorterShrinks | backend/services/route_optimizer.py:206-209 | moving to a strictly shorter arrangement strictly shrinks the set of shorter arrangements, so the improvement loop terminates |
| Tour.TwoOptFromProperties | backend/services/route_optimizer.py:176-234 | 2-opt keeps the points and the first stop, never lengthens the tour, and ends at a 2-opt local optimum |
| RouteOptimizer.RouteOptimizer.constructor | backend/services/route_optimizer.py:45-46 | a new optimiser has no depot |
| RouteOptimizer.RouteOptimizer.SetDepot | backend/services/route_optimizer.py:48-50 | the depot becomes the given location |
| RouteOptimizer.RouteOptimizer.Drive | backend/services/route_optimizer.py:104-115 | the for-point loop ends at the last stop with the route's distance and time |
| RouteOptimizer.RouteOptimizer.ReturnToDepot | backend/services/route_optimizer.py:117-127 | adding the depot leg yields the summary of the route: tour length and tour time |
| RouteOptimizer.RouteOptimizer.NearestNeighborRun | backend/services/route_optimizer.py:61-78 | the while-unvisited loop appends exactly the greedy order of the points to the route, with matching totals |
| RouteOptimizer.RouteOptimizer.GreedyNearestNeighbor | backend/services/route_optimizer.py:52-90 | the result is the greedy order's summary, or the empty result for no points |
| RouteOptimizer.RouteOptimizer.PriorityBased | backend/services/route_optimizer.py:92-127 | the result is the stable most-urgent-first order's summary, or the empty result for no points |
| RouteOptimizer.RouteOptimizer.HybridOptimized | backend/services/route_optimizer.py:129-174 | the result is the summary of the high, medium, low nearest-neighbour order, or the empty result for no points |
| RouteOptimizer.RouteOptimizer.RouteDistance | backend/services/route_optimizer.py:185-191 | the computed distance is the tour length |
| RouteOptimizer.RouteOptimizer.TwoOptPass | backend/services/route_optimizer.py:196-212 | a pass reports an improvement exactly when a first shorter reversal exists, and then applies that reversal; otherwise the route is unchanged |
| RouteOptimizer.RouteOptimizer.TwoOptOptimization | backend/services/route_optimizer.py:176-234 | fewer than two points come back unchanged with zero totals; otherwise the result is the 2-opt fixpoint's summary |
| RouteOptimizer.RouteOptimizer.Optimize | backend/services/route_optimizer.py:236-259 | "greedy", "priority" and "two_opt" (2-opt seeded with the greedy route) select their strategy; any other name selects hybrid |
| RouteOptimizer.RouteOptimizer.CompareAlgorithms | backend/services/route_optimizer.py:261-274 | one result per strategy, in the order greedy, priority, hybrid, two_opt |
| Sorting.SortDesc | backend/services/route_optimizer.py:102 | sorting by a key, highest first, returns a permutation of its input |
| Sorting.SortDescSorted | backend/services/route_optimizer.py:102 | the sorted sequence is non-increasing in the key |
| Sorting.WithKeyPrefix | backend/routers/predictions.py:174-178 | cutting a sequence short keeps, for every key, a prefix of the elements carrying it |
| Sorting.SortDescStable | backend/services/route_optimizer.py:102 | the sort is stable: the elements sharing a key keep their input order, as Python's sorted(..., reverse=True) does |
| RoutesRouter.DeterminePriority | backend/routers/routes.py:51-58 | priority 3 exactly for a full bin or one at 90% or more, 2 exactly for a non-full bin in 70..89, 1 exactly for a non-full bin under 70 |
| RoutesRouter.FoundBins | backend/routers/routes.py:69 | the query answers exactly the stored bins whose id was requested |
| RoutesRouter.FoundBinsUnique | backend/routers/routes.py:69-73 | over a table with unique ids the found bins have distinct ids |
| RoutesRouter.FoundIdsExisting | backend/routers/routes.py:69-73 | the ids found are exactly the requested ids that exist, one bin each |
| RoutesRouter.FoundAllIff | backend/routers/routes.py:71-77 | the count check passes exactly when every requested id exists and none is requested twice |
| RoutesRouter.StartLocation | backend/routers/routes.py:80-93 | a start with truthy coordinates wins; with neither a start nor a crew id the route starts at the depot (the crew case is stated by StartFromCrew) |
| RoutesRouter.StartFromCrew | backend/routers/routes.py:82-93 | without an explicit start and with a crew id, the first crew with that id starts the route at its own position when both its coordinates are truthy, and at the depot otherwise; an unknown crew starts it at the depot |
| RoutesRouter.CompareStart | backend/routers/routes.py:175-178 | the comparison's start is the optimisation's start with no crew |
| RoutesRouter.Points | backend/routers/routes.py:96-108 | one collection point per found bin, in query order, with its fill, its priority and 10 service minutes |
| RoutesRouter.CollectionPoints | backend/routers/routes.py:96-108 | the collection loop builds exactly those points |
| RoutesRouter.Waypoints | backend/routers/routes.py:117-126 | one waypoint per stop, in route order, numbered from 1 |
| RoutesRouter.BuildWaypoints | backend/routers/routes.py:117-126 | the waypoint loop builds exactly those waypoints |
| RoutesRouter.WaypointOrders | backend/routers/routes.py:117-126 | waypoint k has order k+1 and the stop's bin, and orders strictly increase |
| RoutesRouter.Efficiency | backend/routers/routes.py:129-132 | the score is never negative, times the distance gives the bin count, and is 0 for a route of no length |
| RoutesRouter.PlanRoute | backend/routers/routes.py:96-132 | the optimiser receives the points and returns a reordering of them; it fails exactly for no bins or 2-opt under two bins; every waypoint names a requested bin |
| RoutesRouter.SaveRoute | backend/routers/routes.py:135-150 | the planned route is appended to the route table, which keeps unique ids |
| RoutesRouter.OptimizeRoute | backend/routers/routes.py:60-160 | 404 exactly when some requested bin is missing (or requested twice); 500 exactly for no bins or 2-opt on one bin; it succeeds in every other case, and the answer is the optimiser's result for the requested strategy on the found bins from the chosen start: its strategy name, distance and time, its stops as waypoints numbered 1..n, and bins per kilometre as efficiency; the planned route is saved, and its id answered, exactly when asked |
| RoutesRouter.OptimizeOutcome | backend/services/route_optimizer.py:236-259 | whatever the strategy the optimiser's route is a permutation of its points, names the strategy, and fails exactly for no points or 2-opt under two |
| RoutesRouter.RouteBinsRequested | backend/routers/routes.py:96-126 | every stop of the optimised route is one of the requested bins |
| RoutesRouter.CompareOutcome | backend/routers/routes.py:195-198 | in a comparison some strategy fails exactly when fewer than two points are given; every result covers all points and names its strategy |
| RoutesRouter.BestIndex | backend/routers/routes.py:230 | the recommended index holds a largest score and no earlier entry reaches it (Python's max keeps the first) |
| RoutesRouter.ToAnswers | backend/routers/routes.py:201-227 | the conversion fails (500) exactly when some strategy failed; otherwise one answer per strategy in order |
| RoutesRouter.CompareFound | backend/routers/routes.py:181-235 | 500 exactly under two bins; otherwise four unsaved answers in the order greedy, priority, hybrid, 2-opt, each exactly that strategy's optimiser result over all found bins from the start (distance, time, waypoints, efficiency), and the recommendation is the first best efficiency |
| RoutesRouter.CompareRoutes | backend/routers/routes.py:162-235 | 404 unless every requested bin exists; 500 exactly for fewer than two bins; it succeeds in every other case, with each strategy's answer exactly its optimiser result on the found bins from the explicit start or the depot, and the first best efficiency recommended |
| RoutesRouter.StatusUpdateRules | backend/routers/routes.py:301-309 | the status is replaced and nothing else of the plan changes; the start time is set once, on the first "active"; completion stamps the time and takes a truthy actual time |
| RoutesRouter.ApplyStatus | backend/routers/routes.py:301-309 | the assignments compute exactly that updated route |
| RoutesRouter.HistoryOf | backend/routers/routes.py:311-325 | the history row counts the route's bins and carries its id, crew, distance, completion time and the notes; its time is the actual time when truthy, else the estimate; its efficiency is bins per kilometre, 0 for no distance |
| RoutesRouter.CompletedHistoryTime | backend/routers/routes.py:306-317 | a route completed by a status update records the update's actual time when truthy, else an earlier recorded actual time when truthy, else the estimate |
| RoutesRouter.UpdateRouteStatus | backend/routers/routes.py:290-343 | 404 and no change for an unknown route; otherwise only that route is replaced by its update, and a history row is appended exactly when the status is "completed" |
| RoutesRouter.RouteAnalyticsOf | backend/routers/routes.py:356-384 | counts the completed routes; all zeros without history; otherwise the averages times the count give the sums |
| RoutesRouter.AnalyticsAppend | backend/routers/routes.py:372-376 | completing one more route adds one route, its bins and its distance to the totals |
| RoutesRouter.AverageEfficiencyNonNegative | backend/routers/routes.py:372-376 | history written by the status update never averages to a negative efficiency |
| MlPredictor.LastN | backend/services/ml_predictor.py:34-35 | the window keeps the newest `n` entries, or all when there are fewer |
| MlPredictor.PairRate | backend/services/ml_predictor.py:49-61 | a pair of readings yields a rate exactly when time and level both rise, and the rate is positive |
| MlPredictor.Rates | backend/services/ml_predictor.py:47-61 | every collected rate is positive and there are fewer rates than readings |
| MlPredictor.RatesStep | backend/services/ml_predictor.py:49-61 | one loop step appends the pair's rate exactly when the pair rises |
| MlPredictor.MedianWithin | backend/services/ml_predictor.py:66-67 | some rate is at most the median and some rate is at least it |
| MlPredictor.MedianPositive | backend/services/ml_predictor.py:66-67 | the median of positive rates is positive |
| MlPredictor.FillRateFacts | backend/services/ml_predictor.py:37-67 | no rate exactly for an unknown bin or one without a rising pair (so under two readings); otherwise a positive rate |
| MlPredictor.Confidence | backend/services/ml_predictor.py:89-90 | confidence is points/50 capped at 0.95, reached exactly from 48 points |
| MlPredictor.PredictionFacts | backend/services/ml_predictor.py:69-100 | a prediction exists exactly when a fill rate does; the hours times the rate give the remaining capacity, positive exactly below 100%; it reports the rate, the points and their confidence |
| MlPredictor.HoursSign | backend/services/ml_predictor.py:82-83 | dividing the remaining capacity by a positive rate keeps its sign and inverts the multiplication |
| MlPredictor.HourOf | backend/services/ml_predictor.py:114 | the hour of a timestamp is in 0..23 |
| MlPredictor.HourRates | backend/services/ml_predictor.py:110-119 | the rates collected for one hour are all positive |
| MlPredictor.PatternEntries | backend/services/ml_predictor.py:122-127 | every pattern entry is an hour that has rates, with their mean, which is positive |
| MlPredictor.MeanPositive | backend/services/ml_predictor.py:125 | a mean of a positive sum is positive |
| MlPredictor.PatternIncreasing | backend/services/ml_predictor.py:107-125 | pattern hours appear once each, in increasing order |
| MlPredictor.PatternComplete | backend/services/ml_predictor.py:123-125 | every hour that has rates appears in the pattern |
| MlPredictor.BinFillPredictor.constructor | backend/services/ml_predictor.py:19-21 | the predictor starts with no history |
| MlPredictor.BinFillPredictor.AddDataPoint | backend/services/ml_predictor.py:23-35 | only that bin's readings change: the new reading is appended and the newest 100 kept; a new bin joins the key order at its end |
| MlPredictor.BinFillPredictor.CalculateFillRate | backend/services/ml_predictor.py:37-67 | the rate loop computes the median-of-rising-pairs rate |
| MlPredictor.BinFillPredictor.PredictFullTime | backend/services/ml_predictor.py:69-100 | the method's answer is the prediction whose properties are proved above |
| MlPredictor.BinFillPredictor.GetHourlyPattern | backend/services/ml_predictor.py:102-127 | the hourly loops compute the pattern: empty for an unknown bin, otherwise hour by hour the mean rate |
| MlPredictor.HourRatesStep | backend/services/ml_predictor.py:110-119 | one loop step appends the pair's rate to its own hour's list and to no other |
| MlPredictor.MetricsComplete | backend/services/ml_predictor.py:148 | the loop visits all four metrics |
| MlPredictor.FreshBaselines | backend/services/ml_predictor.py:139-145 | a new bin starts every metric with no values, mean 0 and deviation 0 |
| MlPredictor.RecordedValid | backend/services/ml_predictor.py:152-158 | the baseline window never exceeds 50 values, none negative |
| MlPredictor.RecordedFacts | backend/services/ml_predictor.py:152-163 | a missing or negative reading changes nothing; otherwise it is the newest value; under 5 values mean and deviation stay; from 5 the mean is that of the window |
| MlPredictor.RecordedStep | backend/services/ml_predictor.py:148-163 | one metric step updates that metric's baseline only, and only for a usable reading |
| MlPredictor.RecordedPrefix | backend/services/ml_predictor.py:148-163 | after k steps the first k metrics are recorded and the others untouched |
| MlPredictor.RecordedAll | backend/services/ml_predictor.py:148-163 | after the loop every metric's baseline has recorded its own reading |
| MlPredictor.AnomalyRules | backend/services/ml_predictor.py:184-206 | every reported anomaly has a usable reading, a baseline of 5+ values and non-zero deviation, a z-score above the sensitivity, and "high" severity exactly above 3; every metric that qualifies is reported |
| MlPredictor.BaselinesOf | backend/services/ml_predictor.py:139-145 | a bin's baselines cover all four metrics |
| MlPredictor.UpdatedFacts | backend/services/ml_predictor.py:137-163 | the update records this bin's readings, keeps every other bin's baselines and keeps all windows valid |
| MlPredictor.AnomalyDetector.constructor | backend/services/ml_predictor.py:133-135 | the detector starts with its sensitivity and no baselines |
| MlPredictor.AnomalyDetector.UpdateBaseline | backend/services/ml_predictor.py:137-163 | the baselines become exactly the updated map described above |
| MlPredictor.AnomalyDetector.RecordAll | backend/services/ml_predictor.py:148-163 | the metric loop records all four metrics |
| MlPredictor.AnomalyDetector.Record | backend/services/ml_predictor.py:153-163 | recording one usable reading gives the recorded baseline |
| MlPredictor.AnomalyDetector.DetectAnomalies | backend/services/ml_predictor.py:165-208 | the loop lists exactly the anomalies whose rules are proved above, in metric order |
| MlPredictor.Trunc | backend/services/ml_predictor.py:258-266 | Python's `int()`: truncation toward zero for both signs |
| MlPredictor.Decide | backend/services/ml_predictor.py:217-268 | collect exactly at or over the threshold or when full within 24 hours; "high" exactly at or over the threshold, "medium" exactly for the 24-hour case, "low" exactly when not collecting; "now" and "unknown" in their cases; "within" the truncated hours until full (at most 24), otherwise "in" the truncated hours minus 12 (at least 12); the prediction is attached exactly below the threshold when one exists |
| MlPredictor.UrgencyBoost | backend/services/ml_predictor.py:284-297 | the urgency never falls below the fill level and exceeds it exactly when the bin is predicted full in under 24 hours |
| MlPredictor.Scored | backend/services/ml_predictor.py:282-297 | one (id, urgency) pair per bin, in input order |
| MlPredictor.Names | backend/services/ml_predictor.py:301 | the ids of the pairs, in order |
| MlPredictor.NamesPermutation | backend/services/ml_predictor.py:299-301 | reordering the pairs reorders their ids the same way |
| MlPredictor.CollectionOrderFacts | backend/services/ml_predictor.py:270-301 | the order is a permutation of the bin ids, sorted by non-increasing urgency, stable among equal scores |
| MlPredictor.CollectionOptimizer.constructor | backend/services/ml_predictor.py:214-215 | the optimiser starts with an empty predictor |
| MlPredictor.CollectionOptimizer.ShouldCollectNow | backend/services/ml_predictor.py:217-268 | the advice is the decision above on this predictor's prediction |
| MlPredictor.CollectionOptimizer.Urgency | backend/services/ml_predictor.py:284-297 | the loop body's score is the urgency above |
| MlPredictor.CollectionOptimizer.OptimizeCollectionRoute | backend/services/ml_predictor.py:270-301 | the method answers the sorted collection order above |
| MlPredictor.PredictableBound | backend/services/ml_predictor.py:362-365 | no more bins have predictions than are tracked |
| MlPredictor.PointsBound | backend/services/ml_predictor.py:358-360 | between one and 100 data points per tracked bin |
| MlPredictor.StatisticsBounds | backend/services/ml_predictor.py:355-375 | predictions at most bins tracked, coverage within 0..100, data points between the bins tracked and 100 times as many |
| MlPredictor.MLPredictionService.constructor | backend/services/ml_predictor.py:307-311 | the service starts empty, its optimiser sharing the fill predictor |
| MlPredictor.MLPredictionService.IngestTelemetry | backend/services/ml_predictor.py:313-320 | a present, non-negative fill level adds one reading to the bin's history, and every reading updates the baselines |
| MlPredictor.MLPredictionService.GetStatistics | backend/services/ml_predictor.py:355-375 | the statistics are those above over the tracked bins in insertion order |
| PredictionsRouter.PredictFillTime | backend/routers/predictions.py:48-70 | 404 exactly for an unknown bin, 400 exactly for a known bin without a fill rate; otherwise the prediction for that bin at its stored fill level |
| PredictionsRouter.PeakHours | backend/routers/predictions.py:174-178 | at most three peak hours, all of them when there are fewer |
| PredictionsRouter.PeakHoursFacts | backend/routers/predictions.py:174-178 | the peak hours are pattern entries taken without repetition, by non-increasing rate; no left-out hour has a higher rate than any kept one, and among equal rates the earliest hours are kept |
| PredictionsRouter.PeakHoursKept | backend/routers/predictions.py:174-178 | the peak hours are a sub-multiset of the pattern, and for each rate the kept hours are the first ones of that rate in pattern order, as the stable sort then `[:3]` gives |
| PredictionsRouter.UsagePatternOf | backend/routers/predictions.py:163-179 | 400 exactly for an empty pattern; otherwise the pattern itself and one to three peak hours |
| PredictionsRouter.GetUsagePattern | backend/routers/predictions.py:157-179 | the handler answers that result on the predictor's hourly pattern |
| PredictionsRouter.AvailableFacts | backend/routers/predictions.py:235-242 | at most one prediction per bin, and a prediction is listed exactly when some bin has it |
| PredictionsRouter.GetAllPredictions | backend/routers/predictions.py:225-248 | the total is the number of bins and the available count the number of listed predictions, never more |
| PredictionsRouter.CandidatesStep | backend/routers/predictions.py:260-274 | one loop step appends the bin's alert exactly when it is predicted full within the horizon |
| PredictionsRouter.CandidatesFacts | backend/routers/predictions.py:260-274 | every alert is due within the horizon and "high" exactly when due within six hours; every bin so due has its alert |
| PredictionsRouter.PredictedAlertsFacts | backend/routers/predictions.py:276-277 | the sorted alerts are a permutation of the candidates, soonest first, stable among equal times |
| PredictionsRouter.GetPredictedAlerts | backend/routers/predictions.py:250-283 | the answer carries the horizon, the sorted alerts and their count |
| AlertSimulation.TimeFactor | backend/simulate_ai_alerts.py:136-152 | every time-of-day multiplier is positive |
| AlertSimulation.FillFactor | backend/simulate_ai_alerts.py:155-172 | every fill-level multiplier is positive |
| AlertSimulation.AlertProbability | backend/simulate_ai_alerts.py:128-174 | a probability exists exactly for a type in the table, and it is never negative |
| AlertSimulation.BaseOnly | backend/simulate_ai_alerts.py:128-174 | fire and sensor malfunctions keep their base probabilities 0.001 and 0.005 whatever the hour or fill |
| AlertSimulation.NightRule | backend/simulate_ai_alerts.py:137-142 | vandalism and illegal dumping are three times as likely from 22:00 to 05:59 and half as likely otherwise, whatever the fill |
| AlertSimulation.OdorPestRule | backend/simulate_ai_alerts.py:144-172 | odour complaints (2.5 in the afternoon) and pest activity (2 in the morning and evening windows) multiply the time factor by 3 from 80% fill and 1.5 from 60% |
| AlertSimulation.OverflowTiers | backend/simulate_ai_alerts.py:156-165 | overflow ignores the hour and is 1.0 from 95%, 0.5 from 85%, 0.15 from 75% and 0.005 below |
| AlertSimulation.MissingFillIsEmpty | backend/simulate_ai_alerts.py:133 | a bin record without a fill level counts as empty |
| AlertSimulation.FillFactorMonotone | backend/simulate_ai_alerts.py:155-172 | a fuller bin never gets a smaller fill multiplier |
| AlertSimulation.FillMonotone | backend/simulate_ai_alerts.py:128-174 | for a fixed type and hour the probability never decreases as the fill rises |
| StatusMapper.MapBinStatus | frontend/lib/status-mapper.ts:3-16 | every backend status maps to one of the four display categories |
| StatusMapper.LowerTextIdempotent | frontend/lib/status-mapper.ts:4 | lower-casing twice is lower-casing once |
| StatusMapper.LowerOfUpper | frontend/lib/status-mapper.ts:4 | upper-casing first does not change the lower-case form |
| StatusMapper.BinStatusCaseInsensitive | frontend/lib/status-mapper.ts:3-16 | the category does not depend on letter case |
| StatusMapper.BinStatusCategories | frontend/lib/status-mapper.ts:5-15 | "critical" exactly for full, "offline" exactly for offline or maintenance, "normal" exactly for anything but the four named statuses |
| StatusMapper.StatusColor | frontend/lib/status-mapper.ts:18-34 | critical and full are destructive, warning is secondary, normal and ok are primary, anything else (offline and maintenance included) is muted |
| StatusMapper.StatusText | frontend/lib/status-mapper.ts:36-53 | critical and full read "Critical", warning "Warning", normal and ok "Normal", offline "Offline", maintenance "Maintenance"; the label is "Unknown" exactly for any other status |
| StatusMapper.BackendAliases | frontend/lib/status-mapper.ts:18-53 | full and critical, ok and normal share badge and label; maintenance and offline share the colour |
| StatusMapper.MappedStatusIsKnown | frontend/lib/status-mapper.ts:3-53 | a mapped status always has a known label, and for the backend's own names its colour is the backend spelling's colour |
| StatusMapper.MapAlertSeverity | frontend/lib/status-mapper.ts:55-66 | "high" exactly for fire or overflow, "medium" exactly for spill, "low" otherwise, ignoring case |
| StatusMapper.AlertSeverityCaseInsensitive | frontend/lib/status-mapper.ts:55-66 | the severity does not depend on letter case |
| StatusMapper.Bucket | frontend/lib/status-mapper.ts:71-80 | under a minute (or in the future) is just now; minutes 1..59, hours 1..23 and days 1..6 are the floor of the elapsed time; a week or more falls to the date |
| StatusMapper.FormatTimestamp | frontend/lib/status-mapper.ts:68-82 | under a minute reads "Just now"; a week or more reads the locale date (the cases between are stated by PluralRule) |
| StatusMapper.PluralRule | frontend/lib/status-mapper.ts:76-79 | N minutes read "N min ago"; one hour reads "1 hour ago" and 2..23 hours "N hours ago"; one day reads "1 day ago" and 2..6 days "N days ago" |
| Signup.ValidatePassword | frontend/app/signup/page.tsx:29-43 | no message exactly for a strong password; otherwise the message of the first broken rule in the order length, upper case, lower case, digit |
| Signup.AsciiClassesOnly | frontend/app/signup/page.tsx:33-38 | the letter classes are ASCII ranges: accented letters count as neither case |
| Signup.SubmitError | frontend/app/signup/page.tsx:50-64 | no error exactly for a complete form with a strong, confirmed password; a missing field wins, then the password rule, then the mismatch |
| Signup.SignupPage.constructor | frontend/app/signup/page.tsx:13-20 | the page starts with an empty form, no error, not loading |
| Signup.SignupPage.HandleSubmit | frontend/app/signup/page.tsx:45-76 | a rejected form shows its error and sends nothing; an accepted one sends one request and ends not loading, navigating home on success and showing the server's message or the fallback on failure |
| DashboardLayout.Split | frontend/components/dashboard-layout.tsx:47 | splitting on a space always yields at least one piece |
| DashboardLayout.HeadsAreWordStarts | frontend/components/dashboard-layout.tsx:47-49 | joining the first characters of the split pieces picks out exactly the characters that start a word |
| DashboardLayout.SpacesStartNoWord | frontend/components/dashboard-layout.tsx:47-49 | a text of spaces starts no word |
| DashboardLayout.Initials | frontend/components/dashboard-layout.tsx:43-51 | a missing or empty name gives "U"; the initials are never longer than two |
| DashboardLayout.InitialsOfName | frontend/components/dashboard-layout.tsx:45-50 | for a non-empty name, the upper-cased word starts cut to two; a name of spaces alone gives "" and not "U" |
| DashboardLayout.WordStartsAppend | frontend/components/dashboard-layout.tsx:47-49 | the word starts of a concatenation are those of each part, the second continuing from the first's last character |
| DashboardLayout.WordHasOneStart | frontend/components/dashboard-layout.tsx:47-49 | a word without spaces starts once, at its first character |
| DashboardLayout.TwoWordName | frontend/components/dashboard-layout.tsx:43-51 | "first last" gives the two upper-cased first letters |
| DashboardLayout.FindByHref | frontend/components/dashboard-layout.tsx:160 | the lookup answers an entry with that link, and nothing exactly when no entry has it |
| DashboardLayout.Title | frontend/components/dashboard-layout.tsx:160 | an unknown path shows "Dashboard"; every title is the name of a navigation entry |
| DashboardLayout.FindFirst | frontend/components/dashboard-layout.tsx:160 | the lookup finds the first entry with a link |
| DashboardLayout.NavigationWellFormed | frontend/components/dashboard-layout.tsx:18-26 | no two navigation entries share a link, and every entry has a name |
| DashboardLayout.TitleOfEachLink | frontend/components/dashboard-layout.tsx:18-26 | each navigation link shows its own entry's name as the title |

## Left out

- Floating-point rounding (`round(...)` on distances, times, efficiencies, the dashboard average fill, fill rates, hours until full, confidences, hourly means, coverage and z-score bounds) is left out; every value is the exact real.
- MlPredictor.Decide: compares the unrounded hours until full with 24, while the source compares the value rounded to one decimal; it differs only within 0.05 hours of the boundary.
- MlPredictor.UrgencyBoost: uses the unrounded hours until full for the same reason.
- PredictionsRouter.CandidatesFacts: uses the unrounded hours until full against the horizon and the six-hour mark.
- RoutesRouter.CompareFound: ties between efficiency scores are decided on exact reals, while the source compares scores rounded to three decimals.
- The haversine distance is not modelled: the distance is any non-negative function.
- `parse_location_string` and `get_bin_location` (`float()` parsing, a random fallback position) become the `binLocation` parameter.
- Route ids from `uuid4`, the current time and numpy's standard deviation are parameters; `predicted_full_time` stays a number of seconds, not an ISO string.
- `list_routes`, `get_route` and `delete_route` of the routes router, `list_crews` of the crews router, and the `analyze_bin`, anomaly, collection-recommendation, collection-order, statistics and training endpoints of the predictions router are thin wrappers over the modelled service methods and are not modelled.
- Request and response models whose source is not shown (the route, task and crew requests, and the route answers) are modelled as records with the fields the handlers read and write; their field validation is not modelled.
- RoutesRouter.RouteAnalyticsOf: history efficiencies are always present in the model, so the source's `or 0` for a missing efficiency has no counterpart.
- The crews routers never set a crew's current coordinates; the model keeps them as optional fields that only the start-location rule reads.
- Python's aliasing of the lists inside the predictor's and detector's dictionaries is modelled with value maps that the methods reassign.
- The module-global prediction service shared across requests, and training in a background task, are not modelled; handlers take the predictor explicitly.
- Human-readable reason strings of collection advice and anomaly reports are not modelled.
- `create_bin` commits the row and then fails building its answer when a stored value breaks the response model; the model returns the error and keeps the row, as the source does, but does not model the validation library.
- AlertsRouter.CreateAiAlert: issues alert ids from a counter that never hands out an id twice; SQLite without AUTOINCREMENT takes the largest stored id plus one, so after the newest alert is deleted its id can come back. In both the new id differs from every stored alert's id, which is what the model proves.
- AlertSimulation.AlertProbability: a bin record whose fill field is present but null raises a TypeError in the source; the model treats only a missing field (as 0).
- `generate_alert` and `run` of the alert simulator (random draws, HTTP calls, sleeping, printing) are not modelled.
- StatusMapper.FormatTimestamp: takes the parsed instant and the current time in milliseconds and the locale date text as parameters; JavaScript's date parsing (and "Invalid Date") and `toLocaleDateString` are not modelled.
- DashboardLayout.Initials: upper-cases ASCII letters only, where JavaScript's `toUpperCase` covers all of Unicode, and works on characters rather than UTF-16 code units.
- Signup.ValidatePassword: measures the length in characters, while the page's `password.length` counts UTF-16 code units, so a password with characters outside the Basic Multilingual Plane (emoji) can be long enough for the page and too short for the model.
- Signup.SignupPage.HandleSubmit: the redirect of an already signed-in user, React's asynchronous state updates and the router are not modelled; the server call's outcome is a parameter.
- Authentication, the React rendering code and the simulators other than the alert probabilities are not part of this model.
