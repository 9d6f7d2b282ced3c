# Boarding a scheduled vehicle: OpenTripPlanner's `PatternBoard` edge

This project models the edge by which OpenTripPlanner's trip planner moves a
rider from a stop, off vehicle, onto a scheduled vehicle of one trip pattern.
It also proves properties of that model.

- Traversed forward, the edge does four things:
  - it refuses requests whose travel modes exclude the pattern's vehicle mode;
  - it looks at the service days of the search (yesterday, today, tomorrow);
  - it keeps the soonest departure any of them offers;
  - it refuses banned routes, and charges penalties for non-preferred and unpreferred routes.
- The successor state's clock is moved to within a second of the departure. One more boarding is
  counted. The boarded trip, zone, route and fare context are recorded. The
  weight grows by the weighted wait plus the route penalties.
- Traversed backward, the edge only checks that boarding is allowed at the stop.
  It clears the trip id and charges one unit of weight.
- The optimistic traversal always charges one unit of weight.

Layout, one module per file:

- `wrappers.dfy` (`Wrappers`): `Option`, for Java's nulls.
- `modes.dfy` (`Modes`): travel modes and 32-bit mode masks.
- `schedule.dfy` (`Schedule`): identifiers, routes, trips, `ServiceDay`, `TripPattern`
  and Java's truncating division.
- `state.dfy` (`Routing`): `TraverseOptions`, the immutable `State` with its back link,
  and `StateEditor`. The editor is a class: a single-use builder whose `spawned`
  flag forbids any change or second commit once `MakeState` has run.
- `pattern_board.dfy` (`Boarding`): the `PatternBoard` edge.
  - Specification functions: `Banned`, `PreferencesPenalty`, `WaitFactor`,
    `ConsultedDays`, `DayCandidate`, `Scan`, `Boarded`, `TraverseResult`,
    `TraverseBackResult`, `OptimisticResult` and, for the corrected optimistic
    traversal, `AdmissibleOptimisticResult`.
  - Methods proved against them: `FindBestDeparture` (the day loop), `BoardTrip`
    (the editor sequence), `Traverse`, `TraverseBack`, `OptimisticTraverse`.
  - Lemmas about the specification functions.

Assumptions about collaborators whose code is not part of this model:

- `ServiceDay.java` is not part of this model. A service day is its midnight
  (in milliseconds) and the set of services running on it.
  - `secondsSinceMidnight(t)` is `(t - midnight) / 1000` with Java's rounding toward zero.
  - `time(s)` is `midnight + 1000 * s`.
- `TripPattern.java` is not part of this model.
  - `getNextTrip` is a field of function type. `TripPattern.Valid` states its assumed contract:
    - the answer is negative, or it is the index of a trip that leaves the stop no earlier than the query second;
    - when a pickup is asked for, a trip is returned only where boarding is allowed;
    - wheelchair and bicycle requests are honoured.
  - `getDepartureTime`, `canBoard`, `getTrip` and `getZone` read sequences of the pattern.
- `TraverseModeSet.java` is not part of this model.
  - `get(mask)` is taken to mean that the two masks share a bit.
  - Each primitive mode owns one bit.
- Times are in milliseconds. Waits are in seconds. `incrementTimeInSeconds(n)` adds `1000 * n`.

From these assumptions the model proves that every wait `traverse` computes is
non-negative (`DayCandidate`). The "negative wait time on board" error branch
at `PatternBoard.java:102` therefore cannot be reached.

On ties between days the model follows the code: the strict `<` at
`PatternBoard.java:103` keeps the first day in the order of
`options.serviceDays`, which need not be the earliest calendar day.

The successor's time lies within one second of the boarded trip's departure,
and equals it when the state's time is a whole second of the offering day
(`DayCandidateReachesDeparture`, `TraverseReachesDeparture`). The bound is
not tighter because the wait is truncated to whole seconds
(`PatternBoard.java:101`). When the state's time is up to 999 ms past a
departure, that departure still counts: its second since midnight is not
before the state's, and the wait truncates to 0. The rider then boards a
trip that left less than a second ago, and the successor's time is later
than the departure.

## Model

| member | source | states |
|---|---|---|
| `Modes.SingleMode` | opentripplanner-routing/src/main/java/org/opentripplanner/routing/edgetype/PatternBoard.java:53 | the mode set built from one mode contains that mode and no other |
| `Boarding.NewPatternBoard` | opentripplanner-routing/src/main/java/org/opentripplanner/routing/edgetype/PatternBoard.java:50-54 | the edge keeps its vertices, pattern and stop index; a request's mode set passes the edge's mask exactly when it contains the edge's vehicle mode |
| `Schedule.MillisToSeconds` | opentripplanner-routing/src/main/java/org/opentripplanner/routing/edgetype/PatternBoard.java:101 | the quotient by 1000 is rounded toward zero: the remainder lies in [0, 1000) for a non-negative span and in (-1000, 0] for a negative one |
| `Schedule.MillisToSecondsNonNegative` | opentripplanner-routing/src/main/java/org/opentripplanner/routing/edgetype/PatternBoard.java:101-102 | a span gives a non-negative number of seconds exactly when it is longer than minus one second |
| `Schedule.ServiceDay.TimeOfSecondsSinceMidnight` | opentripplanner-routing/src/main/java/org/opentripplanner/routing/edgetype/PatternBoard.java:92 | converting an instant to its second of the day and back moves it by less than one second |
| `Schedule.TripPattern.GetNextTrip` | opentripplanner-routing/src/main/java/org/opentripplanner/routing/edgetype/PatternBoard.java:97-100 | a non-negative answer is a trip of the pattern leaving the stop no earlier than the query second, at a stop where boarding is allowed, carrying wheelchairs and bicycles when asked |
| `Boarding.Banned` | opentripplanner-routing/src/main/java/org/opentripplanner/routing/edgetype/PatternBoard.java:117-124 | a route is banned exactly when it is in the request's banned set; an absent set bans nothing, like an empty one |
| `Boarding.PreferencesPenalty` | opentripplanner-routing/src/main/java/org/opentripplanner/routing/edgetype/PatternBoard.java:126-143 | each penalty is charged exactly when its condition holds: the non-preferred penalty alone when a non-empty preferred set leaves the route out and the route is not unpreferred, the unpreferred penalty alone when the unpreferred set holds a route that is not non-preferred, the sum of both when both hold, and 0 when neither does; the surcharge never exceeds the two penalties together |
| `Boarding.WaitFactor` | opentripplanner-routing/src/main/java/org/opentripplanner/routing/edgetype/PatternBoard.java:154-160 | the factor is one of the two request factors: the beginning factor before the first boarding, the wait reluctance after any boarding |
| `Boarding.PatternBoard.DayCandidate` | opentripplanner-routing/src/main/java/org/opentripplanner/routing/edgetype/PatternBoard.java:91-102 | a day offers a departure exactly when its seconds since midnight are non-negative, it runs the pattern's service and `getNextTrip` answers a trip; the trip offered is the one `getNextTrip` answered, a boardable trip serving the request's needs, with a non-negative wait |
| `Boarding.PatternBoard.Scan` | opentripplanner-routing/src/main/java/org/opentripplanner/routing/edgetype/PatternBoard.java:88-111 | the day loop ends with no departure (-1, -1) or with a departure that may be boarded |
| `Boarding.PatternBoard.FindBestDeparture` | opentripplanner-routing/src/main/java/org/opentripplanner/routing/edgetype/PatternBoard.java:87-111 | the loop over `options.serviceDays` leaves in `bestWait` and `bestPatternIndex` exactly the departure `Scan` keeps |
| `Boarding.PatternBoard.Traverse` | opentripplanner-routing/src/main/java/org/opentripplanner/routing/edgetype/PatternBoard.java:76-165 | the method returns `TraverseResult`; its penalty accumulation equals `PreferencesPenalty` |
| `Boarding.PatternBoard.BoardTrip` | opentripplanner-routing/src/main/java/org/opentripplanner/routing/edgetype/PatternBoard.java:145-164 | the editor sequence commits exactly `Boarded`: time plus the wait, one more boarding, the trip, trip id, zone, exemplar route and fare context, weight plus penalty plus the weighted wait |
| `Boarding.PatternBoard.TraverseBack` | opentripplanner-routing/src/main/java/org/opentripplanner/routing/edgetype/PatternBoard.java:167-175 | null exactly when boarding is not allowed at the stop; otherwise the predecessor with its trip id cleared and weight plus 1 |
| `Boarding.PatternBoard.OptimisticTraverse` | opentripplanner-routing/src/main/java/org/opentripplanner/routing/edgetype/PatternBoard.java:177-181 | always a state: time unchanged, weight plus 1, whatever the options |
| `Boarding.PatternBoard.ScanSelectsSoonestDeparture` | opentripplanner-routing/src/main/java/org/opentripplanner/routing/edgetype/PatternBoard.java:99-112 | no departure is kept exactly when no day offers one; otherwise the kept one is offered by some day, waits no longer than any other day's, and every earlier day that offers one waits strictly longer (the first day is kept on ties) |
| `Boarding.PatternBoard.ScanIgnoresIdleDays` | opentripplanner-routing/src/main/java/org/opentripplanner/routing/edgetype/PatternBoard.java:91-96 | dropping the days that have not started or do not run the service leaves the chosen departure unchanged |
| `Boarding.PatternBoard.ScanIgnoresRoutePreferences` | opentripplanner-routing/src/main/java/org/opentripplanner/routing/edgetype/PatternBoard.java:97-98 | the chosen departure depends on the request only through its wheelchair and bicycle needs |
| `Boarding.PatternBoard.TraverseFailsOnlyWhen` | opentripplanner-routing/src/main/java/org/opentripplanner/routing/edgetype/PatternBoard.java:78-124 | `traverse` returns null exactly when the modes exclude the edge, or no day offers a departure, or the chosen trip's route is banned |
| `Boarding.PatternBoard.TraverseBoardsSoonestDeparture` | opentripplanner-routing/src/main/java/org/opentripplanner/routing/edgetype/PatternBoard.java:99-164 | on success the clock advances by the minimum wait some day offers; the boarding count goes up by one; the trip serves the request and its route is not banned; the weight grows by penalty plus wait times the first-boarding factor (no boardings yet) or the wait reluctance; time and weight never decrease |
| `Boarding.PatternBoard.DayCandidateReachesDeparture` | opentripplanner-routing/src/main/java/org/opentripplanner/routing/edgetype/PatternBoard.java:92-101 | waiting the offered number of seconds moves the clock to within one second of the offered trip's departure instant on that day, and exactly onto it when the clock is on a whole second of the day |
| `Boarding.PatternBoard.TraverseReachesDeparture` | opentripplanner-routing/src/main/java/org/opentripplanner/routing/edgetype/PatternBoard.java:36-37 | on success the successor's time lies within one second of the departure instant of the boarded trip on a day that offers it, and equals that departure when the state's time is a whole second of that day |
| `Boarding.PatternBoard.TraverseAdvancesClockByScan` | opentripplanner-routing/src/main/java/org/opentripplanner/routing/edgetype/PatternBoard.java:145-147 | on success the clock advances by the kept departure's wait and the boarded trip is that departure's |
| `Boarding.PatternBoard.LaterWaitsUseReluctance` | opentripplanner-routing/src/main/java/org/opentripplanner/routing/edgetype/PatternBoard.java:145-160 | after a successful boarding the successor keeps the request, and every later wait from it is weighted by the wait reluctance |
| `Boarding.PatternBoard.PreferencesOnlyShiftWeight` | opentripplanner-routing/src/main/java/org/opentripplanner/routing/edgetype/PatternBoard.java:126-161 | changing the preferred and unpreferred sets and penalties changes neither success, time nor trip; the weight changes only by the difference of the two surcharges |
| `Boarding.PatternBoard.BoardingIsStructurallyReversible` | opentripplanner-routing/src/main/java/org/opentripplanner/routing/edgetype/PatternBoard.java:97-98 | if `traverse` can board from some state (the pickup query at :97-98), `traverseBack` accepts the edge from every state (its boardability test at :168); this holds only through the assumed `pickup ==> boardable` clause of `TripPattern.Valid` (`NextTripSound`) |
| `Boarding.OptimisticTraverseOverestimates` | opentripplanner-routing/src/main/java/org/opentripplanner/routing/edgetype/PatternBoard.java:177-181 | for a rider reaching the stop as the bus leaves, `traverse` adds no weight but `optimisticTraverse` adds 1 |
| `Boarding.PatternBoard.AdmissibleOptimisticIsLowerBound` | opentripplanner-routing/src/main/java/org/opentripplanner/routing/edgetype/PatternBoard.java:177-181 | the corrected optimistic traversal's weight and time never exceed those of a successful `traverse` |
| `Routing.StateEditor.constructor` | opentripplanner-routing/src/main/java/org/opentripplanner/routing/edgetype/PatternBoard.java:145 | the pending successor is the predecessor linked back to it |
| `Routing.StateEditor.SetTrip` | opentripplanner-routing/src/main/java/org/opentripplanner/routing/edgetype/PatternBoard.java:146 | only the trip index changes |
| `Routing.StateEditor.IncrementTimeInSeconds` | opentripplanner-routing/src/main/java/org/opentripplanner/routing/edgetype/PatternBoard.java:147 | only the time changes, by 1000 ms per second |
| `Routing.StateEditor.IncrementNumBoardings` | opentripplanner-routing/src/main/java/org/opentripplanner/routing/edgetype/PatternBoard.java:148 | only the boarding count changes, by one |
| `Routing.StateEditor.SetTripId` | opentripplanner-routing/src/main/java/org/opentripplanner/routing/edgetype/PatternBoard.java:149 | only the trip id changes |
| `Routing.StateEditor.SetZone` | opentripplanner-routing/src/main/java/org/opentripplanner/routing/edgetype/PatternBoard.java:150 | only the zone changes |
| `Routing.StateEditor.SetRoute` | opentripplanner-routing/src/main/java/org/opentripplanner/routing/edgetype/PatternBoard.java:151 | only the route changes |
| `Routing.StateEditor.SetFareContext` | opentripplanner-routing/src/main/java/org/opentripplanner/routing/edgetype/PatternBoard.java:152 | only the fare context changes |
| `Routing.StateEditor.IncrementWeight` | opentripplanner-routing/src/main/java/org/opentripplanner/routing/edgetype/PatternBoard.java:161-162 | only the weight changes, by a non-negative amount |
| `Routing.StateEditor.MakeState` | opentripplanner-routing/src/main/java/org/opentripplanner/routing/edgetype/PatternBoard.java:164 | commits the pending successor once: it links back to the predecessor, keeps its options, and has no less time, weight or boardings |

## Left out

- The "negative wait time on board" log at `PatternBoard.java:102` is a side channel. It is not modelled; under the assumptions above the model proves it unreachable.
- The wait factors `waitAtBeginningFactor` and `waitReluctance` are Java doubles applied with `long *=`, which truncates. They are modelled as natural-number multipliers, with no floating point.
- Route penalties are natural numbers. Negative penalties, which the Java types would allow, are not modelled.
- The `int` result at `PatternBoard.java:92` and the `(int)` cast at `:101` are modelled without 32-bit overflow: times and waits are unbounded integers.
- `GtfsLibrary.getRouteName` is not part of this model. A route's `RouteSpec` is its agency id and its `name` field.
- The `StateEditor` mutators take non-negative amounts. The editor's handling of negative increments and its logging are not modelled, because the editor's code is not part of this model.
- `State` keeps its back state but not its back edge.
- Presentation members are not modelled: `getDirection`, `getDistance`, `getGeometry`, `getMode`, `getName`, `getStopIndex`, `toString`.
- `PathService.java`, `WayProperties.java` and `config.js` are not part of this model. They are an interface with no behaviour shown, a graph-construction data holder over floating point, and static web-map configuration.
- Composite modes such as TRANSIT are not modelled. An edge is built from one primitive vehicle mode.

## Findings

| source | as written | input that shows it | evidently intended | confidence | as-written member | corrected member |
|---|---|---|---|---|---|---|
| opentripplanner-routing/src/main/java/org/opentripplanner/routing/edgetype/PatternBoard.java:177-181 | `optimisticTraverse` always adds weight 1. `traverse` adds only the weighted wait plus route penalties, which is 0 when the bus leaves at the second the rider arrives and no route preference applies. | one weekday bus trip leaving at 08:05:00, a first boarding at 08:05:00, no route preferences (`ExampleBoard`, `ExampleState`): `traverse` adds 0 and `optimisticTraverse` adds 1 | the optimistic traversal is a lower bound on what `traverse` charges, so it adds no weight; alternatively `traverse` charges a boarding cost of at least 1 (the Javadoc at :38 allows a boarding penalty) and `optimisticTraverse` keeps its 1. The lower-bound relation holds either way | medium; not executed | `Boarding.OptimisticTraverseOverestimates` | `Boarding.PatternBoard.AdmissibleOptimisticIsLowerBound` |
