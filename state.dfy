/** Search states and the editor that derives a successor state from one.
    A State is an immutable snapshot of a partial path with a link back to
    the state it was derived from; a StateEditor is bound to one predecessor,
    collects changes to the pending successor and is spent once it has
    produced that successor. */
module Routing {
  import opened Wrappers
  import opened Modes
  import opened Schedule

  /** The per-search request: allowed modes, accessibility, the service days
      around the start instant (yesterday, today, tomorrow), route filters with
      their penalties and the wait weighting factors. An absent route set is
      None; the factors and penalties are whole numbers here. */
  datatype TraverseOptions = TraverseOptions(
    modes: TraverseModeSet,
    wheelchairAccessible: bool,
    serviceDays: seq<ServiceDay>,
    bannedRoutes: Option<set<RouteSpec>>,
    preferredRoutes: Option<set<RouteSpec>>,
    unpreferredRoutes: Option<set<RouteSpec>>,
    useAnotherThanPreferredRoutesPenalty: nat,
    useUnpreferredRoutesPenalty: nat,
    waitAtBeginningFactor: nat,
    waitReluctance: nat)

  /** Having reached a vertex at `time` (milliseconds) with cost `weight`
      after `numBoardings` boardings; `trip` is the index of the boarded trip
      within its pattern (-1 when none) and the optional fields describe the
      vehicle currently on board. */
  datatype State = State(
    time: int,
    weight: int,
    numBoardings: nat,
    trip: int,
    tripId: Option<AgencyAndId>,
    zone: Option<string>,
    route: Option<AgencyAndId>,
    fareContext: Option<FareContext>,
    options: TraverseOptions,
    backState: Option<State>)

  /** Single-use builder of the successor of `parent`. */
  class StateEditor {
    const parent: State
    var child: State
    var spawned: bool

    /** The pending successor links back to the parent and never runs its
        clock backwards, loses weight or boardings, or changes the request. */
    ghost predicate Valid()
      reads this
    {
      && child.backState == Some(parent)
      && child.time >= parent.time
      && child.weight >= parent.weight
      && child.numBoardings >= parent.numBoardings
      && child.options == parent.options
    }

    constructor (parent: State)
      ensures this.parent == parent && !spawned
      ensures child == parent.(backState := Some(parent))
      ensures Valid()
    {
      this.parent := parent;
      child := parent.(backState := Some(parent));
      spawned := false;
    }

    method SetTrip(trip: int)
      requires Valid() && !spawned
      modifies this
      ensures Valid() && !spawned
      ensures child == old(child).(trip := trip)
    {
      child := child.(trip := trip);
    }

    method IncrementTimeInSeconds(seconds: nat)
      requires Valid() && !spawned
      modifies this
      ensures Valid() && !spawned
      ensures child == old(child).(time := old(child).time + seconds * 1000)
    {
      child := child.(time := child.time + seconds * 1000);
    }

    method IncrementNumBoardings()
      requires Valid() && !spawned
      modifies this
      ensures Valid() && !spawned
      ensures child == old(child).(numBoardings := old(child).numBoardings + 1)
    {
      child := child.(numBoardings := child.numBoardings + 1);
    }

    method SetTripId(tripId: Option<AgencyAndId>)
      requires Valid() && !spawned
      modifies this
      ensures Valid() && !spawned
      ensures child == old(child).(tripId := tripId)
    {
      child := child.(tripId := tripId);
    }

    method SetZone(zone: Option<string>)
      requires Valid() && !spawned
      modifies this
      ensures Valid() && !spawned
      ensures child == old(child).(zone := zone)
    {
      child := child.(zone := zone);
    }

    method SetRoute(route: Option<AgencyAndId>)
      requires Valid() && !spawned
      modifies this
      ensures Valid() && !spawned
      ensures child == old(child).(route := route)
    {
      child := child.(route := route);
    }

    method SetFareContext(fareContext: Option<FareContext>)
      requires Valid() && !spawned
      modifies this
      ensures Valid() && !spawned
      ensures child == old(child).(fareContext := fareContext)
    {
      child := child.(fareContext := fareContext);
    }

    method IncrementWeight(weight: nat)
      requires Valid() && !spawned
      modifies this
      ensures Valid() && !spawned
      ensures child == old(child).(weight := old(child).weight + weight)
    {
      child := child.(weight := child.weight + weight);
    }

    /** Commits the pending successor; the editor cannot be changed or
        committed again afterwards. */
    method MakeState() returns (s: State)
      requires Valid() && !spawned
      modifies this
      ensures spawned && child == old(child) && s == child
      ensures s.backState == Some(parent) && s.options == parent.options
      ensures s.time >= parent.time && s.weight >= parent.weight
      ensures s.numBoardings >= parent.numBoardings
    {
      spawned := true;
      s := child;
    }
  }
}
