/** The schedule collaborators a boarding edge consults: GTFS identifiers,
    routes and trips, the service day a search instant falls on, and the trip
    pattern (the trips that serve one stop sequence). Absolute times are in
    milliseconds; times within a service day are in seconds since midnight. */
module Schedule {

  /** A GTFS identifier scoped by its agency. */
  datatype AgencyAndId = AgencyAndId(agencyId: string, id: string)

  datatype Route = Route(id: AgencyAndId, name: string)

  /** The key by which requests ban, prefer or avoid a route: its agency and
      its public name. */
  datatype RouteSpec = RouteSpec(agency: string, routeName: string)

  function SpecOf(r: Route): RouteSpec
  {
    RouteSpec(r.id.agencyId, r.name)
  }

  datatype Trip = Trip(
    id: AgencyAndId,
    serviceId: AgencyAndId,
    route: Route,
    wheelchairAccessible: bool,
    bikesAllowed: bool)

  /** An opaque token carried on board for later fare computation. */
  datatype FareContext = FareContext(token: string)

  /** A span of milliseconds in whole seconds, divided as the JVM divides a
      long: the quotient is rounded toward zero, so a span of less than one
      second either way gives 0. */
  function MillisToSeconds(ms: int): (s: int)
    ensures ms >= 0 ==> 0 <= ms - s * 1000 < 1000
    ensures ms < 0 ==> -1000 < ms - s * 1000 <= 0
  {
    if ms >= 0 then ms / 1000 else -((-ms) / 1000)
  }

  /** A span converts to a non-negative number of seconds exactly when it is
      longer than minus one second. */
  lemma MillisToSecondsNonNegative(ms: int)
    ensures MillisToSeconds(ms) >= 0 <==> ms > -1000
  {
  }

  /** One calendar day of a search: the instant of its midnight and the
      services that run on it. */
  datatype ServiceDay = ServiceDay(midnight: int, serviceIdsRunning: set<AgencyAndId>) {

    function SecondsSinceMidnight(time: int): int
    {
      MillisToSeconds(time - midnight)
    }

    /** The instant of a second of this day. */
    function Time(secondsSinceMidnight: int): int
    {
      midnight + secondsSinceMidnight * 1000
    }

    predicate ServiceIdRunning(serviceId: AgencyAndId)
    {
      serviceId in serviceIdsRunning
    }

    /** Converting an instant to its second of this day and back moves the
        instant by less than one second. */
    lemma TimeOfSecondsSinceMidnight(time: int)
      ensures time - 1000 < Time(SecondsSinceMidnight(time)) < time + 1000
    {
    }
  }

  /** A query for the next trip of a pattern: at this stop, departing no
      earlier than `afterTime` (seconds since midnight), carrying wheelchairs
      and bicycles when asked, and letting riders board when `pickup`. */
  datatype NextTripQuery = NextTripQuery(
    stopIndex: int,
    afterTime: int,
    wheelchairAccessible: bool,
    bikes: bool,
    pickup: bool)

  /** The trips serving one stop sequence. `departureTimes[s][i]` is the
      departure of trip `i` at stop `s`; `boardable[s]` tells whether riders
      may board at stop `s`. How the next trip is found is not modelled:
      `nextTrip` is any answer that honours the query (see NextTripSound). */
  datatype TripPattern = TripPattern(
    exemplar: Trip,
    trips: seq<Trip>,
    departureTimes: seq<seq<int>>,
    boardable: seq<bool>,
    zones: seq<string>,
    fareContext: FareContext,
    nextTrip: NextTripQuery -> int)
  {
    function NumStops(): nat
    {
      |boardable|
    }

    predicate Shaped()
    {
      && |departureTimes| == |boardable| == |zones|
      && forall s :: 0 <= s < |departureTimes| ==> |departureTimes[s]| == |trips|
    }

    /** The answer to `q` is "none" (negative) or a trip that leaves stop
        `q.stopIndex` no earlier than asked, at a stop where boarding is
        allowed when a pickup is asked for, and that carries what is asked. */
    predicate NextTripSound(q: NextTripQuery)
      requires Shaped()
    {
      0 <= q.stopIndex < NumStops() ==>
        var i := nextTrip(q);
        i < 0 ||
        (&& i < |trips|
         && departureTimes[q.stopIndex][i] >= q.afterTime
         && (q.pickup ==> boardable[q.stopIndex])
         && (q.wheelchairAccessible ==> trips[i].wheelchairAccessible)
         && (q.bikes ==> trips[i].bikesAllowed))
    }

    ghost predicate Valid()
    {
      Shaped() && forall q :: NextTripSound(q)
    }

    /** The index of the next trip that answers `q`, or a negative number
        when there is none. */
    function GetNextTrip(q: NextTripQuery): (i: int)
      requires Valid() && 0 <= q.stopIndex < NumStops()
      ensures i >= 0 ==> i < |trips| && departureTimes[q.stopIndex][i] >= q.afterTime
      ensures i >= 0 && q.pickup ==> boardable[q.stopIndex]
      ensures i >= 0 && q.wheelchairAccessible ==> trips[i].wheelchairAccessible
      ensures i >= 0 && q.bikes ==> trips[i].bikesAllowed
    {
      assert NextTripSound(q);
      nextTrip(q)
    }

    function GetDepartureTime(stopIndex: int, tripIndex: int): int
      requires Shaped()
      requires 0 <= stopIndex < NumStops() && 0 <= tripIndex < |trips|
    {
      departureTimes[stopIndex][tripIndex]
    }

    predicate CanBoard(stopIndex: int)
      requires 0 <= stopIndex < NumStops()
    {
      boardable[stopIndex]
    }
  }
}
