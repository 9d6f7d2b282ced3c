/** The edge by which a rider leaves a stop on foot and boards a scheduled
    vehicle of one trip pattern. Traversed forward it waits for the soonest
    departure over the service days of the search and records the boarded
    trip; traversed backward it only checks that boarding is allowed at the
    stop; its optimistic traversal charges a unit cost. */
module Boarding {
  import opened Wrappers
  import opened Modes
  import opened Schedule
  import opened Routing

  datatype Vertex = Vertex(name: string)

  /** A departure found on one service day: the wait in whole seconds and the
      trip's index in the pattern. */
  datatype Candidate = Candidate(wait: int, patternIndex: int)

  /** The day loop's starting point: no departure found yet. */
  const NoCandidate: Candidate := Candidate(-1, -1)

  function Banned(options: TraverseOptions, route: RouteSpec): (b: bool)
    ensures b <==> route in (if options.bannedRoutes.Some? then options.bannedRoutes.value else {})
  {
    options.bannedRoutes.Some? && route in options.bannedRoutes.value
  }

  /** The route preference surcharge: one penalty when a non-empty preferred
      set leaves the route out, another when a non-empty unpreferred set
      holds it; both may apply. */
  function PreferencesPenalty(options: TraverseOptions, route: RouteSpec): (p: nat)
    ensures p <= options.useAnotherThanPreferredRoutesPenalty + options.useUnpreferredRoutesPenalty
    ensures options.preferredRoutes.Some? && |options.preferredRoutes.value| > 0
            && route !in options.preferredRoutes.value
            && (options.unpreferredRoutes.None? || route !in options.unpreferredRoutes.value)
            ==> p == options.useAnotherThanPreferredRoutesPenalty
    ensures (options.preferredRoutes.None? || options.preferredRoutes.value == {}
             || route in options.preferredRoutes.value)
            && options.unpreferredRoutes.Some? && route in options.unpreferredRoutes.value
            ==> p == options.useUnpreferredRoutesPenalty
    ensures options.preferredRoutes.Some? && |options.preferredRoutes.value| > 0
            && route !in options.preferredRoutes.value
            && options.unpreferredRoutes.Some? && route in options.unpreferredRoutes.value
            ==> p == options.useAnotherThanPreferredRoutesPenalty + options.useUnpreferredRoutesPenalty
    ensures (options.preferredRoutes.None? || options.preferredRoutes.value == {}
             || route in options.preferredRoutes.value)
            && (options.unpreferredRoutes.None? || route !in options.unpreferredRoutes.value)
            ==> p == 0
  {
    (if options.preferredRoutes.Some? && |options.preferredRoutes.value| > 0
        && route !in options.preferredRoutes.value
     then options.useAnotherThanPreferredRoutesPenalty else 0)
    +
    (if options.unpreferredRoutes.Some? && |options.unpreferredRoutes.value| > 0
        && route in options.unpreferredRoutes.value
     then options.useUnpreferredRoutesPenalty else 0)
  }

  /** The factor a wait is weighted by: one for the wait before the first
      boarding of an itinerary, another for every later wait. */
  function WaitFactor(state0: State): (f: nat)
    ensures f == state0.options.waitAtBeginningFactor || f == state0.options.waitReluctance
    ensures state0.numBoardings > 0 ==> f == state0.options.waitReluctance
    ensures state0.numBoardings == 0 ==> f == state0.options.waitAtBeginningFactor
  {
    if state0.numBoardings == 0 then state0.options.waitAtBeginningFactor
    else state0.options.waitReluctance
  }

  /** The boarding edge for `pattern` at stop `stopIndex`, usable by requests
      whose modes include the pattern's vehicle mode. */
  function NewPatternBoard(startStation: Vertex, startJourney: Vertex, pattern: TripPattern,
                           stopIndex: int, mode: TraverseMode): (e: PatternBoard)
    ensures e.fromVertex == startStation && e.toVertex == startJourney
    ensures e.pattern == pattern && e.stopIndex == stopIndex
    ensures forall modes: TraverseModeSet :: modes.Get(e.modeMask) <==> modes.Contains(mode)
  {
    PatternBoard(startStation, startJourney, pattern, stopIndex, SingleMode(mode).mask)
  }

  datatype PatternBoard = PatternBoard(
    fromVertex: Vertex,
    toVertex: Vertex,
    pattern: TripPattern,
    stopIndex: int,
    modeMask: bv32)
  {
    ghost predicate Valid()
    {
      pattern.Valid() && 0 <= stopIndex < pattern.NumStops()
    }

    /** A departure that may be boarded: a trip of the pattern, at a stop
        where boarding is allowed, carrying what the request needs, with a
        wait that is not negative. */
    predicate Acceptable(options: TraverseOptions, c: Candidate)
      requires pattern.Shaped() && 0 <= stopIndex < pattern.NumStops()
    {
      && c.wait >= 0
      && 0 <= c.patternIndex < |pattern.trips|
      && pattern.CanBoard(stopIndex)
      && (options.wheelchairAccessible ==> pattern.trips[c.patternIndex].wheelchairAccessible)
      && (options.modes.GetBicycle() ==> pattern.trips[c.patternIndex].bikesAllowed)
    }

    /** A service day is looked at only when it has started at `currentTime`
        and runs the pattern's service. */
    predicate Consults(sd: ServiceDay, currentTime: int)
    {
      sd.SecondsSinceMidnight(currentTime) >= 0 && sd.ServiceIdRunning(pattern.exemplar.serviceId)
    }

    function NextTripQueryAt(options: TraverseOptions, secondsSinceMidnight: int): NextTripQuery
    {
      NextTripQuery(stopIndex, secondsSinceMidnight, options.wheelchairAccessible,
                    options.modes.GetBicycle(), true)
    }

    /** The departure one service day offers at `currentTime`, if any. */
    function DayCandidate(options: TraverseOptions, sd: ServiceDay, currentTime: int): (c: Option<Candidate>)
      requires Valid()
      ensures c.Some? ==> Consults(sd, currentTime) && Acceptable(options, c.value)
      ensures c.Some? <==>
        (Consults(sd, currentTime)
         && pattern.GetNextTrip(NextTripQueryAt(options, sd.SecondsSinceMidnight(currentTime))) >= 0)
      ensures c.Some? ==>
        c.value.patternIndex == pattern.GetNextTrip(NextTripQueryAt(options, sd.SecondsSinceMidnight(currentTime)))
    {
      var secondsSinceMidnight := sd.SecondsSinceMidnight(currentTime);
      if secondsSinceMidnight < 0 || !sd.ServiceIdRunning(pattern.exemplar.serviceId) then None
      else
        var patternIndex := pattern.GetNextTrip(NextTripQueryAt(options, secondsSinceMidnight));
        if patternIndex < 0 then None
        else
          var departure := sd.Time(pattern.GetDepartureTime(stopIndex, patternIndex));
          sd.TimeOfSecondsSinceMidnight(currentTime);
          MillisToSecondsNonNegative(departure - currentTime);
          Some(Candidate(MillisToSeconds(departure - currentTime), patternIndex))
    }

    /** The best departure kept so far, after looking at one more day: a
        day's departure replaces it when none was kept or it waits strictly
        less. */
    function Improve(best: Candidate, found: Option<Candidate>): Candidate
    {
      if found.Some? && (best.wait < 0 || found.value.wait < best.wait) then found.value else best
    }

    /** The departure the day loop of `traverse` keeps after `days`. */
    function Scan(options: TraverseOptions, days: seq<ServiceDay>, currentTime: int): (best: Candidate)
      requires Valid()
      ensures best == NoCandidate || Acceptable(options, best)
      decreases |days|
    {
      if days == [] then NoCandidate
      else Improve(Scan(options, days[..|days| - 1], currentTime),
                   DayCandidate(options, days[|days| - 1], currentTime))
    }

    /** The state reached by boarding `best`. */
    function Boarded(state0: State, best: Candidate): State
      requires Valid() && Acceptable(state0.options, best)
    {
      var trip := pattern.trips[best.patternIndex];
      state0.(
        time := state0.time + best.wait * 1000,
        weight := state0.weight + PreferencesPenalty(state0.options, SpecOf(trip.route))
                  + best.wait * WaitFactor(state0),
        numBoardings := state0.numBoardings + 1,
        trip := best.patternIndex,
        tripId := Some(trip.id),
        zone := Some(pattern.zones[stopIndex]),
        route := Some(pattern.exemplar.route.id),
        fareContext := Some(pattern.fareContext),
        backState := Some(state0))
    }

    /** What `traverse` returns from `state0`. */
    function TraverseResult(state0: State): Option<State>
      requires Valid()
    {
      var options := state0.options;
      if !options.modes.Get(modeMask) then None
      else
        var best := Scan(options, options.serviceDays, state0.time);
        if best.wait < 0 then None
        else if Banned(options, SpecOf(pattern.trips[best.patternIndex].route)) then None
        else Some(Boarded(state0, best))
    }

    /** What `traverseBack` returns from `state0`. */
    function TraverseBackResult(state0: State): Option<State>
      requires Valid()
    {
      if !pattern.CanBoard(stopIndex) then None
      else Some(state0.(tripId := None, weight := state0.weight + 1, backState := Some(state0)))
    }

    /** What `optimisticTraverse` returns from `state0`. */
    function OptimisticResult(state0: State): State
    {
      state0.(weight := state0.weight + 1, backState := Some(state0))
    }

    /** An optimistic traversal that never charges more than `traverse`. */
    function AdmissibleOptimisticResult(state0: State): State
    {
      state0.(backState := Some(state0))
    }

    /** The day loop of `traverse`: over the service days in order, the
        soonest departure, a later day replacing an earlier one only when it
        waits strictly less. */
    method FindBestDeparture(options: TraverseOptions, currentTime: int)
      returns (bestWait: int, bestPatternIndex: int)
      requires Valid()
      ensures Candidate(bestWait, bestPatternIndex) == Scan(options, options.serviceDays, currentTime)
    {
      bestWait, bestPatternIndex := -1, -1;
      var serviceId := pattern.exemplar.serviceId;
      var days := options.serviceDays;
      for k := 0 to |days|
        invariant Candidate(bestWait, bestPatternIndex) == Scan(options, days[..k], currentTime)
      {
        var sd := days[k];
        var secondsSinceMidnight := sd.SecondsSinceMidnight(currentTime);
        if secondsSinceMidnight >= 0 && sd.ServiceIdRunning(serviceId) {
          var patternIndex := pattern.GetNextTrip(NextTripQueryAt(options, secondsSinceMidnight));
          if patternIndex >= 0 {
            var wait := MillisToSeconds(sd.Time(pattern.GetDepartureTime(stopIndex, patternIndex)) - currentTime);
            if bestWait < 0 || wait < bestWait {
              bestWait, bestPatternIndex := wait, patternIndex;
            }
          }
        }
        assert days[..k + 1][..k] == days[..k];
      }
      assert days[..|days|] == days;
    }

    method Traverse(state0: State) returns (r: Option<State>)
      requires Valid()
      ensures r == TraverseResult(state0)
    {
      var options := state0.options;
      if !options.modes.Get(modeMask) {
        return None;
      }
      var bestWait, bestPatternIndex := FindBestDeparture(options, state0.time);
      if bestWait < 0 {
        return None;
      }
      var trip := pattern.trips[bestPatternIndex];
      var spec := SpecOf(trip.route);
      if options.bannedRoutes.Some? && spec in options.bannedRoutes.value {
        return None;
      }
      var preferencesPenalty: nat := 0;
      if options.preferredRoutes.Some? && |options.preferredRoutes.value| > 0 {
        if spec !in options.preferredRoutes.value {
          preferencesPenalty := preferencesPenalty + options.useAnotherThanPreferredRoutesPenalty;
        }
      }
      if options.unpreferredRoutes.Some? && |options.unpreferredRoutes.value| > 0 {
        if spec in options.unpreferredRoutes.value {
          preferencesPenalty := preferencesPenalty + options.useUnpreferredRoutesPenalty;
        }
      }
      assert preferencesPenalty == PreferencesPenalty(options, spec);
      var s1 := BoardTrip(state0, Candidate(bestWait, bestPatternIndex), preferencesPenalty);
      r := Some(s1);
    }

    /** The successor `traverse` builds once a departure has been chosen and
        its route admitted: the clock moves to the departure, the boarding
        count goes up by one, the trip, zone, route and fare context are
        recorded, and the weight grows by the weighted wait plus the route
        preference surcharge. */
    method BoardTrip(state0: State, best: Candidate, preferencesPenalty: nat) returns (s: State)
      requires Valid() && Acceptable(state0.options, best)
      requires preferencesPenalty == PreferencesPenalty(state0.options, SpecOf(pattern.trips[best.patternIndex].route))
      ensures s == Boarded(state0, best)
    {
      var options := state0.options;
      var trip := pattern.trips[best.patternIndex];
      var s1 := new StateEditor(state0);
      s1.SetTrip(best.patternIndex);
      s1.IncrementTimeInSeconds(best.wait);
      s1.IncrementNumBoardings();
      s1.SetTripId(Some(trip.id));
      s1.SetZone(Some(pattern.zones[stopIndex]));
      s1.SetRoute(Some(pattern.exemplar.route.id));
      s1.SetFareContext(Some(pattern.fareContext));
      var waitCost: nat := best.wait;
      if state0.numBoardings == 0 {
        waitCost := waitCost * options.waitAtBeginningFactor;
      } else {
        waitCost := waitCost * options.waitReluctance;
      }
      s1.IncrementWeight(preferencesPenalty);
      s1.IncrementWeight(waitCost);
      s := s1.MakeState();
    }

    method TraverseBack(state0: State) returns (r: Option<State>)
      requires Valid()
      ensures r == TraverseBackResult(state0)
      ensures r.None? <==> !pattern.CanBoard(stopIndex)
    {
      if !pattern.CanBoard(stopIndex) {
        return None;
      }
      var s1 := new StateEditor(state0);
      s1.SetTripId(None);
      s1.IncrementWeight(1);
      var s := s1.MakeState();
      r := Some(s);
    }

    /** Charges a unit cost whatever the request; `options` is not consulted. */
    method OptimisticTraverse(state0: State, options: TraverseOptions) returns (r: State)
      ensures r == OptimisticResult(state0)
      ensures r.time == state0.time && r.weight == state0.weight + 1
    {
      var s1 := new StateEditor(state0);
      s1.IncrementWeight(1);
      r := s1.MakeState();
    }

    /** The days `traverse` actually looks at, in their order. */
    function ConsultedDays(days: seq<ServiceDay>, currentTime: int): (consulted: seq<ServiceDay>)
      decreases |days|
    {
      if days == [] then []
      else ConsultedDays(days[..|days| - 1], currentTime)
           + (if Consults(days[|days| - 1], currentTime) then [days[|days| - 1]] else [])
    }

    /** The day loop finds nothing exactly when no day offers a departure;
        otherwise it keeps a departure some day offers, with the smallest
        wait of all days, and of the days with that wait the first. */
    lemma {:induction false} ScanSelectsSoonestDeparture(options: TraverseOptions, days: seq<ServiceDay>, currentTime: int)
      requires Valid()
      ensures var best := Scan(options, days, currentTime);
        (best.wait < 0 <==> forall k :: 0 <= k < |days| ==> DayCandidate(options, days[k], currentTime).None?)
      ensures var best := Scan(options, days, currentTime);
        forall k :: 0 <= k < |days| && DayCandidate(options, days[k], currentTime).Some? ==>
          best.wait <= DayCandidate(options, days[k], currentTime).value.wait
      ensures var best := Scan(options, days, currentTime);
        best.wait >= 0 ==>
          exists k :: 0 <= k < |days| && DayCandidate(options, days[k], currentTime) == Some(best) &&
            forall j :: 0 <= j < k && DayCandidate(options, days[j], currentTime).Some? ==>
              DayCandidate(options, days[j], currentTime).value.wait > best.wait
      decreases |days|
    {
      if days != [] {
        var n := |days| - 1;
        var init := days[..n];
        ScanSelectsSoonestDeparture(options, init, currentTime);
        assert forall k :: 0 <= k < n ==> days[k] == init[k];
        var previous := Scan(options, init, currentTime);
        var found := DayCandidate(options, days[n], currentTime);
        if found.Some? && (previous.wait < 0 || found.value.wait < previous.wait) {
          assert Scan(options, days, currentTime) == found.value;
          assert DayCandidate(options, days[n], currentTime) == Some(found.value);
        } else {
          assert Scan(options, days, currentTime) == previous;
          if previous.wait >= 0 {
            var k :| 0 <= k < n && DayCandidate(options, init[k], currentTime) == Some(previous) &&
              forall j :: 0 <= j < k && DayCandidate(options, init[j], currentTime).Some? ==>
                DayCandidate(options, init[j], currentTime).value.wait > previous.wait;
            assert DayCandidate(options, days[k], currentTime) == Some(previous);
          }
        }
      }
    }

    /** Days that have not started at the state's time, or that do not run
        the pattern's service, have no influence on the departure chosen. */
    lemma {:induction false} ScanIgnoresIdleDays(options: TraverseOptions, days: seq<ServiceDay>, currentTime: int)
      requires Valid()
      ensures Scan(options, ConsultedDays(days, currentTime), currentTime) == Scan(options, days, currentTime)
      decreases |days|
    {
      if days != [] {
        var n := |days| - 1;
        var init := days[..n];
        var consulted := ConsultedDays(init, currentTime);
        ScanIgnoresIdleDays(options, init, currentTime);
        if Consults(days[n], currentTime) {
          assert ConsultedDays(days, currentTime) == consulted + [days[n]];
          assert (consulted + [days[n]])[..|consulted|] == consulted;
        } else {
          assert ConsultedDays(days, currentTime) == consulted;
          assert DayCandidate(options, days[n], currentTime).None?;
        }
      }
    }

    /** Which departure is chosen depends on the request only through its
        wheelchair and bicycle needs, never on its route filters, penalties
        or wait factors. */
    lemma {:induction false} ScanIgnoresRoutePreferences(options: TraverseOptions, other: TraverseOptions,
                                                        days: seq<ServiceDay>, currentTime: int)
      requires Valid()
      requires other.wheelchairAccessible == options.wheelchairAccessible
      requires other.modes.GetBicycle() == options.modes.GetBicycle()
      ensures Scan(other, days, currentTime) == Scan(options, days, currentTime)
      decreases |days|
    {
      if days != [] {
        ScanIgnoresRoutePreferences(options, other, days[..|days| - 1], currentTime);
      }
    }

    /** `traverse` fails exactly when the request's modes exclude the edge,
        when no service day offers a departure, or when the departure chosen
        belongs to a banned route. */
    lemma TraverseFailsOnlyWhen(state0: State)
      requires Valid()
      ensures var options := state0.options;
        var best := Scan(options, options.serviceDays, state0.time);
        TraverseResult(state0).None? <==>
          || !options.modes.Get(modeMask)
          || (forall k :: 0 <= k < |options.serviceDays| ==>
                DayCandidate(options, options.serviceDays[k], state0.time).None?)
          || (best.wait >= 0 && Banned(options, SpecOf(pattern.trips[best.patternIndex].route)))
    {
      ScanSelectsSoonestDeparture(state0.options, state0.options.serviceDays, state0.time);
    }

    /** A successful boarding waits for the soonest departure any service day
        offers, moves the clock forward by that wait, counts one more
        boarding, records a trip that serves the request's needs and whose
        route is not banned, and adds the weighted wait plus the route
        preference surcharge to the weight, so neither time nor weight ever
        decreases. */
    lemma TraverseBoardsSoonestDeparture(state0: State)
      requires Valid() && TraverseResult(state0).Some?
      ensures var s1 := TraverseResult(state0).value;
        var options := state0.options;
        var days := options.serviceDays;
        var wait := (s1.time - state0.time) / 1000;
        && s1.time == state0.time + wait * 1000 && wait >= 0
        && (exists k :: 0 <= k < |days| && DayCandidate(options, days[k], state0.time) == Some(Candidate(wait, s1.trip)))
        && (forall k :: 0 <= k < |days| && DayCandidate(options, days[k], state0.time).Some? ==>
              wait <= DayCandidate(options, days[k], state0.time).value.wait)
        && 0 <= s1.trip < |pattern.trips|
        && s1.tripId == Some(pattern.trips[s1.trip].id)
        && !Banned(options, SpecOf(pattern.trips[s1.trip].route))
        && (options.wheelchairAccessible ==> pattern.trips[s1.trip].wheelchairAccessible)
        && (options.modes.GetBicycle() ==> pattern.trips[s1.trip].bikesAllowed)
        && s1.numBoardings == state0.numBoardings + 1
        && s1.weight == state0.weight + PreferencesPenalty(options, SpecOf(pattern.trips[s1.trip].route))
                        + wait * WaitFactor(state0)
        && s1.time >= state0.time && s1.weight >= state0.weight
        && s1.options == options && s1.backState == Some(state0)
    {
      var options := state0.options;
      var best := Scan(options, options.serviceDays, state0.time);
      ScanSelectsSoonestDeparture(options, options.serviceDays, state0.time);
      assert (best.wait * 1000) / 1000 == best.wait;
    }

    /** Waiting for a day's departure moves the clock to within one second of
        that departure's instant, and exactly onto it when the clock stands
        on a whole second of that day. When the clock is less than a second
        past the departure the wait truncates to 0, and the rider boards a
        trip that has just left. */
    lemma DayCandidateReachesDeparture(options: TraverseOptions, sd: ServiceDay, currentTime: int)
      requires Valid() && DayCandidate(options, sd, currentTime).Some?
      ensures var c := DayCandidate(options, sd, currentTime).value;
        var departure := sd.Time(pattern.departureTimes[stopIndex][c.patternIndex]);
        && departure - 1000 < currentTime + c.wait * 1000 < departure + 1000
        && ((currentTime - sd.midnight) % 1000 == 0 ==> currentTime + c.wait * 1000 == departure)
    {
      var c := DayCandidate(options, sd, currentTime).value;
      var secondsSinceMidnight := sd.SecondsSinceMidnight(currentTime);
      var departureSecond := pattern.departureTimes[stopIndex][c.patternIndex];
      assert departureSecond >= secondsSinceMidnight by {
        assert c.patternIndex == pattern.GetNextTrip(NextTripQueryAt(options, secondsSinceMidnight));
      }
      var span := sd.Time(departureSecond) - currentTime;
      assert c.wait == MillisToSeconds(span);
      if (currentTime - sd.midnight) % 1000 == 0 {
        assert currentTime - sd.midnight == secondsSinceMidnight * 1000;
        assert span == (departureSecond - secondsSinceMidnight) * 1000;
      }
    }

    /** A successful boarding moves the clock to within one second of the
        departure instant of the boarded trip, on a day that offers it, and
        exactly onto that instant when the clock stands on a whole second of
        that day. */
    lemma TraverseReachesDeparture(state0: State)
      requires Valid() && TraverseResult(state0).Some?
      ensures var s1 := TraverseResult(state0).value;
        var options := state0.options;
        var days := options.serviceDays;
        && 0 <= s1.trip < |pattern.trips|
        && exists k :: 0 <= k < |days| && DayCandidate(options, days[k], state0.time).Some?
             && DayCandidate(options, days[k], state0.time).value.patternIndex == s1.trip
             && var departure := days[k].Time(pattern.departureTimes[stopIndex][s1.trip]);
                && departure - 1000 < s1.time < departure + 1000
                && ((state0.time - days[k].midnight) % 1000 == 0 ==> s1.time == departure)
    {
      var options := state0.options;
      var days := options.serviceDays;
      var best := Scan(options, days, state0.time);
      ScanSelectsSoonestDeparture(options, days, state0.time);
      var k :| 0 <= k < |days| && DayCandidate(options, days[k], state0.time) == Some(best);
      DayCandidateReachesDeparture(options, days[k], state0.time);
      TraverseAdvancesClockByScan(state0);
    }

    /** On success the clock advances by the wait of the kept departure and
        the boarded trip is that departure's. */
    lemma TraverseAdvancesClockByScan(state0: State)
      requires Valid() && TraverseResult(state0).Some?
      ensures var best := Scan(state0.options, state0.options.serviceDays, state0.time);
        && TraverseResult(state0).value.time == state0.time + best.wait * 1000
        && TraverseResult(state0).value.trip == best.patternIndex
    {
    }

    /** Every wait after a boarding is weighted by the wait reluctance: the
        beginning factor applies to the first wait of an itinerary only. */
    lemma LaterWaitsUseReluctance(state0: State)
      requires Valid() && TraverseResult(state0).Some?
      ensures TraverseResult(state0).value.options == state0.options
      ensures WaitFactor(TraverseResult(state0).value) == state0.options.waitReluctance
    {
    }

    /** Route preferences never change whether or when the rider boards, nor
        which trip: replacing the preferred and unpreferred sets and their
        penalties only swaps one surcharge on the weight for the other. */
    lemma PreferencesOnlyShiftWeight(state0: State, preferred: Option<set<RouteSpec>>,
                                     unpreferred: Option<set<RouteSpec>>,
                                     anotherThanPreferredPenalty: nat, unpreferredPenalty: nat)
      requires Valid()
      ensures var options := state0.options;
        var other := options.(preferredRoutes := preferred, unpreferredRoutes := unpreferred,
                              useAnotherThanPreferredRoutesPenalty := anotherThanPreferredPenalty,
                              useUnpreferredRoutesPenalty := unpreferredPenalty);
        var r := TraverseResult(state0);
        var r' := TraverseResult(state0.(options := other));
        && r'.Some? == r.Some?
        && (r.Some? ==>
              && 0 <= r.value.trip < |pattern.trips|
              && r'.value.time == r.value.time && r'.value.trip == r.value.trip
              && r'.value.weight - PreferencesPenalty(other, SpecOf(pattern.trips[r.value.trip].route))
                 == r.value.weight - PreferencesPenalty(options, SpecOf(pattern.trips[r.value.trip].route)))
    {
      var options := state0.options;
      var other := options.(preferredRoutes := preferred, unpreferredRoutes := unpreferred,
                            useAnotherThanPreferredRoutesPenalty := anotherThanPreferredPenalty,
                            useUnpreferredRoutesPenalty := unpreferredPenalty);
      ScanIgnoresRoutePreferences(options, other, options.serviceDays, state0.time);
    }

    /** Whenever `traverse` can board from some state, `traverseBack` does
        not refuse the edge from any state: both rest on boarding being
        allowed at the stop. */
    lemma BoardingIsStructurallyReversible(state0: State, state1: State)
      requires Valid() && TraverseResult(state0).Some?
      ensures TraverseBackResult(state1).Some?
    {
    }

    /** The corrected optimistic traversal never charges more, and never
        moves the clock further, than a successful `traverse`. */
    lemma AdmissibleOptimisticIsLowerBound(state0: State)
      requires Valid() && TraverseResult(state0).Some?
      ensures AdmissibleOptimisticResult(state0).weight <= TraverseResult(state0).value.weight
      ensures AdmissibleOptimisticResult(state0).time <= TraverseResult(state0).value.time
    {
    }
  }

  /** A stop served by one bus trip leaving at 08:05:00 on weekdays. */
  function ExampleBoard(): PatternBoard
  {
    var weekday := AgencyAndId("agency", "weekday");
    var trip := Trip(AgencyAndId("agency", "trip"), weekday, Route(AgencyAndId("agency", "route"), "1"), true, true);
    var pattern := TripPattern(trip, [trip], [[29100]], [true], ["zone"], FareContext("fare"),
                               (q: NextTripQuery) => if q.stopIndex == 0 && q.afterTime <= 29100 then 0 else -1);
    NewPatternBoard(Vertex("stop"), Vertex("on board"), pattern, 0, Bus)
  }

  /** A first boarding at 08:05:00 on a weekday, with no route preferences. */
  function ExampleState(): State
  {
    var options := TraverseOptions(SingleMode(Bus), false, [ServiceDay(0, {AgencyAndId("agency", "weekday")})],
                                   None, None, None, 0, 0, 1, 1);
    State(29100 * 1000, 0, 0, -1, None, None, None, None, options, None)
  }

  /** As written, the optimistic traversal charges one unit of weight where
      the traversal it should bound from below charges none: a rider who
      reaches the stop at the very second the bus leaves boards at no cost. */
  lemma OptimisticTraverseOverestimates()
    ensures ExampleBoard().Valid()
    ensures var e := ExampleBoard();
      var s := ExampleState();
      && e.TraverseResult(s).Some?
      && e.TraverseResult(s).value.weight == s.weight
      && e.OptimisticResult(s).weight == s.weight + 1
  {
  }
}
