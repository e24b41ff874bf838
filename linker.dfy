/**
 * `create_schedule` (demosite/scheduleboard/services.py): parses each schedule record of the
 * response's `data` array, links it to its route and optional prediction through the tables
 * `parse_included` built, and sorts the board by scheduled time.
 */
module Linker {
  import opened Wrappers
  import opened Models
  import opened Resources
  import opened Timestamps
  import opened StableSort

  /**
   * What the loop body raises on `json`, checking in its order: the type tag, the arrival and
   * departure times, null route, trip and stop data, the route lookup, the prediction lookup.
   */
  function ScheduleError(json: Resource, routes: map<string, Route>, predictions: map<string, Prediction>,
                         parse: string -> Option<Instant>): Option<Error>
  {
    var rel := json.relationships;
    if json.kind != "schedule" then Some(UnexpectedResourceType(json.kind))
    else if ParseTime(json.attributes.arrivalTime, parse).Err? then
      Some(ParseTime(json.attributes.arrivalTime, parse).error)
    else if ParseTime(json.attributes.departureTime, parse).Err? then
      Some(ParseTime(json.attributes.departureTime, parse).error)
    else if rel.route.None? then Some(MissingRelationship("route"))
    else if rel.trip.None? then Some(MissingRelationship("trip"))
    else if rel.stop.None? then Some(MissingRelationship("stop"))
    else if rel.route.value !in routes then Some(UnresolvedRoute(rel.route.value))
    else if rel.prediction.Some? && rel.prediction.value !in predictions then
      Some(UnresolvedPrediction(rel.prediction.value))
    else None
  }

  /** Record `i` is the first schedule record that makes `create_schedule` raise. */
  predicate ScheduleFailsFirstAt(data: seq<Resource>, routes: map<string, Route>,
                                 predictions: map<string, Prediction>, parse: string -> Option<Instant>, i: int)
  {
    && 0 <= i < |data|
    && ScheduleError(data[i], routes, predictions, parse).Some?
    && forall j :: 0 <= j < i ==> ScheduleError(data[j], routes, predictions, parse).None?
  }

  /**
   * `schedule` is the object the loop body builds from the well-formed record `json`: its route
   * is the table entry for the route id, and its prediction is None exactly when the prediction
   * data is null and otherwise the table entry for that id.
   */
  predicate ScheduleFrom(schedule: Schedule, json: Resource, routes: map<string, Route>,
                         predictions: map<string, Prediction>, parse: string -> Option<Instant>)
  {
    var rel := json.relationships;
    && ScheduleError(json, routes, predictions, parse).None?
    && schedule.id == json.id
    && ParseTime(json.attributes.arrivalTime, parse) == Ok(schedule.arrivalTime)
    && ParseTime(json.attributes.departureTime, parse) == Ok(schedule.departureTime)
    && schedule.directionId == json.attributes.directionId
    && schedule.route == routes[rel.route.value]
    && schedule.tripId == None
    && schedule.stopId == rel.stop.value
    && schedule.prediction == (if rel.prediction.Some? then Some(predictions[rel.prediction.value]) else None)
  }

  /** A schedule record whose arrival and departure times are both falsy. */
  predicate Untimed(json: Resource)
  {
    !Truthy(json.attributes.arrivalTime) && !Truthy(json.attributes.departureTime)
  }

  /**
   * The sort key. Only consulted when every schedule has a scheduled time or when there are
   * fewer than two schedules (then no comparison happens), so the fallback value is never compared.
   */
  function ScheduledKey(schedule: Schedule): Instant
  {
    match schedule.GetScheduledTime()
    case Some(t) => t
    case None => 0
  }

  predicate AllScheduled(schedules: seq<Schedule>)
  {
    forall i :: 0 <= i < |schedules| ==> schedules[i].GetScheduledTime().Some?
  }

  /** The body of the loop over `data`: one record parsed and linked, or the error it raises. */
  method BuildSchedule(element: Resource, routes: map<string, Route>, predictions: map<string, Prediction>,
                       parse: string -> Option<Instant>)
    returns (r: Result<Schedule>)
    ensures r.Err? <==> ScheduleError(element, routes, predictions, parse).Some?
    ensures r.Err? ==> r.error == ScheduleError(element, routes, predictions, parse).value
    ensures r.Ok? ==> ScheduleFrom(r.value, element, routes, predictions, parse)
  {
    var rel := element.relationships;
    if element.kind != "schedule" {
      return Err(UnexpectedResourceType(element.kind));
    }
    var arrivalTime := ParseTime(element.attributes.arrivalTime, parse);
    if arrivalTime.Err? {
      return Err(arrivalTime.error);
    }
    var departureTime := ParseTime(element.attributes.departureTime, parse);
    if departureTime.Err? {
      return Err(departureTime.error);
    }
    var direction := element.attributes.directionId;
    if rel.route.None? {
      return Err(MissingRelationship("route"));
    }
    if rel.trip.None? {
      return Err(MissingRelationship("trip"));
    }
    if rel.stop.None? {
      return Err(MissingRelationship("stop"));
    }
    var routeId, tripId, stopId := rel.route.value, rel.trip.value, rel.stop.value;
    if routeId !in routes {
      return Err(UnresolvedRoute(routeId));
    }
    var route := routes[routeId];
    var prediction: Option<Prediction> := None;
    if rel.prediction.Some? {
      var predictionId := rel.prediction.value;
      if predictionId !in predictions {
        return Err(UnresolvedPrediction(predictionId));
      }
      prediction := Some(predictions[predictionId]);
    }
    var sid := element.id;
    var schedule := new Schedule(sid, arrivalTime.value, departureTime.value, direction, route,
                                 tripId, stopId, prediction);
    return Ok(schedule);
  }

  /** Every two schedules compare by their scheduled times, earliest first. */
  predicate OrderedByScheduledTime(schedules: seq<Schedule>)
  {
    forall i, j :: 0 <= i < j < |schedules| ==>
      schedules[i].GetScheduledTime().Some? && schedules[j].GetScheduledTime().Some? &&
      schedules[i].GetScheduledTime().value <= schedules[j].GetScheduledTime().value
  }

  /** Once every schedule to be compared has a time, the sorted board is ordered by scheduled time. */
  lemma SortedByScheduledTime(schedules: seq<Schedule>)
    requires |schedules| < 2 || AllScheduled(schedules)
    ensures OrderedByScheduledTime(Sort(schedules, ScheduledKey))
  {
    var sorted := Sort(schedules, ScheduledKey);
    SortIsSorted(schedules, ScheduledKey);
    SortIsPermutation(schedules, ScheduledKey);
    if |schedules| >= 2 {
      forall i | 0 <= i < |sorted| ensures sorted[i].GetScheduledTime().Some? {
        assert sorted[i] in multiset(schedules);
      }
    }
  }

  /**
   * The board for one response. A malformed record aborts the whole call with the error of the
   * first such record and no partial list. Otherwise `built` holds one schedule per record, in
   * record order, and the result is `built` stably sorted by scheduled time, unless two or more
   * schedules are to be sorted and one has no time at all: Python cannot compare None.
   */
  method CreateSchedule(data: seq<Resource>, routes: map<string, Route>, predictions: map<string, Prediction>,
                        parse: string -> Option<Instant>)
    returns (r: Result<seq<Schedule>>, ghost built: seq<Schedule>)
    ensures (exists i :: 0 <= i < |data| && ScheduleError(data[i], routes, predictions, parse).Some?) ==>
      exists i :: (ScheduleFailsFirstAt(data, routes, predictions, parse, i) &&
        r == Err(ScheduleError(data[i], routes, predictions, parse).value))
    ensures (forall i :: 0 <= i < |data| ==> ScheduleError(data[i], routes, predictions, parse).None?) ==>
      && |built| == |data|
      && (forall i :: 0 <= i < |data| ==> ScheduleFrom(built[i], data[i], routes, predictions, parse))
      && (if |data| >= 2 && exists i :: 0 <= i < |data| && Untimed(data[i])
          then r == Err(UncomparableTimes)
          else r == Ok(Sort(built, ScheduledKey)))
    ensures r.Ok? ==> |r.value| == |data| && multiset(r.value) == multiset(built)
    ensures r.Ok? ==> OrderedByScheduledTime(r.value)
    ensures r.Ok? ==> forall t :: WithKey(r.value, ScheduledKey, t) == WithKey(built, ScheduledKey, t)
  {
    var schedules: seq<Schedule> := [];
    for i := 0 to |data|
      invariant |schedules| == i
      invariant forall j :: 0 <= j < i ==> ScheduleError(data[j], routes, predictions, parse).None?
      invariant forall j :: 0 <= j < i ==> ScheduleFrom(schedules[j], data[j], routes, predictions, parse)
    {
      var schedule := BuildSchedule(data[i], routes, predictions, parse);
      if schedule.Err? {
        assert ScheduleFailsFirstAt(data, routes, predictions, parse, i);
        return Err(schedule.error), schedules;
      }
      schedules := schedules + [schedule.value];
    }
    built := schedules;
    assert AllScheduled(schedules) <==> !exists i :: 0 <= i < |data| && Untimed(data[i]) by {
      forall i | 0 <= i < |data| ensures schedules[i].GetScheduledTime().None? <==> Untimed(data[i]) {
        assert ScheduleFrom(schedules[i], data[i], routes, predictions, parse);
      }
    }
    if |schedules| >= 2 && !AllScheduled(schedules) {
      return Err(UncomparableTimes), built;
    }
    var sorted := Sort(schedules, ScheduledKey);
    SortIsPermutation(schedules, ScheduledKey);
    SortIsStable(schedules, ScheduledKey);
    SortedByScheduledTime(schedules);
    assert |sorted| == |multiset(sorted)| == |multiset(schedules)| == |schedules|;
    return Ok(sorted), built;
  }
}
