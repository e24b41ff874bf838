/**
 * The departure board's entities (demosite/scheduleboard/models.py): the station table and the
 * Schedule, Route and Prediction objects. Each object's fields are set once by its constructor and
 * never changed afterwards, so they are `const` fields and the accessors read nothing else.
 */
module Models {
  import opened Wrappers

  /** A timezone-aware instant, compared as the API's datetimes are: by absolute time. */
  type Instant = int

  /** The stations the user can switch between: (API stop id, display name). */
  const StationChoices: seq<(string, string)> :=
    [("place-sstat", "South Station"), ("place-north", "North Station")]

  /** The display name paired with `stationKey` by its first entry in the table, or None. */
  method GetStationDisplayName(stationKey: string) returns (name: Option<string>)
    ensures name.None? <==> forall i :: 0 <= i < |StationChoices| ==> StationChoices[i].0 != stationKey
    ensures name.Some? ==>
      exists i :: 0 <= i < |StationChoices| && StationChoices[i] == (stationKey, name.value) &&
        forall j :: 0 <= j < i ==> StationChoices[j].0 != stationKey
  {
    for i := 0 to |StationChoices|
      invariant forall j :: 0 <= j < i ==> StationChoices[j].0 != stationKey
    {
      if StationChoices[i].0 == stationKey {
        return Some(StationChoices[i].1);
      }
    }
    return None;
  }

  /** A route, as side-loaded in the API's `included` array. */
  class Route {
    const id: string
    const shortName: Option<string>
    const longName: Option<string>
    /** Destination per direction id; the API sends a JSON array, indexed by the direction id. */
    const dirDestinations: seq<string>

    constructor (rid: string, sn: Option<string>, ln: Option<string>, dd: seq<string>)
      ensures id == rid && shortName == sn && longName == ln && dirDestinations == dd
    {
      id := rid;
      shortName := sn;
      longName := ln;
      dirDestinations := dd;
    }

    /**
     * Python list indexing: a direction id in [0, n) selects that entry, one in [-n, 0) counts
     * from the end, and anything else raises IndexError.
     */
    function GetDestination(dirId: int): (r: Result<string>)
      ensures r.Ok? <==> -|dirDestinations| <= dirId < |dirDestinations|
      ensures r.Ok? && 0 <= dirId ==> r.value == dirDestinations[dirId]
      ensures r.Ok? && dirId < 0 ==> r.value == dirDestinations[|dirDestinations| + dirId]
      ensures r.Err? ==> r.error == DirectionOutOfRange(dirId)
    {
      var n := |dirDestinations|;
      if 0 <= dirId < n then Ok(dirDestinations[dirId])
      else if -n <= dirId < 0 then Ok(dirDestinations[n + dirId])
      else Err(DirectionOutOfRange(dirId))
    }

    /** The short name when it is non-empty, otherwise the long name. */
    function GetName(): (name: Option<string>)
      ensures Truthy(name) <==> Truthy(shortName) || Truthy(longName)
      ensures Truthy(shortName) ==> name == shortName
      ensures !Truthy(shortName) ==> name == longName
    {
      if Truthy(shortName) then shortName else longName
    }
  }

  /** A live prediction for one stop of one trip. */
  class Prediction {
    const id: string
    const arrivalTime: Option<Instant>
    const departureTime: Option<Instant>
    const directionId: int
    const status: Option<string>

    /** An absent or empty status is not stored: the field keeps its default None. Times as for Schedule. */
    constructor (pid: string, at: Option<Instant>, dt: Option<Instant>, di: int, s: Option<string>)
      ensures id == pid && arrivalTime == at && departureTime == dt && directionId == di
      ensures Truthy(s) ==> status == s
      ensures !Truthy(s) ==> status == None
    {
      id := pid;
      arrivalTime := at;
      departureTime := dt;
      directionId := di;
      if Truthy(s) {
        status := s;
      } else {
        status := None;
      }
    }

    /** The time to show: arrival when known, otherwise departure. */
    function GetDisplayTime(): (t: Option<Instant>)
      ensures t.None? <==> arrivalTime.None? && departureTime.None?
      ensures t.Some? ==> t == arrivalTime || t == departureTime
      ensures arrivalTime.Some? ==> t == arrivalTime
    {
      if arrivalTime.Some? then arrivalTime else departureTime
    }

    /** The status to show; the stringified null "None" shows as nothing. */
    function GetStatus(): (shown: string)
      ensures shown == "" <==> !Truthy(status) || status.value == "None"
      ensures shown != "" ==> status == Some(shown)
    {
      if Truthy(status) && status.value != "None" then status.value else ""
    }
  }

  /** One scheduled stop of one trip at the station, linked to its route and optional prediction. */
  class Schedule {
    const id: string
    const arrivalTime: Option<Instant>
    const departureTime: Option<Instant>
    const directionId: int
    const route: Route
    /** Never assigned by the constructor: the trip id argument is dropped. */
    const tripId: Option<string>
    const stopId: string
    const prediction: Option<Prediction>

    /**
     * A falsy time or prediction leaves its field None; a parsed instant and a Prediction object
     * are always truthy, so a present one is stored as given.
     */
    constructor (sid: string, at: Option<Instant>, dt: Option<Instant>, dir: int, rt: Route,
                 tp: string, sp: string, pr: Option<Prediction>)
      ensures id == sid && arrivalTime == at && departureTime == dt && directionId == dir
      ensures route == rt && stopId == sp && prediction == pr
      ensures tripId == None
    {
      id := sid;
      arrivalTime := at;
      departureTime := dt;
      directionId := dir;
      route := rt;
      tripId := None;
      stopId := sp;
      prediction := pr;
    }

    /** The time the board sorts by: departure when known, otherwise arrival. */
    function GetScheduledTime(): (t: Option<Instant>)
      ensures t.None? <==> arrivalTime.None? && departureTime.None?
      ensures t.Some? ==> t == arrivalTime || t == departureTime
      ensures departureTime.Some? ==> t == departureTime
    {
      if departureTime.Some? then departureTime else arrivalTime
    }

    /** The prediction's displayed status, or nothing when there is no prediction. */
    function GetStatus(): (shown: string)
      ensures prediction.None? ==> shown == ""
      ensures shown != "" ==> prediction.Some? && prediction.value.status == Some(shown)
      ensures prediction.Some? ==> shown == prediction.value.GetStatus()
    {
      if prediction.Some? then prediction.value.GetStatus() else ""
    }

    /** The route's destination for this schedule's direction. */
    function GetDestination(): (r: Result<string>)
      ensures 0 <= directionId < |route.dirDestinations| ==> r == Ok(route.dirDestinations[directionId])
      ensures -|route.dirDestinations| <= directionId < 0 ==>
        r == Ok(route.dirDestinations[|route.dirDestinations| + directionId])
      ensures r.Ok? ==> r.value in route.dirDestinations
      ensures r.Err? <==> !(-|route.dirDestinations| <= directionId < |route.dirDestinations|)
    {
      route.GetDestination(directionId)
    }
  }
}
