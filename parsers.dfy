/**
 * The per-record parsers `create_route` and `create_prediction` and the dispatch `parse_included`
 * (demosite/scheduleboard/services.py) that builds the id-keyed route and prediction tables from
 * the response's `included` array.
 */
module Parsers {
  import opened Wrappers
  import opened Models
  import opened Resources
  import opened Timestamps

  /** `route` holds exactly the fields `create_route` copies from `json`. */
  predicate RouteFrom(route: Route, json: Resource)
  {
    && route.id == json.id
    && route.shortName == json.attributes.shortName
    && route.longName == json.attributes.longName
    && route.dirDestinations == json.attributes.directionDestinations
  }

  /** What `create_prediction` raises on `json`, checking in its order: type tag, arrival, departure. */
  function PredictionError(json: Resource, parse: string -> Option<Instant>): Option<Error>
  {
    if json.kind != "prediction" then Some(UnexpectedResourceType(json.kind))
    else if ParseTime(json.attributes.arrivalTime, parse).Err? then
      Some(ParseTime(json.attributes.arrivalTime, parse).error)
    else if ParseTime(json.attributes.departureTime, parse).Err? then
      Some(ParseTime(json.attributes.departureTime, parse).error)
    else None
  }

  /** `prediction` holds exactly the values `create_prediction` builds from `json`. */
  predicate PredictionFrom(prediction: Prediction, json: Resource, parse: string -> Option<Instant>)
  {
    && prediction.id == json.id
    && ParseTime(json.attributes.arrivalTime, parse) == Ok(prediction.arrivalTime)
    && ParseTime(json.attributes.departureTime, parse) == Ok(prediction.departureTime)
    && prediction.directionId == json.attributes.directionId
    && prediction.status == (if Truthy(json.attributes.status) then json.attributes.status else None)
  }

  method CreateRoute(json: Resource) returns (r: Result<Route>)
    ensures r.Err? <==> json.kind != "route"
    ensures r.Err? ==> r.error == UnexpectedResourceType(json.kind)
    ensures r.Ok? ==> RouteFrom(r.value, json)
  {
    if json.kind != "route" {
      return Err(UnexpectedResourceType(json.kind));
    }
    var route := new Route(json.id, json.attributes.shortName, json.attributes.longName,
                           json.attributes.directionDestinations);
    return Ok(route);
  }

  method CreatePrediction(json: Resource, parse: string -> Option<Instant>) returns (r: Result<Prediction>)
    ensures r.Err? <==> PredictionError(json, parse).Some?
    ensures r.Err? ==> r.error == PredictionError(json, parse).value
    ensures r.Ok? ==> PredictionFrom(r.value, json, parse)
  {
    if json.kind != "prediction" {
      return Err(UnexpectedResourceType(json.kind));
    }
    var at := ParseTime(json.attributes.arrivalTime, parse);
    if at.Err? {
      return Err(at.error);
    }
    var dt := ParseTime(json.attributes.departureTime, parse);
    if dt.Err? {
      return Err(dt.error);
    }
    var prediction := new Prediction(json.id, at.value, dt.value, json.attributes.directionId,
                                     json.attributes.status);
    return Ok(prediction);
  }

  /**
   * The records of one kind keyed by id, filled left to right so that a later record with the
   * same id replaces an earlier one: the table `parse_included` builds, before parsing.
   */
  function Table(included: seq<Resource>, kind: string): map<string, Resource>
  {
    if included == [] then map[]
    else
      var last := included[|included| - 1];
      var earlier := Table(included[..|included| - 1], kind);
      if last.kind == kind then earlier[last.id := last] else earlier
  }

  /** A key is in the table exactly when some record of that kind has it as its id. */
  lemma {:induction false} TableKeys(included: seq<Resource>, kind: string, id: string)
    ensures id in Table(included, kind) <==>
      exists i :: 0 <= i < |included| && included[i].kind == kind && included[i].id == id
  {
    if included != [] {
      var front := included[..|included| - 1];
      TableKeys(front, kind, id);
      if id in Table(front, kind) {
        var i :| 0 <= i < |front| && front[i].kind == kind && front[i].id == id;
        assert included[i] == front[i];
      }
      if exists i :: 0 <= i < |included| && included[i].kind == kind && included[i].id == id {
        var i :| 0 <= i < |included| && included[i].kind == kind && included[i].id == id;
        if i < |front| {
          assert front[i] == included[i];
        }
      }
    }
  }

  /**
   * Every entry is a record of the table's kind stored under its own id, and it is the last such
   * record in `included`: a later duplicate overwrites an earlier one.
   */
  lemma {:induction false} TableEntries(included: seq<Resource>, kind: string, id: string)
    requires id in Table(included, kind)
    ensures Table(included, kind)[id].kind == kind && Table(included, kind)[id].id == id
    ensures exists i :: (0 <= i < |included| && included[i] == Table(included, kind)[id] &&
      forall j :: i < j < |included| ==> !(included[j].kind == kind && included[j].id == id))
  {
    var front := included[..|included| - 1];
    var last := included[|included| - 1];
    if last.kind == kind && last.id == id {
      assert included[|included| - 1] == Table(included, kind)[id];
    } else {
      TableEntries(front, kind, id);
      var i :| 0 <= i < |front| && front[i] == Table(front, kind)[id] &&
        forall j :: i < j < |front| ==> !(front[j].kind == kind && front[j].id == id);
      assert included[i] == front[i];
      forall j | i < j < |included| ensures !(included[j].kind == kind && included[j].id == id) {
        if j < |front| {
          assert included[j] == front[j];
        }
      }
    }
  }

  /** Only records of the table's kind contribute; any other record is skipped. */
  lemma OtherKindsSkipped(included: seq<Resource>, record: Resource, kind: string)
    requires record.kind != kind
    ensures Table(included + [record], kind) == Table(included, kind)
  {

  }

  lemma TableStep(included: seq<Resource>, i: nat, kind: string)
    requires i < |included|
    ensures Table(included[..i + 1], kind) ==
      if included[i].kind == kind then Table(included[..i], kind)[included[i].id := included[i]]
      else Table(included[..i], kind)
  {
    assert included[..i + 1][..i] == included[..i];
  }

  /** Whether an included record makes `parse_included` raise: only predictions are parsed fallibly. */
  function IncludedError(json: Resource, parse: string -> Option<Instant>): Option<Error>
  {
    if json.kind == "prediction" then PredictionError(json, parse) else None
  }

  /** Record `i` is the first included record that makes `parse_included` raise. */
  predicate IncludedFailsFirstAt(included: seq<Resource>, parse: string -> Option<Instant>, i: int)
  {
    && 0 <= i < |included|
    && IncludedError(included[i], parse).Some?
    && forall j :: 0 <= j < i ==> IncludedError(included[j], parse).None?
  }

  /** `routes` holds one parsed route per entry of `table`, stored under the route's own id. */
  predicate RoutesBuilt(routes: map<string, Route>, table: map<string, Resource>)
  {
    && routes.Keys == table.Keys
    && forall id :: id in routes ==> routes[id].id == id && RouteFrom(routes[id], table[id])
  }

  /** `predictions` holds one parsed prediction per entry of `table`, under its own id. */
  predicate PredictionsBuilt(predictions: map<string, Prediction>, table: map<string, Resource>,
                             parse: string -> Option<Instant>)
  {
    && predictions.Keys == table.Keys
    && forall id :: id in predictions ==>
      predictions[id].id == id && PredictionFrom(predictions[id], table[id], parse)
  }

  lemma AddRoute(routes: map<string, Route>, table: map<string, Resource>, route: Route, json: Resource)
    requires RoutesBuilt(routes, table) && RouteFrom(route, json)
    ensures RoutesBuilt(routes[route.id := route], table[json.id := json])
  {
  }

  lemma AddPrediction(predictions: map<string, Prediction>, table: map<string, Resource>,
                      prediction: Prediction, json: Resource, parse: string -> Option<Instant>)
    requires PredictionsBuilt(predictions, table, parse) && PredictionFrom(prediction, json, parse)
    ensures PredictionsBuilt(predictions[prediction.id := prediction], table[json.id := json], parse)
  {
  }

  /**
   * The body of the loop over `included`: a route or a prediction is parsed and stored under its
   * id, any other record leaves both tables as they are, and a prediction that does not parse is
   * the error the call raises.
   */
  method ParseIncludedRecord(element: Resource, routes: map<string, Route>, predictions: map<string, Prediction>,
                             parse: string -> Option<Instant>, ghost routeTable: map<string, Resource>,
                             ghost predictionTable: map<string, Resource>)
    returns (r: Result<(map<string, Route>, map<string, Prediction>)>)
    requires RoutesBuilt(routes, routeTable) && PredictionsBuilt(predictions, predictionTable, parse)
    ensures r.Err? <==> IncludedError(element, parse).Some?
    ensures r.Err? ==> r.error == IncludedError(element, parse).value
    ensures r.Ok? ==> RoutesBuilt(r.value.0,
      if element.kind == "route" then routeTable[element.id := element] else routeTable)
    ensures r.Ok? ==> PredictionsBuilt(r.value.1,
      if element.kind == "prediction" then predictionTable[element.id := element] else predictionTable, parse)
  {
    if element.kind == "route" {
      var route := CreateRoute(element);
      AddRoute(routes, routeTable, route.value, element);
      return Ok((routes[route.value.id := route.value], predictions));
    } else if element.kind == "prediction" {
      var prediction := CreatePrediction(element, parse);
      if prediction.Err? {
        return Err(prediction.error);
      }
      AddPrediction(predictions, predictionTable, prediction.value, element, parse);
      return Ok((routes, predictions[prediction.value.id := prediction.value]));
    }
    return Ok((routes, predictions));
  }

  /**
   * Route and prediction tables from the heterogeneous `included` array. Routes and predictions
   * are parsed and stored under their ids; every other kind is skipped. The first prediction
   * whose times do not parse aborts the whole call.
   */
  method ParseIncluded(included: seq<Resource>, parse: string -> Option<Instant>)
    returns (r: Result<(map<string, Route>, map<string, Prediction>)>)
    ensures r.Err? <==> exists i ::
      IncludedFailsFirstAt(included, parse, i) && r == Err(IncludedError(included[i], parse).value)
    ensures r.Ok? ==> forall i :: 0 <= i < |included| ==> IncludedError(included[i], parse).None?
    ensures r.Ok? ==> RoutesBuilt(r.value.0, Table(included, "route"))
    ensures r.Ok? ==> PredictionsBuilt(r.value.1, Table(included, "prediction"), parse)
  {
    var routes: map<string, Route> := map[];
    var predictions: map<string, Prediction> := map[];
    for i := 0 to |included|
      invariant forall j :: 0 <= j < i ==> IncludedError(included[j], parse).None?
      invariant RoutesBuilt(routes, Table(included[..i], "route"))
      invariant PredictionsBuilt(predictions, Table(included[..i], "prediction"), parse)
    {
      TableStep(included, i, "route");
      TableStep(included, i, "prediction");
      var step := ParseIncludedRecord(included[i], routes, predictions, parse,
                                      Table(included[..i], "route"), Table(included[..i], "prediction"));
      if step.Err? {
        r := Err(step.error);
        assert IncludedFailsFirstAt(included, parse, i) && r == Err(IncludedError(included[i], parse).value);
        return;
      }
      routes, predictions := step.value.0, step.value.1;
    }
    assert included[..|included|] == included;
    return Ok((routes, predictions));
  }
}
