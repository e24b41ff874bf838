/** Optional values, the errors the departure-board services raise, and results that carry either. */
module Wrappers {

  /** Python's `None` or a present value. */
  datatype Option<+T> = None | Some(value: T)

  /** The exceptions the service layer can raise on one API response, one constructor each. */
  datatype Error =
    | UnexpectedResourceType(kind: string)      // the `assert` on a record's type tag fails
    | MalformedTimestamp(text: string)          // `datetime.strptime` rejects a timestamp
    | MissingRelationship(name: string)         // relationship data is null, so `None["id"]` raises
    | UnresolvedRoute(routeId: string)          // `routes[route_id]` raises KeyError
    | UnresolvedPrediction(predictionId: string) // `predictions[prediction_id]` raises KeyError
    | UncomparableTimes                         // `list.sort` compares a missing scheduled time
    | DirectionOutOfRange(directionId: int)     // indexing the destination list raises IndexError

  /** The value of a call that either returns or raises. */
  datatype Result<+T> = Ok(value: T) | Err(error: Error)

  predicate IsDigit(c: char)
  {
    '0' <= c <= '9'
  }

  /** Python truthiness of a JSON string field: neither null nor the empty string. */
  predicate Truthy(s: Option<string>)
  {
    s.Some? && s.value != ""
  }
}
