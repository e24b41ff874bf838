/**
 * The decoded JSON:API resources of one `/schedules` response. Every resource has the shape
 * `{type, id, attributes, relationships}`; only the keys the services read are kept.
 */
module Resources {
  import opened Wrappers

  datatype Resource = Resource(kind: string, id: string, attributes: Attributes, relationships: Relationships)

  /** Attribute values; a JSON null is None. Each resource kind reads only its own keys. */
  datatype Attributes = Attributes(
    arrivalTime: Option<string>,
    departureTime: Option<string>,
    directionId: int,
    status: Option<string>,
    shortName: Option<string>,
    longName: Option<string>,
    directionDestinations: seq<string>)

  /** The `data.id` of each relationship, or None when its `data` is null. */
  datatype Relationships = Relationships(
    route: Option<string>,
    trip: Option<string>,
    stop: Option<string>,
    prediction: Option<string>)
}
