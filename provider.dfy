/** The capability surface a data provider offers to the output layer. The
    provider's operations are taken as pure functions; its query operations,
    which deliver their result to a callback exactly once, are taken as
    functions returning that result. */
module DataProvider {
  import opened JsValue

  /** Service and layer identifiers, queries and all returned descriptors are
      JSON data. `serviceIds` is read as a property (a given sequence), the
      other members are called. */
  datatype Provider = Provider(
    serverVersion: Json,
    serviceIds: seq<Json>,
    serviceDetails: Json -> Json,
    layerIds: Json -> seq<Json>,
    layerDetails: (Json, Json) -> Json,
    nameField: (Json, Json) -> Json,
    idField: (Json, Json) -> Json,
    fields: (Json, Json) -> Json,
    countForQuery: (Json, Json, Json) -> Json,
    idsForQuery: (Json, Json, Json) -> Json,
    featuresForQuery: (Json, Json, Json) -> seq<Json>)

  /** One descriptor per identifier, in the identifiers' order. */
  function DetailsFor(ids: seq<Json>, details: Json -> Json): (r: seq<Json>)
    ensures |r| == |ids|
    ensures forall i :: 0 <= i < |ids| ==> r[i] == details(ids[i])
  {
    seq(|ids|, i requires 0 <= i < |ids| => details(ids[i]))
  }
}
