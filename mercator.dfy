/** `coordToMercator`: a geographic point in degrees to spherical Web
    Mercator metres, with the latitude clamped short of the poles. The
    northing formula R/2 * ln((1 + sin phi) / (1 - sin phi)), evaluated in
    double precision, is left uninterpreted as the function `northing` of the
    latitude in radians; the easting and the clamp are exact. */
module Mercator {
  import opened JsValue

  const EarthRadius: real := 6378137.0
  const RadiansPerDegree: real := 0.017453292519943
  /** Latitudes are clamped into [-MaxLatitude, MaxLatitude]. */
  const MaxLatitude: real := 89.99999
  /** The well-known id of Web Mercator. */
  const WebMercatorWkid: int := 102100

  datatype Coord = Coord(x: real, y: real)
  datatype MercatorPoint = MercatorPoint(x: real, y: real, wkid: int)

  /** What the projection needs from floating point: the northing, and the
      coordinates JavaScript's number coercion produces for a geometry whose
      `x` and `y` are not both numbers (NaN for a missing one). */
  datatype Projector = Projector(northing: real -> real, otherCoords: Json -> (Json, Json))

  function DegToRad(deg: real): real {
    deg * RadiansPerDegree
  }

  function Min(a: real, b: real): real { if a <= b then a else b }
  function Max(a: real, b: real): real { if a >= b then a else b }

  /** The latitude clamped into [-MaxLatitude, MaxLatitude]. */
  function ClampLatitude(lat: real): (r: real)
    ensures -MaxLatitude <= r <= MaxLatitude
    ensures -MaxLatitude <= lat <= MaxLatitude ==> r == lat
    ensures lat >= MaxLatitude ==> r == MaxLatitude
    ensures lat <= -MaxLatitude ==> r == -MaxLatitude
  {
    Max(Min(lat, MaxLatitude), -MaxLatitude)
  }

  /** The projected point: easting from the longitude, northing from the
      clamped latitude only, tagged Web Mercator. */
  function CoordToMercator(c: Coord, northing: real -> real): (p: MercatorPoint)
    ensures p.wkid == WebMercatorWkid
    ensures exists lat :: -MaxLatitude <= lat <= MaxLatitude && p.y == northing(DegToRad(lat))
    ensures c.x == 0.0 ==> p.x == 0.0
  {
    var lat := ClampLatitude(c.y);
    MercatorPoint(DegToRad(c.x) * EarthRadius, northing(DegToRad(lat)), WebMercatorWkid)
  }

  /** Inside the clamp range the latitude is used as given. */
  lemma LatitudeUnclampedInRange(c: Coord, northing: real -> real)
    requires -MaxLatitude <= c.y <= MaxLatitude
    ensures CoordToMercator(c, northing).y == northing(DegToRad(c.y))
  {
  }

  /** At or beyond either clamp bound every latitude projects as the bound
      itself: the pole (90) gives the point of 89.99999. */
  lemma PoleClamping(x: real, lat: real, northing: real -> real)
    ensures lat >= MaxLatitude ==>
      CoordToMercator(Coord(x, lat), northing) == CoordToMercator(Coord(x, MaxLatitude), northing)
    ensures lat <= -MaxLatitude ==>
      CoordToMercator(Coord(x, lat), northing) == CoordToMercator(Coord(x, -MaxLatitude), northing)
  {
  }

  /** The origin projects to the origin, given a northing that vanishes at
      the equator (as ln(1) = 0 does). */
  lemma OriginProjectsToOrigin(northing: real -> real)
    requires northing(0.0) == 0.0
    ensures CoordToMercator(Coord(0.0, 0.0), northing) == MercatorPoint(0.0, 0.0, WebMercatorWkid)
  {
  }

  /** The clamp keeps the formula away from its singularity: for any sine
      strictly inside (-1, 1) on the clamped range, the quotient under the
      logarithm is defined and positive for every input latitude. */
  lemma NoPoleSingularity(lat: real, sin: real -> real)
    requires forall phi :: DegToRad(-MaxLatitude) <= phi <= DegToRad(MaxLatitude) ==> -1.0 < sin(phi) < 1.0
    ensures 1.0 - sin(DegToRad(ClampLatitude(lat))) > 0.0
    ensures (1.0 + sin(DegToRad(ClampLatitude(lat)))) / (1.0 - sin(DegToRad(ClampLatitude(lat)))) > 0.0
  {
  }

  /** The JSON object `coordToMercator` returns. */
  function PointJson(x: Json, y: Json): Json {
    Obj(map["x" := x, "y" := y, "spatialReference" := Obj(map["wkid" := Num(WebMercatorWkid as real)])])
  }

  /** The coordinates of a geometry whose `x` and `y` are both numbers. */
  function CoordOf(g: Json): Option<Coord> {
    if g.Obj? && "x" in g.props && "y" in g.props && g.props["x"].Num? && g.props["y"].Num?
    then Some(Coord(g.props["x"].n, g.props["y"].n))
    else None
  }

  /** The `spatialReference.wkid` of a JSON value, if it has one. */
  function WkidOf(v: Json): Option<Json> {
    if v.Obj? && "spatialReference" in v.props && v.props["spatialReference"].Obj?
       && "wkid" in v.props["spatialReference"].props
    then Some(v.props["spatialReference"].props["wkid"])
    else None
  }

  /** `coordToMercator` applied to a geometry read from a feature (None is
      `undefined`): reading `x` of null or undefined throws; any other value
      yields a point tagged Web Mercator, the projection of its coordinates
      when they are numbers. */
  function ProjectGeometry(g: Option<Json>, pr: Projector): (r: Result<Json>)
    ensures r.Err? <==> g == None || g == Some(Null)
    ensures r.Ok? ==> WkidOf(r.value) == Some(Num(WebMercatorWkid as real))
    ensures r.Ok? && CoordOf(g.value).Some? ==>
      var p := CoordToMercator(CoordOf(g.value).value, pr.northing);
      r.value == PointJson(Num(p.x), Num(p.y))
  {
    match g
    case None => Err(TypeError)
    case Some(geometry) =>
      if geometry == Null then Err(TypeError)
      else match CoordOf(geometry)
        case Some(c) =>
          var p := CoordToMercator(c, pr.northing);
          Ok(PointJson(Num(p.x), Num(p.y)))
        case None =>
          var (x, y) := pr.otherCoords(geometry);
          Ok(PointJson(x, y))
  }
}
