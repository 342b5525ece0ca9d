/**
 * The in-memory GPX document as the track-format library hands it to the scaler:
 * tracks made of segments of points, and routes made of points.
 */
module GpxModel {
  import opened Wrappers
  import opened RealSeq

  /** A track or route point: position in degrees, optional elevation (m), optional timestamp (s). */
  datatype GpxPoint = GpxPoint(lat: real, lon: real, ele: Option<real>, time: Option<real>)

  datatype Track = Track(name: Option<string>, segments: seq<seq<GpxPoint>>)

  datatype Route = Route(name: Option<string>, points: seq<GpxPoint>)

  datatype GpxData = GpxData(tracks: seq<Track>, routes: seq<Route>)

  /**
   * Great-circle distance in metres between (lat1, lon1) and (lat2, lon2). The haversine formula is not
   * modelled; the only property the model relies on is that a distance is never negative.
   */
  type DistanceFn = d: (real, real, real, real) -> real
    | forall lat1, lon1, lat2, lon2 :: d(lat1, lon1, lat2, lon2) >= 0.0
    witness (lat1: real, lon1: real, lat2: real, lon2: real) => 0.0

  /** Initial bearing (radians) from the first position to the second; left uninterpreted. */
  type BearingFn = (real, real, real, real) -> real

  /** Destination (lat, lon) reached from (lat, lon) along a bearing over a distance (m); left uninterpreted. */
  type DestinationFn = (real, real, real, real) -> (real, real)

  /** calculate_distance: the distance function applied to two points' positions. */
  function PointDistance(dist: DistanceFn, p: GpxPoint, q: GpxPoint): (r: real)
    ensures r >= 0.0
  {
    dist(p.lat, p.lon, q.lat, q.lon)
  }

  /** The three geodesy functions the scaler calls, bundled. */
  datatype Geo = Geo(distance: DistanceFn, bearing: BearingFn, destination: DestinationFn)

  /**
   * The hypothesis under which the walk reproduces leg lengths: travelling `d` metres from a position
   * (for any bearing) ends `d` metres away from it. Stated about the functions, never assumed.
   */
  ghost predicate Consistent(geo: Geo)
  {
    forall lat, lon, b, d :: d >= 0.0 ==>
      geo.distance(lat, lon, geo.destination(lat, lon, b, d).0, geo.destination(lat, lon, b, d).1) == d
  }

  /** The distances between consecutive points. */
  function Legs(dist: DistanceFn, points: seq<GpxPoint>): (legs: seq<real>)
    ensures |points| < 2 ==> legs == []
    ensures |points| >= 2 ==> |legs| == |points| - 1
    ensures forall i {:trigger legs[i]} :: 0 <= i < |legs| ==> legs[i] == PointDistance(dist, points[i], points[i + 1])
  {
    if |points| < 2 then [] else seq(|points| - 1, i requires 0 <= i < |points| - 1 => PointDistance(dist, points[i], points[i + 1]))
  }

  /** The length of a polyline: the sum of its legs. */
  function PathLength(dist: DistanceFn, points: seq<GpxPoint>): real
  {
    Sum(Legs(dist, points))
  }

  /** The segments of all tracks, in document order. */
  function AllSegments(tracks: seq<Track>): seq<seq<GpxPoint>>
  {
    if |tracks| == 0 then [] else AllSegments(tracks[..|tracks| - 1]) + tracks[|tracks| - 1].segments
  }

  lemma AllSegmentsSnoc(tracks: seq<Track>, t: Track)
    ensures AllSegments(tracks + [t]) == AllSegments(tracks) + t.segments
  {
    assert (tracks + [t])[..|tracks|] == tracks;
  }

  /**
   * The object that the scaler rewrites in place: its track list and route list are reassigned
   * by the operations that change the document.
   */
  class Gpx {
    var tracks: seq<Track>
    var routes: seq<Route>

    constructor (data: GpxData)
      ensures tracks == data.tracks && routes == data.routes
    {
      tracks := data.tracks;
      routes := data.routes;
    }

    function Data(): GpxData
      reads this
    {
      GpxData(tracks, routes)
    }
  }
}
