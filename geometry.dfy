/**
 * GeoJSON shapes and the foreign geometry calls. turf's `bbox`, `difference` and `area`
 * and `osmtogeojson` are floating-point geodesy outside the model: they are fields of
 * `Libraries`, functions the model is given and assumes nothing about.
 */
module Geometry {
  import opened Wrappers
  import opened Json

  /** A GeoJSON position `[longitude, latitude]`. */
  datatype Position = Position(lng: real, lat: real)

  /** A linear ring of positions. */
  type Ring = seq<Position>

  /**
   * A GeoJSON geometry: its `type` string and its coordinates, kept as a list of
   * polygons, each a list of rings (how a Point or a LineString nests them is not modelled).
   */
  datatype Geometry = Geometry(kind: string, coordinates: seq<seq<Ring>>)

  /** A GeoJSON Feature: its `properties` value and its geometry. */
  datatype Feature = Feature(properties: Json, geometry: Geometry)

  /** `turf.bbox`'s result `[minX, minY, maxX, maxY]`, that is `[west, south, east, north]`. */
  type BBox = b: seq<real> | |b| == 4 witness [0.0, 0.0, 0.0, 0.0]

  /** What one `turf.difference(a, b)` call does: a feature, `null`, or an exception. */
  datatype DiffOutcome = Region(feature: Feature) | NoRegion | Threw

  /** The foreign calls the estimate makes. */
  datatype Libraries = Libraries(
    bbox: Feature -> BBox,
    difference: (Feature, Feature) -> DiffOutcome,
    area: Feature -> real,
    osmToGeoJson: Json -> seq<Feature>)

  /** `turf.polygon([ring])`: a single-ring Polygon feature with empty properties. */
  function PolygonFeature(ring: Ring): (f: Feature)
    ensures f.geometry.kind == "Polygon" && f.geometry.coordinates == [[ring]]
  {
    Feature(JObj(map[]), Geometry("Polygon", [[ring]]))
  }

  /**
   * `turf.polygon` validates its ring: it throws unless the ring has at least four
   * positions and its first position equals its last.
   */
  function MakePolygon(ring: Ring): (r: Option<Feature>)
    ensures r.Some? <==> |ring| >= 4 && ring[0] == ring[|ring| - 1]
    ensures r.Some? ==> r.value == PolygonFeature(ring)
  {
    if |ring| >= 4 && ring[0] == ring[|ring| - 1] then Some(PolygonFeature(ring)) else None
  }
}
