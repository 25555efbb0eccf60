/**
 The GeoJSON shapes the client hands to its map layers (RFC 7946). Only the
 parts the client fills in are modelled: a Feature of section 3.2 with a Point
 geometry and `type`/`description` properties, and the coordinate list of a
 LineString. A FeatureCollection of section 3.3 is a sequence of features.
 */
module GeoJson {
  import opened Wrappers

  /** A position, section 3.1.1 of RFC 7946: longitude, then latitude. It is never computed on. */
  datatype Position = Position(lon: real, lat: real)

  /** A Feature whose geometry is a Point at `coordinates`, with properties `type` and `description`. */
  datatype PointFeature = PointFeature(coordinates: Position, kind: string, description: string)

  /**
   The coordinates of a LineString (section 3.1.4). An entry is `None` where
   the client read an absent location and put `undefined` into the array.
   */
  datatype LineString = LineString(coordinates: seq<Option<Position>>)
}
