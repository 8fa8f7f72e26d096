/** The station loader: the bundled dataset's features become map markers. */
module Stations {

  /** A GeoJSON position, [longitude, latitude, ...]; a bundled feature always has both. */
  type Coordinates = c: seq<real> | |c| >= 2 witness [0.0, 0.0]

  /** One dataset feature: its `geometry.coordinates` and its `properties.STATION_NAME`. */
  datatype Feature = Feature(coordinates: Coordinates, stationName: string)

  /** A station marker as the map draws it. */
  datatype Marker = Marker(latitude: real, longitude: real, title: string, description: string, color: string)

  const StationDescription: string := "EMS Station"
  const StationColor: string := "#0D7AAF"

  /** The marker `m` is the one the loader draws for feature `f`: the position swapped
      from GeoJSON's [lon, lat] order, the station's name as title, fixed label and color. */
  predicate MarksFeature(m: Marker, f: Feature) {
    && m.latitude == f.coordinates[1]
    && m.longitude == f.coordinates[0]
    && m.title == f.stationName
    && m.description == StationDescription
    && m.color == StationColor
  }

  function ToMarker(f: Feature): Marker {
    Marker(f.coordinates[1], f.coordinates[0], f.stationName, StationDescription, StationColor)
  }

  /** `emsStations.features.map(...)`: one marker per feature, in the features' order. */
  function StationMarkers(fs: seq<Feature>): (ms: seq<Marker>)
    ensures |ms| == |fs|
    ensures forall i :: 0 <= i < |fs| ==> MarksFeature(ms[i], fs[i])
  {
    if fs == [] then [] else [ToMarker(fs[0])] + StationMarkers(fs[1..])
  }

  /** The per-feature description determines the marker list: any list that marks
      each feature at its own index is the loader's list. */
  lemma StationMarkersUnique(fs: seq<Feature>, ms: seq<Marker>)
    requires |ms| == |fs|
    requires forall i :: 0 <= i < |fs| ==> MarksFeature(ms[i], fs[i])
    ensures ms == StationMarkers(fs)
  {
  }
}
