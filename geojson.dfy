/**
 * The GeoJSON document the converter writes (RFC 7946): a FeatureCollection
 * of Point features, plus a `last_updated` timestamp, and its rendering as a
 * JSON value. Every upstream value a feature carries is kept as the decoded
 * JSON value it was read from, so copying it cannot change it.
 */
module GeoJson {
  import opened Wrappers
  import opened Json

  /** Point geometry; coordinates are rendered as `[longitude, latitude]`. */
  datatype Point = Point(longitude: Json, latitude: Json)

  datatype Properties = Properties(
    station: Json,
    electrified: Json,
    docksTotal: Json,
    docksAvailable: Json,
    ebikesAvailable: Json,
    note: string)

  datatype Feature = Feature(id: Json, geometry: Point, properties: Properties)

  datatype FeatureCollection = FeatureCollection(features: seq<Feature>, lastUpdated: string)

  function PointToJson(p: Point): Json {
    JObj(map["type" := JStr("Point"), "coordinates" := JArr([p.longitude, p.latitude])])
  }

  /** The `properties` dict: the five copied values under their output keys, and the note as a string. */
  function PropertiesToJson(p: Properties): (j: Json)
    ensures j.JObj? && j.fields.Keys ==
              {"station", "electrified", "docks_total", "docks_available", "ebikes_available", "note"}
    ensures j.fields["station"] == p.station && j.fields["electrified"] == p.electrified
    ensures j.fields["docks_total"] == p.docksTotal && j.fields["docks_available"] == p.docksAvailable
    ensures j.fields["ebikes_available"] == p.ebikesAvailable && j.fields["note"] == JStr(p.note)
  {
    JObj(map[
      "station" := p.station,
      "electrified" := p.electrified,
      "docks_total" := p.docksTotal,
      "docks_available" := p.docksAvailable,
      "ebikes_available" := p.ebikesAvailable,
      "note" := JStr(p.note)])
  }

  /** The dict appended to `features` for one station. */
  function FeatureToJson(f: Feature): (j: Json)
    ensures j.JObj? && j.fields.Keys == {"id", "type", "geometry", "properties"}
    ensures j.fields["type"] == JStr("Feature") && j.fields["id"] == f.id
    ensures LookupPath(j, ["geometry", "type"]) == Success(JStr("Point"))
    ensures LookupPath(j, ["geometry", "coordinates"]) == Success(JArr([f.geometry.longitude, f.geometry.latitude]))
    ensures j.fields["properties"] == PropertiesToJson(f.properties)
  {
    JObj(map[
      "id" := f.id,
      "type" := JStr("Feature"),
      "geometry" := PointToJson(f.geometry),
      "properties" := PropertiesToJson(f.properties)])
  }

  function FeaturesToJson(fs: seq<Feature>): (js: seq<Json>)
    ensures |js| == |fs|
    ensures forall k :: 0 <= k < |fs| ==> js[k] == FeatureToJson(fs[k])
  {
    seq(|fs|, k requires 0 <= k < |fs| => FeatureToJson(fs[k]))
  }

  /** The whole document written to the output file. */
  function CollectionToJson(c: FeatureCollection): (j: Json)
    ensures j.JObj? && j.fields.Keys == {"type", "features", "last_updated"}
    ensures j.fields["type"] == JStr("FeatureCollection")
    ensures j.fields["last_updated"] == JStr(c.lastUpdated)
    ensures j.fields["features"].JArr? && |j.fields["features"].items| == |c.features|
    ensures forall k :: 0 <= k < |c.features| ==> j.fields["features"].items[k] == FeatureToJson(c.features[k])
  {
    JObj(map[
      "type" := JStr("FeatureCollection"),
      "features" := JArr(FeaturesToJson(c.features)),
      "last_updated" := JStr(c.lastUpdated)])
  }

  // Reading a rendered document back: the reference the rendering is checked against.

  function PointFromJson(j: Json): Option<Point> {
    match LookupPath(j, ["coordinates"])
    case Success(JArr(c)) => if |c| == 2 then Some(Point(c[0], c[1])) else None
    case _ => None
  }

  function PropertiesFromJson(j: Json): Option<Properties> {
    if !(HasPath(j, ["station"]) && HasPath(j, ["electrified"]) && HasPath(j, ["docks_total"])
         && HasPath(j, ["docks_available"]) && HasPath(j, ["ebikes_available"]))
    then None
    else match LookupPath(j, ["note"])
      case Success(JStr(note)) =>
        Some(Properties(
          LookupPath(j, ["station"]).value,
          LookupPath(j, ["electrified"]).value,
          LookupPath(j, ["docks_total"]).value,
          LookupPath(j, ["docks_available"]).value,
          LookupPath(j, ["ebikes_available"]).value,
          note))
      case _ => None
  }

  function FeatureFromJson(j: Json): Option<Feature> {
    match (LookupPath(j, ["id"]), LookupPath(j, ["geometry"]), LookupPath(j, ["properties"]))
    case (Success(id), Success(g), Success(p)) =>
      (match (PointFromJson(g), PropertiesFromJson(p))
       case (Some(point), Some(props)) => Some(Feature(id, point, props))
       case _ => None)
    case _ => None
  }

  function FeaturesFromJson(js: seq<Json>): Option<seq<Feature>> {
    if js == [] then Some([])
    else match (FeatureFromJson(js[0]), FeaturesFromJson(js[1..]))
      case (Some(f), Some(fs)) => Some([f] + fs)
      case _ => None
  }

  function CollectionFromJson(j: Json): Option<FeatureCollection> {
    match (LookupPath(j, ["features"]), LookupPath(j, ["last_updated"]))
    case (Success(JArr(items)), Success(JStr(ts))) =>
      (match FeaturesFromJson(items)
       case Some(fs) => Some(FeatureCollection(fs, ts))
       case None => None)
    case _ => None
  }

  /** A rendered feature reads back as the same feature: rendering loses no field. */
  lemma FeatureRoundTrip(f: Feature)
    ensures FeatureFromJson(FeatureToJson(f)) == Some(f)
  {
  }

  lemma {:induction false} FeaturesRoundTrip(fs: seq<Feature>)
    ensures FeaturesFromJson(FeaturesToJson(fs)) == Some(fs)
  {
    if fs != [] {
      var js := FeaturesToJson(fs);
      assert js[1..] == FeaturesToJson(fs[1..]);
      FeatureRoundTrip(fs[0]);
      FeaturesRoundTrip(fs[1..]);
      assert [fs[0]] + fs[1..] == fs;
    }
  }

  /** The written document reads back as the collection that was built. */
  lemma CollectionRoundTrip(c: FeatureCollection)
    ensures CollectionFromJson(CollectionToJson(c)) == Some(c)
  {
    FeaturesRoundTrip(c.features);
  }
}
