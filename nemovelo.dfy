/**
 * The station-to-GeoJSON conversion of nemovelo.py: take the `data` list of
 * the provider's response, keep the stations of the configured program, and
 * turn each into a GeoJSON Point feature with a derived French note.
 *
 * The functions state what the conversion computes; the methods at the end
 * do it the way the script does, record by record, and are proved to agree
 * with the functions.
 */
module Nemovelo {
  import opened Wrappers
  import opened Json
  import opened GeoJson

  const ElectricalLine: string := "Cette station est **raccordée** au réseau électrique."
  const FullStationLine: string :=
    "Le fait que la station soit pleine ne vous empêche pas d'y retourner votre vélo. Il suffit d'accrocher votre vélo à un déjà présent, en « caddie »."
  const NoteSeparator: string := "\r\n"

  // The nested fields read from an eligible station record.
  const ElectricalPath: Path := ["electrical"]
  const VaeDocksPath: Path := ["statistics", "docks", "type", "vae"]
  const DocksTotalPath: Path := VaeDocksPath + ["total"]
  const DocksFreePath: Path := VaeDocksPath + ["free"]
  const EbikesAvailablePath: Path := ["statistics", "vehicules", "available", "vae"]
  const IdPath: Path := ["id"]
  const LongitudePath: Path := ["position", "longitude"]
  const LatitudePath: Path := ["position", "latitude"]
  const NamePath: Path := ["name"]

  /** Every field an eligible record must have, in the order the script reads them. */
  predicate HasRequiredFields(rec: Json) {
    && HasPath(rec, ElectricalPath)
    && HasPath(rec, DocksTotalPath)
    && HasPath(rec, DocksFreePath)
    && HasPath(rec, EbikesAvailablePath)
    && HasPath(rec, IdPath)
    && HasPath(rec, LongitudePath)
    && HasPath(rec, LatitudePath)
    && HasPath(rec, NamePath)
  }

  /** `sep.join(lines)`: the lines in order with `sep` between neighbours and nowhere else. */
  function Join(lines: seq<string>, sep: string): (r: string)
    ensures lines == [] ==> r == []
    ensures |lines| == 1 ==> r == lines[0]
    ensures |lines| >= 2 ==> |r| >= |lines[0]| + |sep| && r[..|lines[0]| + |sep|] == lines[0] + sep
    ensures |lines| >= 1 ==> |r| >= |lines[|lines| - 1]| && r[|r| - |lines[|lines| - 1]|..] == lines[|lines| - 1]
  {
    if lines == [] then []
    else if |lines| == 1 then lines[0]
    else
      var head, rest, last := lines[0] + sep, Join(lines[1..], sep), lines[|lines| - 1];
      assert lines[1..][|lines[1..]| - 1] == last;
      assert (head + rest)[|head + rest| - |last|..] == rest[|rest| - |last|..];
      head + rest
  }

  /**
   * The note lines of a station, as a table of condition and line in the
   * fixed order: the electrical line when `electrical` is truthy, then the
   * full-station line when the free e-bike dock count is falsy.
   */
  function NoteLines(electrical: Json, freeDocks: Json): (lines: seq<string>)
    ensures |lines| == (if Truthy(electrical) then 1 else 0) + (if Truthy(freeDocks) then 0 else 1)
    ensures forall k :: 0 <= k < |lines| ==> lines[k] == ElectricalLine || lines[k] == FullStationLine
  {
    (if Truthy(electrical) then [ElectricalLine] else [])
    + (if !Truthy(freeDocks) then [FullStationLine] else [])
  }

  /** The `note` property: starts with the electrical line when it applies, ends with the full-station line when it applies. */
  function Note(electrical: Json, freeDocks: Json): (note: string)
    ensures Truthy(electrical) ==>
              |note| >= |ElectricalLine| && note[..|ElectricalLine|] == ElectricalLine
    ensures !Truthy(freeDocks) ==>
              |note| >= |FullStationLine| && note[|note| - |FullStationLine|..] == FullStationLine
    ensures !Truthy(electrical) && Truthy(freeDocks) ==> note == ""
  {
    Join(NoteLines(electrical, freeDocks), NoteSeparator)
  }

  /**
   * The two filter tests of the loop: `program` must equal the configured
   * program, and only then is `object` read and compared with "station".
   * A missing key or a record that is not a dict raises and fails the run.
   */
  function Screen(rec: Json, program: string): (r: Result<bool, Error>)
    ensures r == Success(true) <==> Lookup(rec, "program") == Success(JStr(program))
                                    && Lookup(rec, "object") == Success(JStr("station"))
    ensures (Lookup(rec, "program").Success? && Lookup(rec, "program") != Success(JStr(program)))
            ==> r == Success(false)
    ensures r.Failure? <==> !Lookup(rec, "program").Success?
                            || (Lookup(rec, "program") == Success(JStr(program)) && !Lookup(rec, "object").Success?)
  {
    var p :- Lookup(rec, "program");
    if p != JStr(program) then Success(false)
    else
      var o :- Lookup(rec, "object");
      Success(o == JStr("station"))
  }

  predicate Eligible(rec: Json, program: string) {
    Screen(rec, program) == Success(true)
  }

  /** The feature built from an eligible record (the body of the loop after the filter). */
  function Extract(rec: Json): (r: Result<Feature, Error>)
    ensures r.Success? <==> HasRequiredFields(rec)
    ensures r.Success? ==>
      && LookupPath(rec, IdPath) == Success(r.value.id)
      && LookupPath(rec, LongitudePath) == Success(r.value.geometry.longitude)
      && LookupPath(rec, LatitudePath) == Success(r.value.geometry.latitude)
      && LookupPath(rec, NamePath) == Success(r.value.properties.station)
      && LookupPath(rec, ElectricalPath) == Success(r.value.properties.electrified)
      && LookupPath(rec, DocksTotalPath) == Success(r.value.properties.docksTotal)
      && LookupPath(rec, DocksFreePath) == Success(r.value.properties.docksAvailable)
      && LookupPath(rec, EbikesAvailablePath) == Success(r.value.properties.ebikesAvailable)
      && r.value.properties.note == Note(r.value.properties.electrified, r.value.properties.docksAvailable)
  {
    var electrical :- LookupPath(rec, ElectricalPath);
    var total :- LookupPath(rec, DocksTotalPath);
    var free :- LookupPath(rec, DocksFreePath);
    var available :- LookupPath(rec, EbikesAvailablePath);
    var id :- LookupPath(rec, IdPath);
    var longitude :- LookupPath(rec, LongitudePath);
    var latitude :- LookupPath(rec, LatitudePath);
    var name :- LookupPath(rec, NamePath);
    Success(Feature(id, Point(longitude, latitude),
                    Properties(name, electrical, total, free, available, Note(electrical, free))))
  }

  /** One iteration of the loop: no feature for a filtered-out record, else its feature. */
  function StationFeature(rec: Json, program: string): (r: Result<Option<Feature>, Error>)
    ensures r == Success(None) <==> Screen(rec, program) == Success(false)
    ensures r.Success? && r.value.Some? <==> Eligible(rec, program) && HasRequiredFields(rec)
    ensures r.Success? && r.value.Some? ==> Extract(rec) == Success(r.value.value)
    ensures r.Failure? <==> Screen(rec, program).Failure? || (Eligible(rec, program) && !HasRequiredFields(rec))
  {
    var keep :- Screen(rec, program);
    if !keep then Success(None)
    else
      var f :- Extract(rec);
      Success(Some(f))
  }

  function OptionToSeq<T>(o: Option<T>): seq<T> {
    match o
    case None => []
    case Some(x) => [x]
  }

  /** The whole loop: the features of the records in order, or the first error raised. */
  function ConvertAll(records: seq<Json>, program: string): (r: Result<seq<Feature>, Error>)
    ensures r.Success? ==> |r.value| == |Kept(records, program)|
  {
    if records == [] then Success([])
    else
      var head :- StationFeature(records[0], program);
      var tail :- ConvertAll(records[1..], program);
      Success(OptionToSeq(head) + tail)
  }

  /** The eligible records, in input order. */
  function Kept(records: seq<Json>, program: string): (kept: seq<Json>)
    ensures |kept| <= |records|
    ensures forall k :: 0 <= k < |kept| ==> Eligible(kept[k], program)
  {
    if records == [] then []
    else (if Eligible(records[0], program) then [records[0]] else []) + Kept(records[1..], program)
  }

  /** `r.json()['data']` with its handler: a missing key is reported as an invalid response. */
  function DataOf(response: Json): (r: Result<Json, Error>)
    ensures r.Success? <==> response.JObj? && "data" in response.fields
    ensures r.Success? ==> r.value == response.fields["data"]
    ensures response.JObj? && "data" !in response.fields ==> r == Failure(InvalidResponse)
    ensures !response.JObj? ==> r == Failure(TypeError)
  {
    match Lookup(response, "data")
    case Success(data) => Success(data)
    case Failure(KeyError(_)) => Failure(InvalidResponse)
    case Failure(e) => Failure(e)
  }

  /** The document the script writes, or the error that makes it exit before writing. */
  function Run(response: Json, program: string, lastUpdated: string): (r: Result<FeatureCollection, Error>)
    ensures r.Success? ==> response.JObj? && "data" in response.fields && r.value.lastUpdated == lastUpdated
    ensures r.Success? ==>
              && Elements(response.fields["data"]).Success?
              && |r.value.features| == |Kept(Elements(response.fields["data"]).value, program)|
  {
    var data :- DataOf(response);
    var records :- Elements(data);
    var features :- ConvertAll(records, program);
    Success(FeatureCollection(features, lastUpdated))
  }

  /** `done` followed by the outcome of the remaining iterations. */
  function Prepend(done: seq<Feature>, rest: Result<seq<Feature>, Error>): Result<seq<Feature>, Error>
  {
    match rest
    case Success(fs) => Success(done + fs)
    case Failure(e) => Failure(e)
  }

  /** One loop iteration, step by step as the script does it. */
  method ConvertRecord(rec: Json, program: string) returns (r: Result<Option<Feature>, Error>)
    ensures r == StationFeature(rec, program)
  {
    var recProgram :- Lookup(rec, "program");
    if recProgram != JStr(program) {
      return Success(None);
    }
    var kind :- Lookup(rec, "object");
    if kind != JStr("station") {
      return Success(None);
    }

    var notes: seq<string> := [];
    assert LookupPath(rec, ElectricalPath) == Lookup(rec, "electrical");
    var electrical :- Lookup(rec, "electrical");
    if Truthy(electrical) {
      notes := notes + [ElectricalLine];
    }
    LookupPathAppend(rec, VaeDocksPath, "total");
    LookupPathAppend(rec, VaeDocksPath, "free");
    var vaeDocks :- LookupPath(rec, VaeDocksPath);
    var total :- Lookup(vaeDocks, "total");
    var free :- Lookup(vaeDocks, "free");
    var available :- LookupPath(rec, EbikesAvailablePath);
    if !Truthy(free) {
      notes := notes + [FullStationLine];
    }
    assert notes == NoteLines(electrical, free);

    assert LookupPath(rec, IdPath) == Lookup(rec, "id");
    assert LookupPath(rec, NamePath) == Lookup(rec, "name");
    var id :- Lookup(rec, "id");
    var longitude :- LookupPath(rec, LongitudePath);
    var latitude :- LookupPath(rec, LatitudePath);
    var name :- Lookup(rec, "name");
    r := Success(Some(Feature(id, Point(longitude, latitude),
                              Properties(name, electrical, total, free, available, Join(notes, NoteSeparator)))));
  }

  /**
   * The script from the `data` lookup to the end of the loop: the collection
   * skeleton, then one appended feature per eligible record. The timestamp is
   * given; the result is what would be written, or the error that stops the
   * script before it writes anything.
   */
  method Transform(response: Json, program: string, lastUpdated: string)
    returns (r: Result<FeatureCollection, Error>)
    ensures r == Run(response, program, lastUpdated)
  {
    var data :- DataOf(response);
    var records :- Elements(data);
    var features: seq<Feature> := [];
    var i := 0;
    assert records[i..] == records;
    assert Prepend([], ConvertAll(records, program)) == ConvertAll(records, program) by {
      match ConvertAll(records, program)
      case Success(fs) => assert [] + fs == fs;
      case Failure(_) =>
    }
    while i < |records|
      invariant 0 <= i <= |records|
      invariant ConvertAll(records, program) == Prepend(features, ConvertAll(records[i..], program))
    {
      assert records[i..][0] == records[i] && records[i..][1..] == records[i + 1..];
      assert StationFeature(records[i], program).Failure? ==>
        ConvertAll(records[i..], program) == Failure(StationFeature(records[i], program).error);
      var station :- ConvertRecord(records[i], program);
      ghost var rest := ConvertAll(records[i + 1..], program);
      assert ConvertAll(records[i..], program) == Prepend(OptionToSeq(station), rest);
      ghost var before := features;
      features := features + OptionToSeq(station);
      assert Prepend(before, Prepend(OptionToSeq(station), rest)) == Prepend(features, rest) by {
        match rest
        case Success(fs) => assert before + (OptionToSeq(station) + fs) == features + fs;
        case Failure(_) =>
      }
      i := i + 1;
    }
    assert records[i..] == [] && features + [] == features;
    assert ConvertAll(records, program) == Success(features);
    r := Success(FeatureCollection(features, lastUpdated));
  }
}
