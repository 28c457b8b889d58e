/**
 * What the conversion promises, proved about the functions of module
 * Nemovelo: the filter, order and count of the features, the copied fields,
 * the note's truth table, and that one bad record fails the whole run.
 */
module NemoveloProperties {
  import opened Wrappers
  import opened Json
  import opened GeoJson
  import opened Nemovelo

  // ---- The note ----

  /** Each line appears exactly when its condition holds, electrical line first. */
  lemma NoteLinesTable(electrical: Json, freeDocks: Json)
    ensures ElectricalLine in NoteLines(electrical, freeDocks) <==> Truthy(electrical)
    ensures FullStationLine in NoteLines(electrical, freeDocks) <==> !Truthy(freeDocks)
    ensures |NoteLines(electrical, freeDocks)| <= 2
    ensures Truthy(electrical) && !Truthy(freeDocks) ==>
              NoteLines(electrical, freeDocks) == [ElectricalLine, FullStationLine]
  {
  }

  /** The four cases of the joined note; one line has no trailing separator. */
  lemma NoteCases(electrical: Json, freeDocks: Json)
    ensures Truthy(electrical) && Truthy(freeDocks) ==> Note(electrical, freeDocks) == ElectricalLine
    ensures !Truthy(electrical) && !Truthy(freeDocks) ==> Note(electrical, freeDocks) == FullStationLine
    ensures Truthy(electrical) && !Truthy(freeDocks) ==>
              Note(electrical, freeDocks) == ElectricalLine + "\r\n" + FullStationLine
    ensures !Truthy(electrical) && Truthy(freeDocks) ==> Note(electrical, freeDocks) == ""
  {
    assert Join([ElectricalLine, FullStationLine], NoteSeparator)
        == ElectricalLine + NoteSeparator + Join([FullStationLine], NoteSeparator);
  }

  /** The note is empty exactly when no line applies. */
  lemma NoteEmptyIff(electrical: Json, freeDocks: Json)
    ensures Note(electrical, freeDocks) == "" <==> !Truthy(electrical) && Truthy(freeDocks)
  {
  }

  /** The notes of the four documented stations: a boolean flag and an integer dock count. */
  lemma NoteScenarios()
    ensures Note(JBool(true), JNum(3.0)) == ElectricalLine
    ensures Note(JBool(false), JNum(0.0)) == FullStationLine
    ensures Note(JBool(true), JNum(0.0)) == ElectricalLine + "\r\n" + FullStationLine
    ensures Note(JBool(false), JNum(5.0)) == ""
  {
    assert Truthy(JBool(true)) && !Truthy(JBool(false));
    assert Truthy(JNum(3.0)) && Truthy(JNum(5.0)) && !Truthy(JNum(0.0));
    NoteCases(JBool(true), JNum(3.0));
    NoteCases(JBool(false), JNum(0.0));
    NoteCases(JBool(true), JNum(0.0));
    NoteCases(JBool(false), JNum(5.0));
  }

  // ---- The filter, one record at a time ----

  /**
   * A record of another program yields no feature, whatever else it holds:
   * its `object` key is never read, so removing it changes nothing.
   */
  lemma OtherProgramSkipped(rec: Json, program: string)
    requires Lookup(rec, "program").Success? && Lookup(rec, "program") != Success(JStr(program))
    ensures StationFeature(rec, program) == Success(None)
    ensures StationFeature(JObj(rec.fields - {"object"}), program) == Success(None)
  {
  }

  /** A record of the program whose `object` is not "station" yields no feature, whatever else it holds. */
  lemma NonStationSkipped(rec: Json, program: string)
    requires Lookup(rec, "program") == Success(JStr(program))
    requires Lookup(rec, "object").Success? && Lookup(rec, "object") != Success(JStr("station"))
    ensures StationFeature(rec, program) == Success(None)
  {
  }

  /** An eligible record yields exactly its extracted feature, or fails with the extraction. */
  lemma EligibleConverted(rec: Json, program: string)
    requires Eligible(rec, program)
    ensures StationFeature(rec, program).Success? <==> HasRequiredFields(rec)
    ensures HasRequiredFields(rec) ==> StationFeature(rec, program) == Success(Some(Extract(rec).value))
  {
  }

  // ---- The filter over the whole list ----

  /** Every record is in the list and eligible iff it is kept. */
  lemma {:induction false} KeptMembers(records: seq<Json>, program: string)
    ensures forall x :: x in Kept(records, program) <==> x in records && Eligible(x, program)
  {
    if records != [] {
      KeptMembers(records[1..], program);
      assert records == [records[0]] + records[1..];
    }
  }

  /** Filtering a concatenation filters each part, in the same order. */
  lemma {:induction false} KeptAppend(a: seq<Json>, b: seq<Json>, program: string)
    ensures Kept(a + b, program) == Kept(a, program) + Kept(b, program)
  {
    if a == [] {
      assert a + b == b;
    } else {
      assert (a + b)[0] == a[0] && (a + b)[1..] == a[1..] + b;
      KeptAppend(a[1..], b, program);
    }
  }

  /** Filtering twice is filtering once. */
  lemma {:induction false} KeptIdempotent(records: seq<Json>, program: string)
    ensures Kept(Kept(records, program), program) == Kept(records, program)
  {
    if records != [] {
      var head := if Eligible(records[0], program) then [records[0]] else [];
      KeptAppend(head, Kept(records[1..], program), program);
      KeptIdempotent(records[1..], program);
      if Eligible(records[0], program) {
        assert Kept(head, program) == [records[0]] + Kept([], program);
      }
    }
  }

  // ---- The loop ----

  predicate AllScreened(records: seq<Json>, program: string) {
    forall i :: 0 <= i < |records| ==> Screen(records[i], program).Success?
  }

  predicate AllExtractable(kept: seq<Json>) {
    forall k :: 0 <= k < |kept| ==> HasRequiredFields(kept[k])
  }

  lemma AllScreenedCons(records: seq<Json>, program: string)
    requires records != []
    ensures AllScreened(records, program) <==>
              Screen(records[0], program).Success? && AllScreened(records[1..], program)
  {
    if Screen(records[0], program).Success? && AllScreened(records[1..], program) {
      forall i | 0 <= i < |records| ensures Screen(records[i], program).Success? {
        if i > 0 { assert records[i] == records[1..][i - 1]; }
      }
    }
    if AllScreened(records, program) {
      forall i | 0 <= i < |records[1..]| ensures Screen(records[1..][i], program).Success? {
        assert records[1..][i] == records[i + 1];
      }
    }
  }

  lemma AllExtractableCons(rec: Json, rest: seq<Json>)
    ensures AllExtractable([rec] + rest) <==> HasRequiredFields(rec) && AllExtractable(rest)
  {
    var kept := [rec] + rest;
    if AllExtractable(kept) {
      assert HasRequiredFields(kept[0]);
      forall k | 0 <= k < |rest| ensures HasRequiredFields(rest[k]) {
        assert rest[k] == kept[k + 1];
      }
    }
  }

  lemma {:induction false} ConvertAllSucceeds(records: seq<Json>, program: string)
    ensures ConvertAll(records, program).Success? <==>
              AllScreened(records, program) && AllExtractable(Kept(records, program))
  {
    if records != [] {
      var rec, rest := records[0], records[1..];
      ConvertAllSucceeds(rest, program);
      AllScreenedCons(records, program);
      assert ConvertAll(records, program).Success? <==>
               StationFeature(rec, program).Success? && ConvertAll(rest, program).Success?;
      if Eligible(rec, program) {
        assert Kept(records, program) == [rec] + Kept(rest, program);
        AllExtractableCons(rec, Kept(rest, program));
      } else {
        assert Kept(records, program) == [] + Kept(rest, program) == Kept(rest, program);
      }
    }
  }

  /** `features` holds, index by index, the features extracted from `kept`. */
  predicate ExtractedFrom(features: seq<Feature>, kept: seq<Json>) {
    |features| == |kept| && forall k :: 0 <= k < |kept| ==> Extract(kept[k]) == Success(features[k])
  }

  /** Prepending one related pair keeps two lists related index by index. */
  lemma PairwiseCons<A, B, E>(g: A -> Result<B, E>, x: A, y: B, xs: seq<A>, ys: seq<B>)
    requires g(x) == Success(y) && |xs| == |ys|
    requires forall k :: 0 <= k < |xs| ==> g(xs[k]) == Success(ys[k])
    ensures forall k :: 0 <= k < |xs| + 1 ==> g(([x] + xs)[k]) == Success(([y] + ys)[k])
  {
    forall k | 0 <= k < |xs| + 1 ensures g(([x] + xs)[k]) == Success(([y] + ys)[k]) {
      if k > 0 { assert ([x] + xs)[k] == xs[k - 1] && ([y] + ys)[k] == ys[k - 1]; }
    }
  }

  lemma ExtractedFromCons(f: Feature, features: seq<Feature>, rec: Json, kept: seq<Json>)
    requires Extract(rec) == Success(f) && ExtractedFrom(features, kept)
    ensures ExtractedFrom([f] + features, [rec] + kept)
  {
    PairwiseCons(Extract, rec, f, kept, features);
  }

  lemma {:induction false} ConvertAllFeatures(records: seq<Json>, program: string)
    ensures ConvertAll(records, program).Success? ==>
              ExtractedFrom(ConvertAll(records, program).value, Kept(records, program))
  {
    if records != [] && ConvertAll(records, program).Success? {
      var rec, rest := records[0], records[1..];
      ConvertAllFeatures(rest, program);
      var restKept := Kept(rest, program);
      var features, restFeatures := ConvertAll(records, program).value, ConvertAll(rest, program).value;
      var head := StationFeature(rec, program).value;
      assert features == OptionToSeq(head) + restFeatures;
      if Eligible(rec, program) {
        assert Kept(records, program) == [rec] + restKept;
        ExtractedFromCons(head.value, restFeatures, rec, restKept);
      } else {
        assert Kept(records, program) == [] + restKept == restKept;
        assert features == [] + restFeatures == restFeatures;
      }
    }
  }

  /**
   * The loop succeeds iff every record passes the filter tests without
   * raising and every eligible record has all its fields; it then yields one
   * feature per eligible record, in input order, each extracted from that record.
   */
  lemma ConvertAllCharacterized(records: seq<Json>, program: string)
    ensures ConvertAll(records, program).Success? <==>
              AllScreened(records, program) && AllExtractable(Kept(records, program))
    ensures ConvertAll(records, program).Success? ==>
              var features := ConvertAll(records, program).value;
              var kept := Kept(records, program);
              |features| == |kept| &&
              forall k :: 0 <= k < |kept| ==> Extract(kept[k]) == Success(features[k])
  {
    ConvertAllSucceeds(records, program);
    ConvertAllFeatures(records, program);
  }

  /** A record the filter drops contributes nothing: the run is as if it were absent. */
  lemma {:induction false} DroppedRecordContributesNothing(a: seq<Json>, rec: Json, b: seq<Json>, program: string)
    requires Screen(rec, program) == Success(false)
    ensures ConvertAll(a + [rec] + b, program) == ConvertAll(a + b, program)
  {
    if a == [] {
      assert a + [rec] + b == [rec] + b && ([rec] + b)[1..] == b && a + b == b;
      match ConvertAll(b, program)
      case Success(fs) => assert [] + fs == fs;
      case Failure(_) =>
    } else {
      assert (a + [rec] + b)[0] == a[0] && (a + [rec] + b)[1..] == a[1..] + [rec] + b;
      assert (a + b)[0] == a[0] && (a + b)[1..] == a[1..] + b;
      DroppedRecordContributesNothing(a[1..], rec, b, program);
    }
  }

  /** An eligible record lacking any required field fails the whole loop, wherever it stands. */
  lemma {:induction false} IncompleteStationFailsLoop(records: seq<Json>, i: nat, program: string)
    requires i < |records| && Eligible(records[i], program) && !HasRequiredFields(records[i])
    ensures ConvertAll(records, program).Failure?
  {
    if i > 0 {
      IncompleteStationFailsLoop(records[1..], i - 1, program);
    }
  }

  // ---- The whole run ----

  /** An empty `data` list gives an empty FeatureCollection stamped with the given time. */
  lemma EmptyDataEmptyCollection(response: Json, program: string, lastUpdated: string)
    requires DataOf(response) == Success(JArr([]))
    ensures Run(response, program, lastUpdated) == Success(FeatureCollection([], lastUpdated))
    ensures var doc := CollectionToJson(FeatureCollection([], lastUpdated));
            doc.fields["type"] == JStr("FeatureCollection") && doc.fields["features"] == JArr([])
  {
  }

  /** A response without a `data` key is reported as an invalid response and nothing is written. */
  lemma MissingDataFails(response: Json, program: string, lastUpdated: string)
    requires response.JObj? && "data" !in response.fields
    ensures Run(response, program, lastUpdated) == Failure(InvalidResponse)
  {
  }

  /**
   * A successful run writes one feature per eligible record of `data`, in
   * input order; each carries the record's id, `[longitude, latitude]` from
   * `position` unswapped, and the other properties copied unmodified.
   */
  lemma RunFeatures(records: seq<Json>, response: Json, program: string, lastUpdated: string)
    requires DataOf(response) == Success(JArr(records))
    requires Run(response, program, lastUpdated).Success?
    ensures var c := Run(response, program, lastUpdated).value;
            var kept := Kept(records, program);
            && c.lastUpdated == lastUpdated
            && |c.features| == |kept|
            && forall k :: 0 <= k < |kept| ==>
                 && LookupPath(kept[k], IdPath) == Success(c.features[k].id)
                 && LookupPath(kept[k], LongitudePath) == Success(c.features[k].geometry.longitude)
                 && LookupPath(kept[k], LatitudePath) == Success(c.features[k].geometry.latitude)
                 && LookupPath(kept[k], NamePath) == Success(c.features[k].properties.station)
                 && LookupPath(kept[k], ElectricalPath) == Success(c.features[k].properties.electrified)
                 && LookupPath(kept[k], DocksTotalPath) == Success(c.features[k].properties.docksTotal)
                 && LookupPath(kept[k], DocksFreePath) == Success(c.features[k].properties.docksAvailable)
                 && LookupPath(kept[k], EbikesAvailablePath) == Success(c.features[k].properties.ebikesAvailable)
  {
    ConvertAllCharacterized(records, program);
  }

  /** One eligible record lacking a field fails the run: nothing is written. */
  lemma IncompleteStationFailsRun(records: seq<Json>, i: nat, response: Json, program: string, lastUpdated: string)
    requires DataOf(response) == Success(JArr(records))
    requires i < |records| && Eligible(records[i], program) && !HasRequiredFields(records[i])
    ensures Run(response, program, lastUpdated).Failure?
  {
    IncompleteStationFailsLoop(records, i, program);
  }
}
