# nemovelo stations map: the station-to-GeoJSON conversion

`nemovelo.py` fetches the stations of one Ecovelo bike-share program and
writes them as a GeoJSON FeatureCollection (RFC 7946) for a web map. This
project models the conversion at the heart of the script:

- the `data` lookup on the decoded response, with its error exit;
- the FeatureCollection skeleton (`type`, `features`, `last_updated`);
- the loop over `data`, which:
  - keeps only records whose `program` is the configured program and whose `object` is `"station"`;
  - reads the nested fields of each kept record;
  - derives the French note;
  - appends one Point feature per kept record.

The model has five modules:

- `Wrappers` (wrappers.dfy): `Option` and `Result`.
- `Json` (json.dfy): the decoded JSON value and the Python behaviour the script relies on:
  - `d[k]` raises KeyError on a dict without `k`, and TypeError on anything else;
  - truthiness;
  - what a `for` loop over a value visits.
- `GeoJson` (geojson.dfy): the output features and collection, their rendering as JSON, and reading the rendering back.
- `Nemovelo` (nemovelo.dfy): the conversion as functions (`Screen`, `Extract`, `StationFeature`, `ConvertAll`, `Run`) and as methods that work record by record like the script (`ConvertRecord`, `Transform`). Each method is proved equal to its function.
- `NemoveloProperties` (properties.dfy): the properties of the conversion, proved about those functions.

Details of the code that the model keeps:

- The record key tested against `"station"` is `object`.
- Both note conditions use Python truthiness, not a boolean test and a comparison with zero:
  - `if electrical:`;
  - `if not free_eb_docks:`.
- Some missing keys fail the whole run even though the filter would drop the record:
  - a record without `program`;
  - a record of the configured program without `object`.
  The subscripts at lines 81 and 84 raise an uncaught KeyError.
- An exception raised anywhere in the loop ends the script before the file is written. The model returns the first error raised, and no collection.

## Model

| member | source | states |
|---|---|---|
| Json.Lookup | nemovelo.py:81-118 | Every `d[k]` subscript of the script: succeeds iff `d` is a dict holding `k`, with its value. A dict without `k` raises KeyError(k); any other value raises TypeError |
| Json.Truthy | nemovelo.py:89-102 | Python's truth test as used by `if electrical:` and `if not free_eb_docks:`. A value is falsy exactly when it is null, false, zero, an empty string, an empty list or an empty dict |
| Json.LookupPathAppend | nemovelo.py:93-97 | Reading `vae` once and then subscripting `total`/`free` is the same as looking up the full path, including which error is raised |
| Json.Elements | nemovelo.py:80 | The loop visits a list's items in order. An empty dict or string gives no iteration. Any other value fails with TypeError |
| Nemovelo.DataOf | nemovelo.py:41-45 | Succeeds with `response["data"]` exactly when the response is a dict with `data`. A missing key is the caught "invalid response" error. A non-dict response raises TypeError |
| Nemovelo.Join | nemovelo.py:123 | `"\r\n".join(notes)`: no lines give "", and one line gives that line with no separator. With two or more lines, the result starts with the first line followed by the separator, and it always ends with the last line |
| Nemovelo.NoteLines | nemovelo.py:87-105 | The note lines: one line per condition that holds (truthy `electrical`, falsy free dock count), each line one of the two fixed French texts |
| Nemovelo.Note | nemovelo.py:87-123 | The `note` property starts with the electrical line when `electrical` is truthy and ends with the full-station line when the free dock count is falsy. It is "" when neither applies |
| Nemovelo.Screen | nemovelo.py:81-85 | A record is kept iff `program` equals the configured program and `object` equals "station". A program mismatch drops the record without reading `object`. It fails exactly when a subscript it performs raises |
| Nemovelo.Extract | nemovelo.py:87-125 | Succeeds iff all eight required paths exist. Id, coordinates, name, electrical flag and the three counts are the values at their paths, unmodified. The note is the note of the record's electrical flag and free dock count |
| Nemovelo.StationFeature | nemovelo.py:81-125 | One iteration yields no feature iff the filter drops the record. It yields a feature iff the record is eligible and has every required field, and that feature is the record's extraction. It fails iff a filter subscript raises or an eligible record lacks a field |
| Nemovelo.Kept | nemovelo.py:80-85 | The records that pass the filter: no more than `data` holds, and each one eligible |
| Nemovelo.ConvertAll | nemovelo.py:80-125 | The whole loop; when it succeeds it yields exactly as many features as there are eligible records |
| Nemovelo.Run | nemovelo.py:41-128 | The run from the `data` lookup to the end of the loop. On success the response was a dict with a list-like `data`, the timestamp is the given one, and there is one feature per eligible record |
| Nemovelo.ConvertRecord | nemovelo.py:81-125 | One loop iteration, with the note built by conditional appends, equals the record-level function `StationFeature` |
| Nemovelo.Transform | nemovelo.py:75-125 | The loop appends each record's feature to the collection in order and stops at the first exception. Its result equals `Run`: the collection with the given timestamp, or the first error |
| GeoJson.PropertiesToJson | nemovelo.py:117-124 | The `properties` dict has exactly the keys station, electrified, docks_total, docks_available, ebikes_available and note. Each holds the feature's value unmodified, and note holds the note string |
| GeoJson.FeatureToJson | nemovelo.py:107-125 | A feature renders as a dict with keys id, type, geometry and properties. `type` is "Feature", geometry type is "Point", coordinates are `[longitude, latitude]`, and properties is the rendered properties dict |
| GeoJson.FeaturesToJson | nemovelo.py:107 | The appended list: one rendered feature per feature, in the same order |
| GeoJson.CollectionToJson | nemovelo.py:75-79 | The document has keys type, features and last_updated. `type` is "FeatureCollection" and last_updated is the timestamp. `features` is a list whose k-th item is the rendering of the k-th feature |
| GeoJson.FeaturesRoundTrip | nemovelo.py:107-125 | A rendered feature list reads back as the same features, in the same order |
| GeoJson.CollectionRoundTrip | nemovelo.py:75-125 | The written document reads back as the collection that was built: rendering loses no field |
| NemoveloProperties.NoteLinesTable | nemovelo.py:87-105 | The electrical line is present iff `electrical` is truthy. The full-station line is present iff the free dock count is falsy. There are at most two lines, and the electrical line comes first |
| NemoveloProperties.NoteCases | nemovelo.py:88-123 | The four cases of the joined note: one line without a trailing CRLF, both lines joined by CRLF with the electrical line first, or the empty string |
| NemoveloProperties.NoteEmptyIff | nemovelo.py:123 | The note is "" exactly when neither condition holds |
| NemoveloProperties.NoteScenarios | nemovelo.py:88-123 | The notes of the four documented stations (electrical true/false, free docks 3, 0, 0 and 5) |
| NemoveloProperties.OtherProgramSkipped | nemovelo.py:81-82 | A record of another program yields no feature, whatever its other fields. Removing its `object` key changes nothing |
| NemoveloProperties.NonStationSkipped | nemovelo.py:84-85 | A record of the program whose `object` is not "station" yields no feature, whatever its other fields |
| NemoveloProperties.EligibleConverted | nemovelo.py:87-125 | An eligible record yields its extracted feature iff it has every required field, and fails otherwise |
| NemoveloProperties.KeptMembers | nemovelo.py:80-85 | A record is kept iff it is in `data` and eligible |
| NemoveloProperties.KeptAppend | nemovelo.py:80-85 | Filtering preserves relative order: filtering a concatenation concatenates the filtered parts |
| NemoveloProperties.KeptIdempotent | nemovelo.py:80-85 | Filtering twice is filtering once |
| NemoveloProperties.ConvertAllSucceeds | nemovelo.py:80-125 | The loop succeeds iff every record passes the filter subscripts and every eligible record has all its fields |
| NemoveloProperties.ConvertAllFeatures | nemovelo.py:107-125 | A successful loop's k-th feature is the extraction of the k-th eligible record, and there are as many features as eligible records |
| NemoveloProperties.ConvertAllCharacterized | nemovelo.py:80-125 | The loop succeeds iff every record passes the filter subscripts and every eligible record has all its fields. It then yields exactly one feature per eligible record, in input order, each extracted from that record |
| NemoveloProperties.DroppedRecordContributesNothing | nemovelo.py:80-85 | A record the filter drops can be deleted from `data` without changing the outcome |
| NemoveloProperties.IncompleteStationFailsLoop | nemovelo.py:93-99 | An eligible record lacking a required field, at any position, makes the loop fail |
| NemoveloProperties.IncompleteStationFailsRun | nemovelo.py:93-128 | Such a record makes the whole run fail, so no collection is written |
| NemoveloProperties.EmptyDataEmptyCollection | nemovelo.py:75-80 | An empty `data` list gives a FeatureCollection with no features and the given timestamp |
| NemoveloProperties.MissingDataFails | nemovelo.py:41-45 | A response dict without `data` ends the run with the invalid-response error |
| NemoveloProperties.RunFeatures | nemovelo.py:107-125 | A successful run has one feature per eligible record, in input order. Each feature's id, `[longitude, latitude]`, name, electrical flag and three counts are copied unswapped and unmodified from its record |

## Left out

- Reading `ECOVELO_PROGRAM`, `OUTPUT_FILENAME` and `USER_AGENT` from the environment, and the exit on a blank one (nemovelo.py:9-21): process I/O. The program is a parameter.
- The HTTP GET with its headers and parameters, and `r.json()` decoding (nemovelo.py:23-39, 42): network I/O and a foreign JSON parser. The decoded response is a parameter of type `Json`. A body that is not JSON at all is not modelled.
- `datetime.now(UTC).strftime(...)` (nemovelo.py:78): a clock read. The timestamp is a given string.
- Writing the file with `json.dump(..., indent=4)` (nemovelo.py:127-128): file I/O and a library serialiser. The model stops at the JSON value that would be written. Dict key order and indentation are not represented, because objects are maps.
- The messages printed and the exit status: output and process control. An error is a `Failure` value naming the exception.
- JSON numbers are exact reals. Python's distinction between `int` and `float`, and the non-standard `NaN`/`Infinity`, are not represented. The conversion only copies numbers or tests them against zero.
- Json.Elements: iterating a non-empty dict or string is modelled as an immediate TypeError. The script reaches the same TypeError at the first subscript of the first key or character.
- public/js/refresh.js: the browser-side refresh (XHR, DOM updates, timers and `Intl.RelativeTimeFormat` over floating-point durations) is not part of this model.
