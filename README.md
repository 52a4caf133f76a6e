# Cruise exporter: a Dafny model

`HelloWorldExporter` is a Dataverse export plugin. It reads a dataset document and writes one `cruise` record. The input is a JSON object whose `datasetVersion.metadataBlocks` holds named blocks, and each block holds a `fields` list of `{typeName, value}` objects. The record has eight string attributes, `schedule_records` (0 or 1 entry), `persons`, `awards` (0 or 1 entry) and `embargoes`. Any exception raised while the record is built becomes a single `ExportException`, and nothing is written.

The model has four modules:

- `JsonValues` (`json_values.dfy`) covers parsed JSON values and the jakarta.json accessors the exporter calls. It records the behaviour the exporter relies on:
  - `getJsonObject`/`getJsonArray` return null for a missing key and fail a cast for a wrong type.
  - `getString(key)` throws on a missing key or a non-string.
  - `getString(key, default)` falls back to the default.
  - `JsonArray.getString(i, default)` falls back to the default.
  - `JsonArray.getJsonObject(0)` throws on an empty array.

  The exceptions are a `Fault` datatype, and a `Result` carries either a value or the first fault.
- `FieldLookup` (`field_lookup.dfy`) covers `getFieldValue` and `getFieldValueFromArray`.
  - `ScanScalar`, `ScanArray`, `FieldValue` and `FieldValueFromArray` are recursive functions over the `fields` list.
  - `GetFieldValue` and `GetFieldValueFromArray` are the source's early-return loops, proved equal to those functions.
  - Lemmas tie both searches to position-based reference definitions of "the first match".
- `CruiseExport` (`cruise_export.dfy`) covers the output record and the mapping.
  - `Export` is the meaning of the `try` block up to the write, with one function per section.
  - `MapDataset` and the `Build…` methods rebuild the record the way the source does, appending to local builders inside loops.
  - `ExportDataset` writes the envelope to an `OutputSink` only on success.
- `CruiseProperties` (`cruise_properties.dfy`) proves the promised properties about these functions:
  - the output cardinalities;
  - where each attribute comes from;
  - the defaults for absent blocks;
  - the failures at the document's top level;
  - a few worked documents;
  - that the built output document reads back into the record.

Three behaviours of the code are easy to miss, and the model keeps each of them:

- A schedule record is emitted at the first field typed `scheduler_id`, whatever payload that field carries (lines 69-76). A record is still not guaranteed. Its `scheduler_id` attribute comes from a `scheduler` lookup that rescans the whole `fields` list (line 73), and that lookup throws on any non-field it meets before a `scheduler` field, even one after the `scheduler_id` field.
- The award attributes are read straight from the object `fields[0]` of the awards block (line 125). An empty `fields` array throws `IndexOutOfBoundsException`, and a non-object element 0 throws `ClassCastException`.
- An absent block, or a block without `fields`, gives the defaults: "" attributes and empty arrays. A malformed element (a non-object, a missing or non-string `typeName`, a `fields` or person `value` that is not an array) fails the whole export only if a lookup reaches it before it stops. After every lookup's first match it is never read (`TrailingMalformedIgnored`), and the awards section reads only `fields[0]`. The persons loop, which never stops early, reads every element of its block.

## Model

| member | source | states |
|---|---|---|
| FieldLookup.GetFieldValue | example/src/main/java/io/gdcc/export/helloworld/HelloWorldExporter.java:152-161 | the early-return loop computes exactly `FieldValue`, including which exception it throws |
| FieldLookup.GetFieldValueFromArray | example/src/main/java/io/gdcc/export/helloworld/HelloWorldExporter.java:164-173 | the early-return loop computes exactly `FieldValueFromArray`, including which exception it throws |
| FieldLookup.BlockGuards | example/src/main/java/io/gdcc/export/helloworld/HelloWorldExporter.java:152-173 | both lookups give "" for an absent block or a block without `fields`; both throw a ClassCastException when `fields` is not an array |
| FieldLookup.ScanScalarFirstMatch | example/src/main/java/io/gdcc/export/helloworld/HelloWorldExporter.java:154-158 | when every element before it is a field with another name, at the first field named `typeName` the result is that field's `value` string, or "" when the value is not a string; the search does not go on |
| FieldLookup.ScanScalarNoMatch | example/src/main/java/io/gdcc/export/helloworld/HelloWorldExporter.java:154-160 | when every element is a field and none has the requested name, the result is "" |
| FieldLookup.ScanScalarFault | example/src/main/java/io/gdcc/export/helloworld/HelloWorldExporter.java:154-156 | an element before the first match that is not an object, or that lacks a string `typeName`, throws the matching exception |
| FieldLookup.ScanScalarIgnoresLater | example/src/main/java/io/gdcc/export/helloworld/HelloWorldExporter.java:154-158 | later fields with the same name never change the result |
| FieldLookup.ScanArrayFirstMatch | example/src/main/java/io/gdcc/export/helloworld/HelloWorldExporter.java:166-170 | when every element before it is a field, fields with the name but a non-array value are skipped and the result is element 0 of the first array-valued match, or "" when that array is empty or its element 0 is not a string |
| FieldLookup.ScanArrayNoMatch | example/src/main/java/io/gdcc/export/helloworld/HelloWorldExporter.java:166-172 | when every element is a field and none is an array-valued field with the requested name, the result is "" |
| FieldLookup.ScanArrayFault | example/src/main/java/io/gdcc/export/helloworld/HelloWorldExporter.java:166-168 | an element before the first array-valued match that is not an object with a string `typeName` throws |
| FieldLookup.LookupsDisagree | example/src/main/java/io/gdcc/export/helloworld/HelloWorldExporter.java:152-173 | on a string-valued `cnumber` field followed by an array-valued one, the first lookup returns the string and the second returns the array's element |
| CruiseExport.ScanSchedule | example/src/main/java/io/gdcc/export/helloworld/HelloWorldExporter.java:66-79 | the scan over the scheduler fields emits at most one record |
| CruiseExport.ScheduleRecords | example/src/main/java/io/gdcc/export/helloworld/HelloWorldExporter.java:65-80 | `schedule_records` is empty for an absent block or a block without `fields`, and never has more than one entry |
| CruiseExport.AwardsOf | example/src/main/java/io/gdcc/export/helloworld/HelloWorldExporter.java:123-133 | no awards without a block that has `fields`; a non-empty `fields` array whose element 0 is an object gives exactly one award, built from that object, and a success never gives anything else; an empty `fields` array throws IndexOutOfBoundsException; a `fields` that is not an array, or a non-object element 0, throws ClassCastException |
| CruiseExport.PersonsOf | example/src/main/java/io/gdcc/export/helloworld/HelloWorldExporter.java:103-120 | `persons` is empty for an absent block or a block without `fields` |
| CruiseExport.BuildScheduleRecords | example/src/main/java/io/gdcc/export/helloworld/HelloWorldExporter.java:65-80 | the loop, which breaks at the first `scheduler_id` field, computes exactly `ScheduleRecords` |
| CruiseExport.BuildPersons | example/src/main/java/io/gdcc/export/helloworld/HelloWorldExporter.java:103-120 | the nested loops that append to the persons builder compute exactly `PersonsOf`, including the first exception |
| CruiseExport.BuildAwards | example/src/main/java/io/gdcc/export/helloworld/HelloWorldExporter.java:123-133 | the awards builder ends up holding exactly `AwardsOf` |
| CruiseExport.MapDataset | example/src/main/java/io/gdcc/export/helloworld/HelloWorldExporter.java:47-137 | the step-by-step mapping computes exactly `Export`: the record, or the first exception in the source's evaluation order |
| CruiseExport.OutputSink.Write | example/src/main/java/io/gdcc/export/helloworld/HelloWorldExporter.java:144-145 | writing appends one document to the stream and changes nothing else |
| CruiseExport.ExportDataset | example/src/main/java/io/gdcc/export/helloworld/HelloWorldExporter.java:45-148 | on success the `{"cruise": …}` document is written once; on any exception the outcome is one ExportError carrying that exception, and nothing is written |
| CruiseProperties.ScanScheduleMeaning | example/src/main/java/io/gdcc/export/helloworld/HelloWorldExporter.java:66-79 | when the scan succeeds, it emits a record if and only if some field is typed `scheduler_id`; the record's scheduler_id is the block's `scheduler` lookup and its scheduler_cruise_id is the `scheduler_id` lookup |
| CruiseProperties.ScheduleRecordsMeaning | example/src/main/java/io/gdcc/export/helloworld/HelloWorldExporter.java:65-80 | when the scan succeeds: at most one record; exactly one if and only if the block has `fields` with a field typed `scheduler_id`, whatever its value; scheduler_cruise_id is the value of the first such field |
| FieldLookup.FirstStop | example/src/main/java/io/gdcc/export/helloworld/HelloWorldExporter.java:154-160 | every `fields` list has a first stopping point for a search by name: the prefix before it holds only fields with other names, and it is the end of the list, a non-field or a field with that name |
| CruiseProperties.ScanScheduleSkips | example/src/main/java/io/gdcc/export/helloworld/HelloWorldExporter.java:66-79 | the schedule loop passes over fields with other names without effect, up to its first stopping point |
| CruiseProperties.ScheduleRecordsOutcome | example/src/main/java/io/gdcc/export/helloworld/HelloWorldExporter.java:65-80 | by the scan's first stopping point: no record at the end of the list; the non-field's exception; at the first `scheduler_id` field, the `scheduler` lookup's exception, or one record with scheduler_cruise_id equal to that field's value and scheduler_id equal to the lookup |
| CruiseProperties.ScheduleRecordsFails | example/src/main/java/io/gdcc/export/helloworld/HelloWorldExporter.java:65-80 | `schedule_records` fails if and only if `fields` is present and is not an array, or a non-field comes before the first `scheduler_id` field, or such a field exists and the `scheduler` lookup throws |
| CruiseProperties.SchedulerLookupThrows | example/src/main/java/io/gdcc/export/helloworld/HelloWorldExporter.java:69-73 | a `scheduler_id` field followed by a number makes the `scheduler` lookup throw ClassCastException, and a document whose only block is that one fails its export with it |
| CruiseProperties.TrailingMalformedIgnored | example/src/main/java/io/gdcc/export/helloworld/HelloWorldExporter.java:64-84 | a number after the citation title, or after the `scheduler_id` and `scheduler` fields, is never read: the export and `schedule_records` succeed with the values found before it |
| CruiseProperties.ExpandPersonsMeaning | example/src/main/java/io/gdcc/export/helloworld/HelloWorldExporter.java:108-116 | the inner loop succeeds if and only if every element is an object, and then gives one entry per element, in order |
| CruiseProperties.PersonsOfFieldMeaning | example/src/main/java/io/gdcc/export/helloworld/HelloWorldExporter.java:106-117 | a field contributes entries only when typed `person_n`; it then needs an array `value` of objects, one entry each |
| CruiseProperties.ScanPersonsMeaning | example/src/main/java/io/gdcc/export/helloworld/HelloWorldExporter.java:104-119 | the persons loop succeeds if and only if every field is readable, and then yields one entry per element of every `person_n` value array, in source order |
| CruiseProperties.PersonsMeaning | example/src/main/java/io/gdcc/export/helloworld/HelloWorldExporter.java:103-120 | when the loop succeeds: no persons without a block that has `fields`; otherwise the entries of all `person_n` values in order; each entry's id equals its name |
| CruiseProperties.ExportSources | example/src/main/java/io/gdcc/export/helloworld/HelloWorldExporter.java:47-137 | where each attribute of a built record comes from: `id` from `cnumber`, `arrive_port_id` from `arrive_poer_id`, `name` from the citation title, and `embargoes` from termsOfAccess or "none" |
| CruiseProperties.ExportBounds | example/src/main/java/io/gdcc/export/helloworld/HelloWorldExporter.java:64-133 | a built record has at most one schedule record and at most one award, and every person's id equals its name |
| CruiseProperties.MissingCruiseBlock | example/src/main/java/io/gdcc/export/helloworld/HelloWorldExporter.java:53-100 | in a built record without a cruise block, id, vessel_id, depart_date, depart_port_id, arrive_date and arrive_port_id are all "" |
| CruiseProperties.ExportWithoutBlocks | example/src/main/java/io/gdcc/export/helloworld/HelloWorldExporter.java:47-137 | a document whose `datasetVersion.metadataBlocks` is an object holding none of the five blocks never fails and gives the all-default record, with embargoes from termsOfAccess |
| CruiseProperties.ExportEnvelopeFaults | example/src/main/java/io/gdcc/export/helloworld/HelloWorldExporter.java:47-53 | a non-object input fails with a cast error; a missing datasetVersion or metadataBlocks fails with a null dereference |
| CruiseProperties.CruiseOnlyDocument | example/src/main/java/io/gdcc/export/helloworld/HelloWorldExporter.java:60-100 | a lone cruise block with `cnumber: ["CR-100"]` and `vessel_id: "V1"` gives id "CR-100" and vessel_id "V1", with no persons, no awards and embargoes "none" |
| CruiseProperties.TwoAwardFieldSets | example/src/main/java/io/gdcc/export/helloworld/HelloWorldExporter.java:123-133 | with two award field-sets, only the first becomes an award |
| CruiseProperties.TwoPersonsDocument | example/src/main/java/io/gdcc/export/helloworld/HelloWorldExporter.java:103-120 | two `person_n` entries give two persons in source order, with the institution read from `instituion_id` |
| CruiseProperties.EnvelopeRoundTrip | example/src/main/java/io/gdcc/export/helloworld/HelloWorldExporter.java:140-142 | the built `{"cruise": {...}}` document holds every attribute and every array entry of the record |

## Left out

- Plugin registration (`@AutoService`, the `Exporter` interface) is host discovery, not logic.
- `getFormatName`, `getDisplayName`, `isHarvestable`, `isAvailableToUsers` and `getMediaType` are constants or thin wrappers over `Locale` and `MediaType`.
- `ExportDataProvider.getDatasetJson()` is not modelled; the input is an already-parsed `Json` value.
- Serialisation is not modelled: `output.toString()`, the UTF-8 encoding, `OutputStream.write` and `flush`. The write is an append of the built document to `OutputSink.written`. An IOException from the stream is not modelled.
- Key order and duplicate keys in JSON objects are not modelled; an object is a map from key to value. Numbers, booleans and JSON null are one case, because no accessor the exporter uses tells them apart.
- ExportError.Message: uses the exception's class name in place of `e.getMessage()`. The JVM's detail text is not modelled.
- The local `schedulerId` at line 70 is never used, and `getString` with a default cannot throw. It has no observable effect.
- Errors other than the three runtime exceptions the code can meet on a document (null dereference, failed cast, index out of range) are not modelled. Out-of-memory is one example.
