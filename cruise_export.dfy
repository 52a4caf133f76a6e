/**
 * HelloWorldExporter.exportDataset: remaps a Dataverse dataset document
 * (`datasetVersion` -> `metadataBlocks` -> named blocks of typed fields) into
 * one fixed-shape `cruise` record, and writes it only when the whole record
 * could be built.
 *
 * The meaning of the mapping is given by the functions of this module
 * (`Export` and one function per output section); the methods rebuild the
 * record the way the source does, appending to local builders inside loops,
 * and are proved to compute exactly those functions.
 */
module CruiseExport {
  import opened JsonValues
  import opened FieldLookup

  // ---------------------------------------------------------------------
  // The output record.

  datatype ScheduleRecord = ScheduleRecord(schedulerId: string, schedulerCruiseId: string)

  datatype Person = Person(id: string, name: string, institutionId: string, role: string)

  datatype Award = Award(projectNumber: string, name: string, agencyId: string, agencyDepartment: string)

  datatype Cruise = Cruise(
    id: string,
    scheduleRecords: seq<ScheduleRecord>,
    name: string,
    vesselId: string,
    departDate: string,
    departPortId: string,
    arriveDate: string,
    arrivePortId: string,
    persons: seq<Person>,
    awards: seq<Award>,
    embargoes: string)

  const ErrorPrefix := "Unknown exception caught during JSON export: "

  /** The one error kind exportDataset reports: whatever was thrown while the
      record was built, wrapped with a fixed prefix. The message uses the
      exception's class name in place of its detail text. */
  datatype ExportError = ExportError(cause: Fault) {
    function Message(): string
    {
      ErrorPrefix + FaultName(cause)
    }
  }

  // ---------------------------------------------------------------------
  // schedule_records

  /** The scan of the `scheduler_records` block's fields: at the first field
      whose typeName is `scheduler_id` (whatever its value), one record is
      emitted from two fresh lookups and the scan stops. */
  function ScanSchedule(block: JsonObject, fields: seq<Json>): (r: Result<seq<ScheduleRecord>>)
    ensures r.Ok? ==> |r.value| <= 1
  {
    if fields == [] then Ok([])
    else
      var record :- AsObject(fields[0]);
      var name :- GetString(record, "typeName");
      if name == "scheduler_id" then
        var schedulerCruiseId :- FieldValue(Some(block), "scheduler_id");
        var schedulerId :- FieldValue(Some(block), "scheduler");
        Ok([ScheduleRecord(schedulerId, schedulerCruiseId)])
      else ScanSchedule(block, fields[1..])
  }

  function ScheduleRecords(block: Option<JsonObject>): (r: Result<seq<ScheduleRecord>>)
    ensures !HasFields(block) ==> r == Ok([])
    ensures r.Ok? ==> |r.value| <= 1
  {
    if !HasFields(block) then Ok([])
    else
      var fields :- FieldsOf(block.value);
      ScanSchedule(block.value, fields)
  }

  // ---------------------------------------------------------------------
  // persons

  /** One person entry: `person_name` serves as both id and name, and the
      institution comes from the key spelled `instituion_id`. */
  function PersonEntry(obj: JsonObject): Person
  {
    var personName := GetStringOr(obj, "person_name", "");
    Person(personName, personName, GetStringOr(obj, "instituion_id", ""), GetStringOr(obj, "role", ""))
  }

  /** Prefix a successful list; a failure passes through. */
  function Prepend<T>(prefix: seq<T>, r: Result<seq<T>>): Result<seq<T>>
  {
    match r
    case Ok(rest) => Ok(prefix + rest)
    case Fail(f) => Fail(f)
  }

  lemma PrependNil<T>(r: Result<seq<T>>)
    ensures Prepend([], r) == r
  {
    if r.Ok? {
      assert [] + r.value == r.value;
    }
  }

  lemma PrependPrepend<T>(a: seq<T>, b: seq<T>, r: Result<seq<T>>)
    ensures Prepend(a, Prepend(b, r)) == Prepend(a + b, r)
  {
    if r.Ok? {
      assert a + (b + r.value) == (a + b) + r.value;
    }
  }

  /** The inner loop over the `value` array of a `person_n` field. */
  function ExpandPersons(values: seq<Json>): Result<seq<Person>>
  {
    if values == [] then Ok([])
    else
      var obj :- AsObject(values[0]);
      Prepend([PersonEntry(obj)], ExpandPersons(values[1..]))
  }

  /** What one field of the `persons` block contributes. */
  function PersonsOfField(field: JsonObject): Result<seq<Person>>
  {
    var name :- GetString(field, "typeName");
    if name == "person_n" then
      var arr :- GetArray(field, "value");
      var values :- Deref(arr);
      ExpandPersons(values)
    else Ok([])
  }

  /** The outer loop over the fields of the `persons` block. */
  function ScanPersons(fields: seq<Json>): Result<seq<Person>>
  {
    if fields == [] then Ok([])
    else
      var field :- AsObject(fields[0]);
      var here :- PersonsOfField(field);
      Prepend(here, ScanPersons(fields[1..]))
  }

  function PersonsOf(block: Option<JsonObject>): (r: Result<seq<Person>>)
    ensures !HasFields(block) ==> r == Ok([])
  {
    if !HasFields(block) then Ok([])
    else
      var fields :- FieldsOf(block.value);
      ScanPersons(fields)
  }

  // ---------------------------------------------------------------------
  // awards

  /** The award entry read straight from the object `fields[0]`. */
  function AwardEntry(obj: JsonObject): Award
  {
    Award(GetStringOr(obj, "project_number", ""), GetStringOr(obj, "project_name", ""),
          GetStringOr(obj, "agency_id", ""), GetStringOr(obj, "agency_department", ""))
  }

  /** No awards without a block with `fields`; otherwise exactly one, built
      from element 0 of `fields`, which must exist and be an object: a
      `fields` that is not an array or whose element 0 is not an object fails
      the cast, an empty one is indexed out of range. */
  function AwardsOf(block: Option<JsonObject>): (r: Result<seq<Award>>)
    ensures !HasFields(block) ==> r == Ok([])
    ensures r.Ok? && HasFields(block) ==>
      var fields := block.value["fields"];
      fields.JArr? && |fields.elems| > 0 && fields.elems[0].JObj?
      && r.value == [AwardEntry(fields.elems[0].members)]
    ensures HasFields(block) && block.value["fields"].JArr? && |block.value["fields"].elems| > 0
            && block.value["fields"].elems[0].JObj?
            ==> r == Ok([AwardEntry(block.value["fields"].elems[0].members)])
    ensures HasFields(block) && !block.value["fields"].JArr? ==> r == Fail(ClassCast)
    ensures HasFields(block) && block.value["fields"] == JArr([]) ==> r == Fail(IndexOutOfBounds)
    ensures HasFields(block) && block.value["fields"].JArr? && |block.value["fields"].elems| > 0
            && !block.value["fields"].elems[0].JObj?
            ==> r == Fail(ClassCast)
  {
    if !HasFields(block) then Ok([])
    else
      var fields :- FieldsOf(block.value);
      var awardFields :- ObjectAt(fields, 0);
      Ok([AwardEntry(awardFields)])
  }

  // ---------------------------------------------------------------------
  // The whole mapping.

  /** The datasetVersion object and its metadataBlocks object; a missing one
      is dereferenced as a null. */
  function VersionAndBlocks(input: Json): Result<(JsonObject, JsonObject)>
  {
    var inputJson :- AsObject(input);
    var version :- GetObject(inputJson, "datasetVersion");
    var datasetVersion :- Deref(version);
    var blocks :- GetObject(datasetVersion, "metadataBlocks");
    var metadataBlocks :- Deref(blocks);
    Ok((datasetVersion, metadataBlocks))
  }

  /** The body of exportDataset's `try`, up to the write: the cruise record,
      or the first exception in the source's evaluation order. */
  function Export(input: Json): Result<Cruise>
  {
    var vb :- VersionAndBlocks(input);
    var datasetVersion := vb.0;
    var metadataBlocks := vb.1;
    var cruiseBlock :- GetObject(metadataBlocks, "cruise");
    var awardsBlock :- GetObject(metadataBlocks, "awards");
    var personsBlock :- GetObject(metadataBlocks, "persons");
    var scheduleBlock :- GetObject(metadataBlocks, "scheduler_records");
    var id :- FieldValueFromArray(cruiseBlock, "cnumber");
    var scheduleRecords :- ScheduleRecords(scheduleBlock);
    var citationBlock :- GetObject(metadataBlocks, "citation");
    var name :- FieldValue(citationBlock, "title");
    var vesselId :- FieldValue(cruiseBlock, "vessel_id");
    var departDate :- FieldValue(cruiseBlock, "depart_date");
    var departPortId :- FieldValue(cruiseBlock, "depart_port_id");
    var arriveDate :- FieldValue(cruiseBlock, "arrive_date");
    var arrivePortId :- FieldValue(cruiseBlock, "arrive_poer_id");
    var persons :- PersonsOf(personsBlock);
    var awards :- AwardsOf(awardsBlock);
    var embargoes := GetStringOr(datasetVersion, "termsOfAccess", "none");
    Ok(Cruise(id, scheduleRecords, name, vesselId, departDate, departPortId,
              arriveDate, arrivePortId, persons, awards, embargoes))
  }

  // ---------------------------------------------------------------------
  // The output document.

  function ScheduleRecordJson(s: ScheduleRecord): Json
  {
    JObj(map["scheduler_id" := JStr(s.schedulerId), "scheduler_cruise_id" := JStr(s.schedulerCruiseId)])
  }

  function PersonJson(p: Person): Json
  {
    JObj(map["id" := JStr(p.id), "name" := JStr(p.name),
             "institution_id" := JStr(p.institutionId), "role" := JStr(p.role)])
  }

  function AwardJson(a: Award): Json
  {
    JObj(map["project_number" := JStr(a.projectNumber), "name" := JStr(a.name),
             "agency_id" := JStr(a.agencyId), "agency_department" := JStr(a.agencyDepartment)])
  }

  function MapSeq<T>(s: seq<T>, f: T -> Json): (r: seq<Json>)
    ensures |r| == |s| && forall i :: 0 <= i < |s| ==> r[i] == f(s[i])
  {
    if s == [] then [] else [f(s[0])] + MapSeq(s[1..], f)
  }

  /** The members of the built `cruise` object: the eleven attributes. */
  function CruiseObject(c: Cruise): JsonObject
  {
    map[
      "id" := JStr(c.id),
      "schedule_records" := JArr(MapSeq(c.scheduleRecords, ScheduleRecordJson)),
      "name" := JStr(c.name),
      "vessel_id" := JStr(c.vesselId),
      "depart_date" := JStr(c.departDate),
      "depart_port_id" := JStr(c.departPortId),
      "arrive_date" := JStr(c.arriveDate),
      "arrive_port_id" := JStr(c.arrivePortId),
      "persons" := JArr(MapSeq(c.persons, PersonJson)),
      "awards" := JArr(MapSeq(c.awards, AwardJson)),
      "embargoes" := JStr(c.embargoes)]
  }

  /** The built output document: `{"cruise": {...}}`. */
  function Envelope(c: Cruise): Json
  {
    JObj(map["cruise" := JObj(CruiseObject(c))])
  }

  // ---------------------------------------------------------------------
  // The mapping as the source performs it.

  /** HelloWorldExporter.java, lines 65-79: the scan that stops at the first
      `scheduler_id` field. */
  method BuildScheduleRecords(block: Option<JsonObject>) returns (r: Result<seq<ScheduleRecord>>)
    ensures r == ScheduleRecords(block)
  {
    var records: seq<ScheduleRecord> := [];
    if HasFields(block) {
      var fields :- FieldsOf(block.value);
      for i := 0 to |fields|
        invariant records == []
        invariant ScanSchedule(block.value, fields[i..]) == ScanSchedule(block.value, fields)
      {
        assert fields[i..][0] == fields[i] && fields[i..][1..] == fields[i + 1..];
        var record :- AsObject(fields[i]);
        var name :- GetString(record, "typeName");
        if name == "scheduler_id" {
          var schedulerCruiseId :- GetFieldValue(block, "scheduler_id");
          var schedulerId :- GetFieldValue(block, "scheduler");
          records := records + [ScheduleRecord(schedulerId, schedulerCruiseId)];
          assert records == [ScheduleRecord(schedulerId, schedulerCruiseId)];
          assert ScanSchedule(block.value, fields) == Ok(records);
          break;
        }
      }
      assert fields[|fields|..] == [];
    }
    return Ok(records);
  }

  /** HelloWorldExporter.java, lines 103-119: every element of every
      `person_n` field's value array, appended in order. */
  method BuildPersons(block: Option<JsonObject>) returns (r: Result<seq<Person>>)
    ensures r == PersonsOf(block)
  {
    var persons: seq<Person> := [];
    if HasFields(block) {
      var fields :- FieldsOf(block.value);
      PrependNil(ScanPersons(fields));
      for i := 0 to |fields|
        invariant Prepend(persons, ScanPersons(fields[i..])) == ScanPersons(fields)
      {
        assert fields[i..][0] == fields[i] && fields[i..][1..] == fields[i + 1..];
        var personField :- AsObject(fields[i]);
        var name :- GetString(personField, "typeName");
        if name == "person_n" {
          var arr :- GetArray(personField, "value");
          var values :- Deref(arr);
          ghost var before := persons;
          for j := 0 to |values|
            invariant Prepend(persons, ExpandPersons(values[j..])) == Prepend(before, ExpandPersons(values))
          {
            assert values[j..][0] == values[j] && values[j..][1..] == values[j + 1..];
            var personObj :- AsObject(values[j]);
            PrependPrepend(persons, [PersonEntry(personObj)], ExpandPersons(values[j + 1..]));
            persons := persons + [PersonEntry(personObj)];
          }
          assert values[|values|..] == [];
          PrependNil(ExpandPersons(values[|values|..]));
          ghost var added := ExpandPersons(values).value;
          assert persons == before + added;
          PrependPrepend(before, added, ScanPersons(fields[i + 1..]));
        } else {
          PrependNil(ScanPersons(fields[i + 1..]));
        }
      }
      assert fields[|fields|..] == [];
      assert persons + [] == persons;
    }
    return Ok(persons);
  }

  /** HelloWorldExporter.java, lines 123-132: one award from `fields[0]`, when
      the block has fields. */
  method BuildAwards(block: Option<JsonObject>) returns (r: Result<seq<Award>>)
    ensures r == AwardsOf(block)
  {
    var awards: seq<Award> := [];
    if HasFields(block) {
      var fields :- FieldsOf(block.value);
      var awardFields :- ObjectAt(fields, 0);
      awards := [AwardEntry(awardFields)];
    }
    return Ok(awards);
  }

  /** HelloWorldExporter.java, lines 47-137: the mapping, step by step, in the source's order. */
  method MapDataset(input: Json) returns (r: Result<Cruise>)
    ensures r == Export(input)
  {
    var inputJson :- AsObject(input);
    var version :- GetObject(inputJson, "datasetVersion");
    var datasetVersion :- Deref(version);
    var blocks :- GetObject(datasetVersion, "metadataBlocks");
    var metadataBlocks :- Deref(blocks);
    var cruiseBlock :- GetObject(metadataBlocks, "cruise");
    var awardsBlock :- GetObject(metadataBlocks, "awards");
    var personsBlock :- GetObject(metadataBlocks, "persons");
    var scheduleBlock :- GetObject(metadataBlocks, "scheduler_records");
    var id :- GetFieldValueFromArray(cruiseBlock, "cnumber");
    var scheduleRecords :- BuildScheduleRecords(scheduleBlock);
    var citationBlock :- GetObject(metadataBlocks, "citation");
    var name :- GetFieldValue(citationBlock, "title");
    var vesselId :- GetFieldValue(cruiseBlock, "vessel_id");
    var departDate :- GetFieldValue(cruiseBlock, "depart_date");
    var departPortId :- GetFieldValue(cruiseBlock, "depart_port_id");
    var arriveDate :- GetFieldValue(cruiseBlock, "arrive_date");
    var arrivePortId :- GetFieldValue(cruiseBlock, "arrive_poer_id");
    var persons :- BuildPersons(personsBlock);
    var awards :- BuildAwards(awardsBlock);
    var embargoes := GetStringOr(datasetVersion, "termsOfAccess", "none");
    return Ok(Cruise(id, scheduleRecords, name, vesselId, departDate, departPortId,
                     arriveDate, arrivePortId, persons, awards, embargoes));
  }

  /** The host's output stream, as the sequence of documents written to it. */
  class OutputSink {
    var written: seq<Json>

    constructor ()
      ensures written == []
    {
      written := [];
    }

    method Write(doc: Json)
      modifies this
      ensures written == old(written) + [doc]
    {
      written := written + [doc];
    }
  }

  datatype ExportOutcome = Exported | Failed(error: ExportError)

  /** exportDataset: the document is written only after the whole record has
      been built; any exception yields one ExportError and nothing written. */
  method ExportDataset(input: Json, sink: OutputSink) returns (outcome: ExportOutcome)
    modifies sink
    ensures Export(input).Ok? ==>
      outcome == Exported && sink.written == old(sink.written) + [Envelope(Export(input).value)]
    ensures Export(input).Fail? ==>
      outcome == Failed(ExportError(Export(input).fault)) && sink.written == old(sink.written)
  {
    var r := MapDataset(input);
    match r
    case Fail(fault) =>
      outcome := Failed(ExportError(fault));
    case Ok(cruise) =>
      sink.Write(Envelope(cruise));
      outcome := Exported;
  }
}
