/**
 * What exportDataset promises, proved about the functions of CruiseExport:
 * the cardinality of each output array, where every attribute comes from,
 * the defaults for absent blocks, the all-or-nothing failure, and that the
 * built output document can be read back into the record.
 */
module CruiseProperties {
  import opened JsonValues
  import opened FieldLookup
  import opened CruiseExport

  // ---------------------------------------------------------------------
  // schedule_records

  /** Position `k` holds a field whose typeName is `scheduler_id`. */
  predicate SchedulerIdAt(fields: seq<Json>, k: int)
  {
    0 <= k < |fields| && IsField(fields[k]) && TypeName(fields[k]) == "scheduler_id"
  }

  /** The block has a `fields` array with some field typed `scheduler_id`. */
  ghost predicate HasSchedulerIdField(block: Option<JsonObject>)
  {
    HasFields(block) && block.value["fields"].JArr?
    && exists k :: SchedulerIdAt(block.value["fields"].elems, k)
  }

  lemma FirstNamedCons(fields: seq<Json>, typeName: string, k: nat)
    requires |fields| > 0 && IsField(fields[0]) && TypeName(fields[0]) != typeName
    requires IsFirstNamed(fields[1..], typeName, k)
    ensures IsFirstNamed(fields, typeName, k + 1)
  {
  }

  /** The scan emits a record exactly when some field is typed
      `scheduler_id`; the first such field is a first match for the
      `scheduler_id` lookup, and the record's two attributes are the lookups
      of `scheduler` and `scheduler_id` in the same block. */
  lemma {:induction false} ScanScheduleMeaning(block: JsonObject, fields: seq<Json>)
    requires ScanSchedule(block, fields).Ok?
    ensures var rs := ScanSchedule(block, fields).value;
      && (|rs| == 1 <==> exists k :: SchedulerIdAt(fields, k))
      && (|rs| == 1 ==>
            && (exists k :: IsFirstNamed(fields, "scheduler_id", k))
            && FieldValue(Some(block), "scheduler") == Ok(rs[0].schedulerId)
            && FieldValue(Some(block), "scheduler_id") == Ok(rs[0].schedulerCruiseId))
  {
    if fields != [] {
      assert IsField(fields[0]);
      if TypeName(fields[0]) == "scheduler_id" {
        assert SchedulerIdAt(fields, 0);
        assert IsFirstNamed(fields, "scheduler_id", 0);
      } else {
        var tail := fields[1..];
        ScanScheduleMeaning(block, tail);
        if exists k :: SchedulerIdAt(fields, k) {
          var k :| SchedulerIdAt(fields, k);
          assert k > 0 && tail[k - 1] == fields[k];
          assert SchedulerIdAt(tail, k - 1);
        }
        if exists k :: SchedulerIdAt(tail, k) {
          var k :| SchedulerIdAt(tail, k);
          assert tail[k] == fields[k + 1];
          assert SchedulerIdAt(fields, k + 1);
        }
        if exists k :: IsFirstNamed(tail, "scheduler_id", k) {
          var k :| IsFirstNamed(tail, "scheduler_id", k);
          FirstNamedCons(fields, "scheduler_id", k);
        }
      }
    }
  }

  /** schedule_records: at most one entry, and exactly one when the
      `scheduler_records` block has `fields` with some field typed
      `scheduler_id`, whatever that field's value. The entry's scheduler_id is
      the block's `scheduler` lookup; its scheduler_cruise_id is the value of
      the first `scheduler_id` field. */
  lemma ScheduleRecordsMeaning(block: Option<JsonObject>)
    requires ScheduleRecords(block).Ok?
    ensures var rs := ScheduleRecords(block).value;
      && |rs| <= 1
      && (|rs| == 1 <==> HasSchedulerIdField(block))
      && (|rs| == 1 ==> FieldValue(block, "scheduler") == Ok(rs[0].schedulerId))
      && (HasSchedulerIdField(block) ==>
            exists k: nat :: IsFirstNamed(block.value["fields"].elems, "scheduler_id", k)
                        && rs[0].schedulerCruiseId == GetStringOr(block.value["fields"].elems[k].members, "value", ""))
  {
    if HasFields(block) {
      var fields := block.value["fields"].elems;
      assert Some(block.value) == block;
      ScanScheduleMeaning(block.value, fields);
      var rs := ScheduleRecords(block).value;
      if |rs| == 1 {
        var k :| IsFirstNamed(fields, "scheduler_id", k);
        ScanScalarFirstMatch(fields, "scheduler_id", k);
      }
    }
  }

  /** The scan never looks past its first stopping point: everything before
      it is a field with another name. */
  lemma {:induction false} ScanScheduleSkips(block: JsonObject, fields: seq<Json>, k: nat)
    requires k <= |fields| && NoneNamedBefore(fields, "scheduler_id", k)
    ensures ScanSchedule(block, fields) == ScanSchedule(block, fields[k..])
  {
    if k > 0 {
      var tail := fields[1..];
      assert IsField(fields[0]) && TypeName(fields[0]) != "scheduler_id";
      assert NoneNamedBefore(tail, "scheduler_id", k - 1) by {
        forall j | 0 <= j < k - 1
          ensures IsField(tail[j]) && TypeName(tail[j]) != "scheduler_id"
        {
          assert tail[j] == fields[j + 1];
        }
      }
      ScanScheduleSkips(block, tail, k - 1);
      assert tail[k - 1..] == fields[k..];
    }
  }

  /** An element that is not a field and comes first in the sense of the
      schedule scan: every element before it is a field not typed
      `scheduler_id`. */
  predicate NonFieldFirst(fields: seq<Json>, k: nat)
  {
    k < |fields| && NoneNamedBefore(fields, "scheduler_id", k) && !IsField(fields[k])
  }

  /** schedule_records by the first stopping point `k` of the scan over the
      block's `fields`: no record at the end of the list, the exception of a
      non-field, and at the first `scheduler_id` field the record whose
      scheduler_cruise_id is that field's value and whose scheduler_id is the
      `scheduler` lookup, which rescans the whole list and throws whatever it
      meets. */
  lemma ScheduleRecordsOutcome(block: Option<JsonObject>, k: nat)
    requires HasFields(block) && block.value["fields"].JArr?
    requires k <= |block.value["fields"].elems|
    requires NoneNamedBefore(block.value["fields"].elems, "scheduler_id", k)
    ensures var fields := block.value["fields"].elems;
      && (k == |fields| ==> ScheduleRecords(block) == Ok([]))
      && (k < |fields| && !IsField(fields[k]) ==> ScheduleRecords(block) == Fail(FieldFault(fields[k])))
      && (k < |fields| && IsField(fields[k]) && TypeName(fields[k]) == "scheduler_id" ==>
            var scheduler := FieldValue(block, "scheduler");
            && (scheduler.Fail? ==> ScheduleRecords(block) == Fail(scheduler.fault))
            && (scheduler.Ok? ==>
                  ScheduleRecords(block)
                  == Ok([ScheduleRecord(scheduler.value, GetStringOr(fields[k].members, "value", ""))])))
  {
    var fields := block.value["fields"].elems;
    assert Some(block.value) == block;
    ScanScheduleSkips(block.value, fields, k);
    if k < |fields| {
      assert fields[k..][0] == fields[k];
      if IsField(fields[k]) && TypeName(fields[k]) == "scheduler_id" {
        assert IsFirstNamed(fields, "scheduler_id", k);
        ScanScalarFirstMatch(fields, "scheduler_id", k);
      }
    }
  }

  /** schedule_records fails exactly when the block has `fields` and either
      that is not an array, or a non-field comes before the first field typed
      `scheduler_id`, or there is such a field and the `scheduler` lookup
      throws. A `scheduler_id` field alone does not guarantee a record. */
  lemma ScheduleRecordsFails(block: Option<JsonObject>)
    ensures ScheduleRecords(block).Fail? <==>
      HasFields(block)
      && (!block.value["fields"].JArr?
          || (exists k: nat :: NonFieldFirst(block.value["fields"].elems, k))
          || ((exists k: nat :: IsFirstNamed(block.value["fields"].elems, "scheduler_id", k))
              && FieldValue(block, "scheduler").Fail?))
  {
    if HasFields(block) && block.value["fields"].JArr? {
      var fields := block.value["fields"].elems;
      FirstStop(fields, "scheduler_id");
      var k: nat :| k <= |fields| && NoneNamedBefore(fields, "scheduler_id", k)
        && (k < |fields| ==> !IsField(fields[k]) || TypeName(fields[k]) == "scheduler_id");
      ScheduleRecordsOutcome(block, k);
      if k < |fields| && !IsField(fields[k]) {
        assert NonFieldFirst(fields, k);
      } else {
        assert !exists j: nat :: NonFieldFirst(fields, j) by {
          forall j: nat | NonFieldFirst(fields, j)
            ensures false
          {
          }
        }
        if k < |fields| {
          assert IsFirstNamed(fields, "scheduler_id", k);
        }
      }
    }
  }

  /** The failure of the example that shows it: a `scheduler_id` field
      followed by a number makes the `scheduler` lookup throw. */
  lemma SchedulerLookupThrows()
    ensures ScheduleRecords(Some(map["fields" := JArr([
      JObj(map["typeName" := JStr("scheduler_id"), "value" := JStr("S")]), JOther])]))
      == Fail(ClassCast)
    ensures Export(DocumentOf(map["scheduler_records" := Block([Field("scheduler_id", JStr("S")), JOther])]))
      == Fail(ClassCast)
  {
  }

  /** A malformed element is harmless once every lookup has stopped before
      it: a number after the citation title, or after the `scheduler_id` and
      `scheduler` fields, is never read. */
  lemma TrailingMalformedIgnored()
    ensures Export(DocumentOf(map["citation" := Block([Field("title", JStr("T")), JOther])]))
      == Ok(Cruise("", [], "T", "", "", "", "", "", [], [], "none"))
    ensures ScheduleRecords(Some(map["fields" := JArr([
      Field("scheduler_id", JStr("S")), Field("scheduler", JStr("X")), JOther])]))
      == Ok([ScheduleRecord("X", "S")])
  {
  }

  // ---------------------------------------------------------------------
  // persons

  /** The members of an object; nothing for any other value. */
  function Members(v: Json): JsonObject
  {
    if v.JObj? then v.members else map[]
  }

  predicate IsPersonField(v: Json)
  {
    IsField(v) && TypeName(v) == "person_n"
  }

  /** The person values a field contributes: the `value` array of a
      `person_n` field. */
  function PersonValuesOf(v: Json): seq<Json>
  {
    if IsPersonField(v) && HasArrayValue(v) then v.members["value"].elems else []
  }

  /** Reference definition: the `value` arrays of all `person_n` fields,
      concatenated in source order. */
  function PersonValues(fields: seq<Json>): seq<Json>
  {
    if fields == [] then [] else PersonValuesOf(fields[0]) + PersonValues(fields[1..])
  }

  /** A field of the persons block the loops get through: an object with a
      string typeName and, when typed `person_n`, an array value of objects. */
  predicate PersonFieldReadable(v: Json)
  {
    IsField(v)
    && (IsPersonField(v) ==>
          HasArrayValue(v) && forall e :: e in v.members["value"].elems ==> e.JObj?)
  }

  predicate EntriesOf(ps: seq<Person>, values: seq<Json>)
  {
    |ps| == |values| && forall i :: 0 <= i < |ps| ==> ps[i] == PersonEntry(Members(values[i]))
  }

  lemma EntriesAppend(ps: seq<Person>, values: seq<Json>, qs: seq<Person>, rest: seq<Json>)
    requires EntriesOf(ps, values) && EntriesOf(qs, rest)
    ensures EntriesOf(ps + qs, values + rest)
  {
  }

  /** The inner loop succeeds exactly on an array of objects, and gives one
      entry per element, in order. */
  lemma {:induction false} ExpandPersonsMeaning(values: seq<Json>)
    ensures ExpandPersons(values).Ok? <==> forall e :: e in values ==> e.JObj?
    ensures ExpandPersons(values).Ok? ==> EntriesOf(ExpandPersons(values).value, values)
  {
    if values != [] {
      ExpandPersonsMeaning(values[1..]);
      assert forall e :: e in values[1..] ==> e in values;
      assert forall e :: e in values ==> e == values[0] || e in values[1..];
      if ExpandPersons(values).Ok? {
        EntriesAppend([PersonEntry(values[0].members)], [values[0]],
                      ExpandPersons(values[1..]).value, values[1..]);
        assert [values[0]] + values[1..] == values;
      }
    }
  }

  lemma PersonsOfFieldMeaning(v: Json)
    requires v.JObj?
    ensures PersonsOfField(v.members).Ok? <==> PersonFieldReadable(v)
    ensures PersonsOfField(v.members).Ok? ==> EntriesOf(PersonsOfField(v.members).value, PersonValuesOf(v))
  {
    if IsPersonField(v) && HasArrayValue(v) {
      ExpandPersonsMeaning(v.members["value"].elems);
    }
  }

  /** The persons loop succeeds exactly when every field is readable, and
      then yields one entry per element of the `value` array of every
      `person_n` field, in source order. */
  lemma {:induction false} ScanPersonsMeaning(fields: seq<Json>)
    ensures ScanPersons(fields).Ok? <==> forall j :: 0 <= j < |fields| ==> PersonFieldReadable(fields[j])
    ensures ScanPersons(fields).Ok? ==> EntriesOf(ScanPersons(fields).value, PersonValues(fields))
  {
    if fields != [] {
      var tail := fields[1..];
      ScanPersonsMeaning(tail);
      assert forall j :: 0 < j < |fields| ==> fields[j] == tail[j - 1];
      if fields[0].JObj? {
        PersonsOfFieldMeaning(fields[0]);
        if ScanPersons(fields).Ok? {
          EntriesAppend(PersonsOfField(fields[0].members).value, PersonValuesOf(fields[0]),
                        ScanPersons(tail).value, PersonValues(tail));
        }
        if forall j :: 0 <= j < |fields| ==> PersonFieldReadable(fields[j]) {
          assert PersonFieldReadable(fields[0]);
          assert forall j :: 0 <= j < |tail| ==> PersonFieldReadable(tail[j]) by {
            forall j | 0 <= j < |tail| ensures PersonFieldReadable(tail[j]) {
              assert tail[j] == fields[j + 1];
            }
          }
        }
      } else {
        assert !PersonFieldReadable(fields[0]);
      }
    }
  }

  /** persons: for a block with `fields`, one entry per person value, each
      with id equal to name; no block or no `fields` gives no persons. */
  lemma PersonsMeaning(block: Option<JsonObject>)
    requires PersonsOf(block).Ok?
    ensures !HasFields(block) ==> PersonsOf(block).value == []
    ensures HasFields(block) ==>
      block.value["fields"].JArr?
      && EntriesOf(PersonsOf(block).value, PersonValues(block.value["fields"].elems))
    ensures forall p :: p in PersonsOf(block).value ==> p.id == p.name
  {
    if HasFields(block) {
      ScanPersonsMeaning(block.value["fields"].elems);
    }
  }

  // ---------------------------------------------------------------------
  // The whole record.

  /** The block named `name` under datasetVersion.metadataBlocks, when every
      step of that path is an object. */
  function BlockOf(input: Json, name: string): Option<JsonObject>
  {
    if input.JObj? && "datasetVersion" in input.members && input.members["datasetVersion"].JObj? then
      var dv := input.members["datasetVersion"].members;
      if "metadataBlocks" in dv && dv["metadataBlocks"].JObj? && name in dv["metadataBlocks"].members
         && dv["metadataBlocks"].members[name].JObj?
      then Some(dv["metadataBlocks"].members[name].members)
      else None
    else None
  }

  /** datasetVersion.termsOfAccess when it is a string, "none" otherwise. */
  function TermsOfAccess(input: Json): string
  {
    if input.JObj? && "datasetVersion" in input.members && input.members["datasetVersion"].JObj? then
      GetStringOr(input.members["datasetVersion"].members, "termsOfAccess", "none")
    else "none"
  }

  /** Where each attribute of a built record comes from: the cruise block
      (with `arrive_port_id` read from the key `arrive_poer_id`), the citation
      title, the three section rules, and termsOfAccess for embargoes. */
  lemma ExportSources(input: Json)
    requires Export(input).Ok?
    ensures var c := Export(input).value;
      var cruise := BlockOf(input, "cruise");
      && FieldValueFromArray(cruise, "cnumber") == Ok(c.id)
      && ScheduleRecords(BlockOf(input, "scheduler_records")) == Ok(c.scheduleRecords)
      && FieldValue(BlockOf(input, "citation"), "title") == Ok(c.name)
      && FieldValue(cruise, "vessel_id") == Ok(c.vesselId)
      && FieldValue(cruise, "depart_date") == Ok(c.departDate)
      && FieldValue(cruise, "depart_port_id") == Ok(c.departPortId)
      && FieldValue(cruise, "arrive_date") == Ok(c.arriveDate)
      && FieldValue(cruise, "arrive_poer_id") == Ok(c.arrivePortId)
      && PersonsOf(BlockOf(input, "persons")) == Ok(c.persons)
      && AwardsOf(BlockOf(input, "awards")) == Ok(c.awards)
      && c.embargoes == TermsOfAccess(input)
  {
  }

  /** A record that was built has at most one schedule record, at most one
      award, and persons whose id equals their name. */
  lemma ExportBounds(input: Json)
    requires Export(input).Ok?
    ensures var c := Export(input).value;
      |c.scheduleRecords| <= 1 && |c.awards| <= 1
      && forall p :: p in c.persons ==> p.id == p.name
  {
    ExportSources(input);
    PersonsMeaning(BlockOf(input, "persons"));
  }

  /** Without a cruise block every cruise attribute is "". */
  lemma MissingCruiseBlock(input: Json)
    requires Export(input).Ok? && BlockOf(input, "cruise") == None
    ensures var c := Export(input).value;
      c.id == "" && c.vesselId == "" && c.departDate == "" && c.departPortId == ""
      && c.arriveDate == "" && c.arrivePortId == ""
  {
  }

  /** A document whose metadataBlocks holds none of the five blocks the
      exporter reads never fails, and gives the all-default record. */
  lemma ExportWithoutBlocks(input: Json)
    requires input.JObj? && "datasetVersion" in input.members && input.members["datasetVersion"].JObj?
    requires var dv := input.members["datasetVersion"].members;
      "metadataBlocks" in dv && dv["metadataBlocks"].JObj?
      && forall name :: name in ["cruise", "awards", "persons", "scheduler_records", "citation"] ==>
           name !in dv["metadataBlocks"].members
    ensures Export(input) == Ok(Cruise("", [], "", "", "", "", "", "", [], [], TermsOfAccess(input)))
  {
  }

  /** The failures before any attribute is read: an input that is not an
      object, a missing datasetVersion, a missing metadataBlocks. */
  lemma ExportEnvelopeFaults(input: Json)
    ensures !input.JObj? ==> Export(input) == Fail(ClassCast)
    ensures input.JObj? && "datasetVersion" !in input.members ==> Export(input) == Fail(NullPointer)
    ensures input.JObj? && "datasetVersion" in input.members && input.members["datasetVersion"].JObj?
            && "metadataBlocks" !in input.members["datasetVersion"].members
            ==> Export(input) == Fail(NullPointer)
  {
  }

  // ---------------------------------------------------------------------
  // Worked documents.

  function Field(typeName: string, value: Json): Json
  {
    JObj(map["typeName" := JStr(typeName), "value" := value])
  }

  function Block(fields: seq<Json>): Json
  {
    JObj(map["fields" := JArr(fields)])
  }

  function DocumentOf(blocks: map<string, Json>): Json
  {
    JObj(map["datasetVersion" := JObj(map["metadataBlocks" := JObj(blocks)])])
  }

  /** A cruise block alone: the id comes from the `cnumber` array, the
      vessel from `vessel_id`, and the rest defaults. */
  lemma CruiseOnlyDocument()
    ensures var doc := DocumentOf(map["cruise" := Block([
                          Field("cnumber", JArr([JStr("CR-100")])),
                          Field("vessel_id", JStr("V1"))])]);
      Export(doc) == Ok(Cruise("CR-100", [], "", "V1", "", "", "", "", [], [], "none"))
  {
  }

  /** Two award field-sets: only the first becomes an award. */
  lemma TwoAwardFieldSets(first: JsonObject, second: Json)
    ensures AwardsOf(Some(map["fields" := JArr([JObj(first), second])])) == Ok([AwardEntry(first)])
  {
  }

  /** One `person_n` field with two entries: two persons in source order,
      the institution read from `instituion_id`. */
  lemma TwoPersonsDocument()
    ensures var alice := JObj(map["person_name" := JStr("Alice"), "instituion_id" := JStr("I1"), "role" := JStr("PI")]);
      var bob := JObj(map["person_name" := JStr("Bob")]);
      PersonsOf(Some(map["fields" := JArr([Field("person_n", JArr([alice, bob]))])]))
        == Ok([Person("Alice", "Alice", "I1", "PI"), Person("Bob", "Bob", "", "")])
  {
    var alice := JObj(map["person_name" := JStr("Alice"), "instituion_id" := JStr("I1"), "role" := JStr("PI")]);
    var bob := JObj(map["person_name" := JStr("Bob")]);
    var fields := [Field("person_n", JArr([alice, bob]))];
    ScanPersonsMeaning(fields);
    assert PersonFieldReadable(fields[0]);
    assert PersonValues(fields) == [alice, bob];
    var block := map["fields" := JArr(fields)];
    assert PersonsOf(Some(block)) == ScanPersons(fields);
    assert PersonEntry(Members(alice)) == Person("Alice", "Alice", "I1", "PI");
    assert PersonEntry(Members(bob)) == Person("Bob", "Bob", "", "");
    var ps := ScanPersons(fields).value;
    assert |ps| == 2 && ps[0] == PersonEntry(Members(alice)) && ps[1] == PersonEntry(Members(bob));
    assert ps == [Person("Alice", "Alice", "I1", "PI"), Person("Bob", "Bob", "", "")];
  }

  // ---------------------------------------------------------------------
  // Reading the output document back.

  function ReadString(obj: JsonObject, key: string): Option<string>
  {
    if key in obj && obj[key].JStr? then Some(obj[key].str) else None
  }

  function ReadList<T>(elems: seq<Json>, read: Json -> Option<T>): Option<seq<T>>
  {
    if elems == [] then Some([])
    else
      var x :- read(elems[0]);
      var xs :- ReadList(elems[1..], read);
      Some([x] + xs)
  }

  function ReadScheduleRecord(j: Json): Option<ScheduleRecord>
  {
    var o := Members(j);
    var schedulerId :- ReadString(o, "scheduler_id");
    var schedulerCruiseId :- ReadString(o, "scheduler_cruise_id");
    Some(ScheduleRecord(schedulerId, schedulerCruiseId))
  }

  function ReadPerson(j: Json): Option<Person>
  {
    var o := Members(j);
    var id :- ReadString(o, "id");
    var name :- ReadString(o, "name");
    var institutionId :- ReadString(o, "institution_id");
    var role :- ReadString(o, "role");
    Some(Person(id, name, institutionId, role))
  }

  function ReadAward(j: Json): Option<Award>
  {
    var o := Members(j);
    var projectNumber :- ReadString(o, "project_number");
    var name :- ReadString(o, "name");
    var agencyId :- ReadString(o, "agency_id");
    var agencyDepartment :- ReadString(o, "agency_department");
    Some(Award(projectNumber, name, agencyId, agencyDepartment))
  }

  function ReadArray<T>(obj: JsonObject, key: string, read: Json -> Option<T>): Option<seq<T>>
  {
    if key in obj && obj[key].JArr? then ReadList(obj[key].elems, read) else None
  }

  /** Reads the members of a `cruise` object back into a record. */
  function ReadCruise(o: JsonObject): Option<Cruise>
  {
    var id :- ReadString(o, "id");
    var scheduleRecords :- ReadArray(o, "schedule_records", ReadScheduleRecord);
    var name :- ReadString(o, "name");
    var vesselId :- ReadString(o, "vessel_id");
    var departDate :- ReadString(o, "depart_date");
    var departPortId :- ReadString(o, "depart_port_id");
    var arriveDate :- ReadString(o, "arrive_date");
    var arrivePortId :- ReadString(o, "arrive_port_id");
    var persons :- ReadArray(o, "persons", ReadPerson);
    var awards :- ReadArray(o, "awards", ReadAward);
    var embargoes :- ReadString(o, "embargoes");
    Some(Cruise(id, scheduleRecords, name, vesselId, departDate, departPortId,
                arriveDate, arrivePortId, persons, awards, embargoes))
  }

  /** Reads `{"cruise": {...}}` back into a record. */
  function ReadEnvelope(doc: Json): Option<Cruise>
  {
    var root := Members(doc);
    if "cruise" in root then ReadCruise(Members(root["cruise"])) else None
  }

  lemma {:induction false} ReadListMapSeq<T>(s: seq<T>, write: T -> Json, read: Json -> Option<T>)
    requires forall x :: read(write(x)) == Some(x)
    ensures ReadList(MapSeq(s, write), read) == Some(s)
  {
    if s != [] {
      ReadListMapSeq(s[1..], write, read);
      assert MapSeq(s, write)[1..] == MapSeq(s[1..], write);
      assert [s[0]] + s[1..] == s;
    }
  }

  lemma CruiseObjectStrings(c: Cruise)
    ensures var o := CruiseObject(c);
      && ReadString(o, "id") == Some(c.id)
      && ReadString(o, "name") == Some(c.name)
      && ReadString(o, "vessel_id") == Some(c.vesselId)
      && ReadString(o, "depart_date") == Some(c.departDate)
      && ReadString(o, "depart_port_id") == Some(c.departPortId)
      && ReadString(o, "arrive_date") == Some(c.arriveDate)
      && ReadString(o, "arrive_port_id") == Some(c.arrivePortId)
      && ReadString(o, "embargoes") == Some(c.embargoes)
  {
  }

  lemma ScheduleRecordsRead(c: Cruise)
    ensures ReadArray(CruiseObject(c), "schedule_records", ReadScheduleRecord) == Some(c.scheduleRecords)
  {
    forall s: ScheduleRecord ensures ReadScheduleRecord(ScheduleRecordJson(s)) == Some(s) {
      var o := Members(ScheduleRecordJson(s));
      assert ReadString(o, "scheduler_id") == Some(s.schedulerId);
      assert ReadString(o, "scheduler_cruise_id") == Some(s.schedulerCruiseId);
    }
    ReadListMapSeq(c.scheduleRecords, ScheduleRecordJson, ReadScheduleRecord);
  }

  lemma PersonsRead(c: Cruise)
    ensures ReadArray(CruiseObject(c), "persons", ReadPerson) == Some(c.persons)
  {
    forall p: Person ensures ReadPerson(PersonJson(p)) == Some(p) {
      var o := Members(PersonJson(p));
      assert ReadString(o, "id") == Some(p.id);
      assert ReadString(o, "name") == Some(p.name);
      assert ReadString(o, "institution_id") == Some(p.institutionId);
      assert ReadString(o, "role") == Some(p.role);
    }
    ReadListMapSeq(c.persons, PersonJson, ReadPerson);
  }

  lemma AwardsRead(c: Cruise)
    ensures ReadArray(CruiseObject(c), "awards", ReadAward) == Some(c.awards)
  {
    forall a: Award ensures ReadAward(AwardJson(a)) == Some(a) {
      var o := Members(AwardJson(a));
      assert ReadString(o, "project_number") == Some(a.projectNumber);
      assert ReadString(o, "name") == Some(a.name);
      assert ReadString(o, "agency_id") == Some(a.agencyId);
      assert ReadString(o, "agency_department") == Some(a.agencyDepartment);
    }
    ReadListMapSeq(c.awards, AwardJson, ReadAward);
  }

  /** The built output document holds the whole record: every attribute and
      every entry of every array can be read back. */
  lemma EnvelopeRoundTrip(c: Cruise)
    ensures ReadEnvelope(Envelope(c)) == Some(c)
  {
    CruiseObjectStrings(c);
    ScheduleRecordsRead(c);
    PersonsRead(c);
    AwardsRead(c);
  }
}
