/**
 * The health-record and treatment request and response schemas: which
 * bodies each accepts and the record it yields. `TreatmentCreate` adds
 * nothing to `TreatmentBase`, so it accepts the same bodies through
 * `ParseTreatmentBase`. Keys a schema does not declare are ignored.
 */
module HealthRecordSchema {
  import opened Wrappers
  import opened SchemaValues

  const TextMax: nat := 200

  datatype RecordType = General | Diagnosis | Treatment | LabResult | Prescription

  /** The enumeration's values. */
  function RecordTypeValue(t: RecordType): string {
    match t
    case General => "general"
    case Diagnosis => "diagnosis"
    case Treatment => "treatment"
    case LabResult => "lab_result"
    case Prescription => "prescription"
  }

  /** The record type a string names, if any. */
  function ParseRecordType(s: string): (r: Option<RecordType>)
    ensures r.Some? ==> RecordTypeValue(r.value) == s
    ensures r.None? ==> forall t: RecordType :: RecordTypeValue(t) != s
  {
    if s == "general" then Some(General)
    else if s == "diagnosis" then Some(Diagnosis)
    else if s == "treatment" then Some(Treatment)
    else if s == "lab_result" then Some(LabResult)
    else if s == "prescription" then Some(Prescription)
    else None
  }

  /** Every record type is read back from its value. */
  lemma RecordTypeRoundTrip(t: RecordType)
    ensures ParseRecordType(RecordTypeValue(t)) == Some(t)
  {
  }

  datatype TreatmentBase = TreatmentBase(
    name: string,
    description: string,
    providerName: string,
    startDate: int,
    endDate: Option<int>,
    notes: Option<string>)

  /** `TreatmentBase` (and `TreatmentCreate`). */
  function ParseTreatmentBase(o: RawObject): (r: Option<TreatmentBase>)
    ensures r.Some? <==>
              && RequiredText(o, "name", 1, Some(TextMax)).Some?
              && RequiredText(o, "description", 0, None).Some?
              && RequiredText(o, "provider_name", 1, Some(TextMax)).Some?
              && RequiredDateTime(o, "start_date").Some?
              && OptionalDateTime(o, "end_date").Some?
              && OptionalText(o, "notes", 0, None).Some?
    ensures r.Some? ==> Within(r.value.name, 1, Some(TextMax)) && Within(r.value.providerName, 1, Some(TextMax))
    ensures r.Some? ==> o["name"] == RStr(r.value.name) && o["description"] == RStr(r.value.description)
                        && o["provider_name"] == RStr(r.value.providerName) && o["start_date"] == RDateTime(r.value.startDate)
                        && CarriesDateTime(o, "end_date", r.value.endDate) && CarriesText(o, "notes", r.value.notes)
  {
    var name := RequiredText(o, "name", 1, Some(TextMax));
    var description := RequiredText(o, "description", 0, None);
    var providerName := RequiredText(o, "provider_name", 1, Some(TextMax));
    var startDate := RequiredDateTime(o, "start_date");
    var endDate := OptionalDateTime(o, "end_date");
    var notes := OptionalText(o, "notes", 0, None);
    if name.Some? && description.Some? && providerName.Some? && startDate.Some? && endDate.Some? && notes.Some?
    then Some(TreatmentBase(name.value, description.value, providerName.value, startDate.value, endDate.value, notes.value))
    else None
  }

  /** A treatment without a description or a start date is refused; notes and end date may be left out. */
  lemma TreatmentRequiredFields(o: RawObject)
    ensures IsAbsent(o, "description") || IsAbsent(o, "start_date") ==> ParseTreatmentBase(o).None?
    ensures ParseTreatmentBase(o).Some? ==>
              ParseTreatmentBase(o - {"notes", "end_date"}) == Some(ParseTreatmentBase(o).value.(endDate := None, notes := None))
  {
    if ParseTreatmentBase(o).Some? {
      var o' := o - {"notes", "end_date"};
      assert RequiredText(o', "name", 1, Some(TextMax)) == RequiredText(o, "name", 1, Some(TextMax));
      assert RequiredText(o', "description", 0, None) == RequiredText(o, "description", 0, None);
      assert RequiredText(o', "provider_name", 1, Some(TextMax)) == RequiredText(o, "provider_name", 1, Some(TextMax));
      assert RequiredDateTime(o', "start_date") == RequiredDateTime(o, "start_date");
    }
  }

  datatype TreatmentRecord = TreatmentRecord(base: TreatmentBase, id: int, healthRecordId: int, status: string)

  /** `Treatment`: the base record plus the stored ids and status. */
  function ParseTreatment(o: RawObject): (r: Option<TreatmentRecord>)
    ensures r.Some? <==> ParseTreatmentBase(o).Some? && RequiredInt(o, "id").Some?
                         && RequiredInt(o, "health_record_id").Some? && RequiredText(o, "status", 0, None).Some?
    ensures r.Some? ==> Some(r.value.base) == ParseTreatmentBase(o)
                        && o["id"] == RInt(r.value.id) && o["health_record_id"] == RInt(r.value.healthRecordId)
                        && o["status"] == RStr(r.value.status)
  {
    var base := ParseTreatmentBase(o);
    var id := RequiredInt(o, "id");
    var healthRecordId := RequiredInt(o, "health_record_id");
    var status := RequiredText(o, "status", 0, None);
    if base.Some? && id.Some? && healthRecordId.Some? && status.Some?
    then Some(TreatmentRecord(base.value, id.value, healthRecordId.value, status.value))
    else None
  }

  /** A list field whose elements are objects parsed by `parse`; `None` when any element is refused. */
  function ParseList<T>(items: seq<Raw>, parse: RawObject -> Option<T>): (r: Option<seq<T>>)
    ensures r.Some? <==> forall i :: 0 <= i < |items| ==> items[i].RObject? && parse(items[i].fields).Some?
    ensures r.Some? ==> |r.value| == |items|
                        && forall i :: 0 <= i < |items| ==> Some(r.value[i]) == parse(items[i].fields)
  {
    if items == [] then Some([])
    else if !items[0].RObject? then None
    else
      var head := parse(items[0].fields);
      var tail := ParseList(items[1..], parse);
      assert forall i :: 1 <= i < |items| ==> items[i] == items[1..][i - 1];
      if head.Some? && tail.Some? then Some([head.value] + tail.value) else None
  }

  datatype HealthRecordBase = HealthRecordBase(
    recordType: RecordType,
    title: string,
    description: string,
    dateOfRecord: int,
    providerName: Option<string>,
    notes: Option<string>)

  function RecordTypeField(o: RawObject): (r: Option<RecordType>)
    ensures r.Some? <==> "record_type" in o && o["record_type"].RStr? && ParseRecordType(o["record_type"].s).Some?
    ensures r.Some? ==> o["record_type"] == RStr(RecordTypeValue(r.value))
  {
    if "record_type" in o && o["record_type"].RStr? then ParseRecordType(o["record_type"].s) else None
  }

  /** `HealthRecordBase`. */
  function ParseHealthRecordBase(o: RawObject): (r: Option<HealthRecordBase>)
    ensures r.Some? <==>
              && RecordTypeField(o).Some?
              && RequiredText(o, "title", 1, Some(TextMax)).Some?
              && RequiredText(o, "description", 0, None).Some?
              && RequiredDateTime(o, "date_of_record").Some?
              && OptionalText(o, "provider_name", 0, Some(TextMax)).Some?
              && OptionalText(o, "notes", 0, None).Some?
    ensures r.Some? ==> Within(r.value.title, 1, Some(TextMax))
                        && (r.value.providerName.None? || |r.value.providerName.value| <= TextMax)
    ensures r.Some? ==> o["record_type"] == RStr(RecordTypeValue(r.value.recordType))
                        && o["title"] == RStr(r.value.title) && o["description"] == RStr(r.value.description)
                        && o["date_of_record"] == RDateTime(r.value.dateOfRecord)
                        && CarriesText(o, "provider_name", r.value.providerName) && CarriesText(o, "notes", r.value.notes)
  {
    var recordType := RecordTypeField(o);
    var title := RequiredText(o, "title", 1, Some(TextMax));
    var description := RequiredText(o, "description", 0, None);
    var dateOfRecord := RequiredDateTime(o, "date_of_record");
    var providerName := OptionalText(o, "provider_name", 0, Some(TextMax));
    var notes := OptionalText(o, "notes", 0, None);
    if recordType.Some? && title.Some? && description.Some? && dateOfRecord.Some? && providerName.Some? && notes.Some?
    then Some(HealthRecordBase(recordType.value, title.value, description.value, dateOfRecord.value,
                               providerName.value, notes.value))
    else None
  }

  datatype HealthRecordCreate = HealthRecordCreate(base: HealthRecordBase, treatments: Option<seq<TreatmentBase>>)

  /** The optional `treatments` list of a create body: absent, or a list of valid treatments. */
  function CreateTreatments(o: RawObject): (r: Option<Option<seq<TreatmentBase>>>)
    ensures r == Some(None) <==> IsAbsent(o, "treatments")
    ensures r.Some? && r.value.Some? <==>
              "treatments" in o && o["treatments"].RList? && ParseList(o["treatments"].items, ParseTreatmentBase).Some?
  {
    if IsAbsent(o, "treatments") then Some(None)
    else if o["treatments"].RList? then
      match ParseList(o["treatments"].items, ParseTreatmentBase)
      case Some(ts) => Some(Some(ts))
      case None => None
    else None
  }

  /** `HealthRecordCreate`. */
  function ParseHealthRecordCreate(o: RawObject): (r: Option<HealthRecordCreate>)
    ensures r.Some? <==> ParseHealthRecordBase(o).Some? && CreateTreatments(o).Some?
    ensures r.Some? ==> Some(r.value.base) == ParseHealthRecordBase(o)
    ensures r.Some? && r.value.treatments.Some? ==>
              "treatments" in o && o["treatments"].RList? &&
              var items := o["treatments"].items;
              |r.value.treatments.value| == |items|
              && forall i :: 0 <= i < |items| ==> Some(r.value.treatments.value[i]) == ParseTreatmentBase(items[i].fields)
  {
    var base := ParseHealthRecordBase(o);
    var treatments := CreateTreatments(o);
    if base.Some? && treatments.Some? then Some(HealthRecordCreate(base.value, treatments.value)) else None
  }

  /** One refused treatment refuses the whole record. */
  lemma CreateRefusesInvalidTreatment(o: RawObject, i: nat)
    requires "treatments" in o && o["treatments"].RList? && i < |o["treatments"].items|
    requires var item := o["treatments"].items[i]; !item.RObject? || ParseTreatmentBase(item.fields).None?
    ensures ParseHealthRecordCreate(o).None?
  {
  }

  datatype HealthRecordUpdate = HealthRecordUpdate(
    title: Option<string>,
    description: Option<string>,
    providerName: Option<string>,
    notes: Option<string>)

  const UpdateKeys: set<string> := {"title", "description", "provider_name", "notes"}

  /** `HealthRecordUpdate`: four optional fields, the bounds kept for those present. */
  function ParseHealthRecordUpdate(o: RawObject): (r: Option<HealthRecordUpdate>)
    ensures r.Some? <==>
              && OptionalText(o, "title", 1, Some(TextMax)).Some?
              && OptionalText(o, "description", 0, None).Some?
              && OptionalText(o, "provider_name", 0, Some(TextMax)).Some?
              && OptionalText(o, "notes", 0, None).Some?
    ensures r.Some? ==> (r.value.title.None? || Within(r.value.title.value, 1, Some(TextMax)))
                        && (r.value.providerName.None? || |r.value.providerName.value| <= TextMax)
    ensures r.Some? ==> CarriesText(o, "title", r.value.title) && CarriesText(o, "description", r.value.description)
                        && CarriesText(o, "provider_name", r.value.providerName) && CarriesText(o, "notes", r.value.notes)
  {
    var title := OptionalText(o, "title", 1, Some(TextMax));
    var description := OptionalText(o, "description", 0, None);
    var providerName := OptionalText(o, "provider_name", 0, Some(TextMax));
    var notes := OptionalText(o, "notes", 0, None);
    if title.Some? && description.Some? && providerName.Some? && notes.Some?
    then Some(HealthRecordUpdate(title.value, description.value, providerName.value, notes.value))
    else None
  }

  /**
   * An update depends only on its four fields: whatever a body says about
   * the record type, the record date or anything else makes no difference.
   */
  lemma {:induction false} UpdateIgnoresOtherKeys(o: RawObject, o': RawObject)
    requires AgreeOn(o, o', UpdateKeys)
    ensures ParseHealthRecordUpdate(o) == ParseHealthRecordUpdate(o')
  {
    assert OptionalText(o, "title", 1, Some(TextMax)) == OptionalText(o', "title", 1, Some(TextMax));
    assert OptionalText(o, "description", 0, None) == OptionalText(o', "description", 0, None);
    assert OptionalText(o, "provider_name", 0, Some(TextMax)) == OptionalText(o', "provider_name", 0, Some(TextMax));
    assert OptionalText(o, "notes", 0, None) == OptionalText(o', "notes", 0, None);
  }

  /** In particular a change of record type or date rides on no update. */
  lemma UpdateCannotChangeTypeOrDate(o: RawObject, recordType: Raw, dateOfRecord: Raw)
    ensures ParseHealthRecordUpdate(o["record_type" := recordType]["date_of_record" := dateOfRecord])
         == ParseHealthRecordUpdate(o - {"record_type", "date_of_record"})
  {
    UpdateIgnoresOtherKeys(o["record_type" := recordType]["date_of_record" := dateOfRecord], o - {"record_type", "date_of_record"});
  }

  datatype HealthRecord = HealthRecord(base: HealthRecordBase, id: int, patientId: int, treatments: seq<TreatmentRecord>)

  /** The `treatments` list of a response: defaulted to empty when left out; `null` is refused. */
  function ResponseTreatments(o: RawObject): (r: Option<seq<TreatmentRecord>>)
    ensures "treatments" !in o ==> r == Some([])
    ensures "treatments" in o && !o["treatments"].RList? ==> r.None?
    ensures "treatments" in o && o["treatments"].RList? ==>
              var items := o["treatments"].items;
              && (r.Some? <==> forall i :: 0 <= i < |items| ==> items[i].RObject? && ParseTreatment(items[i].fields).Some?)
              && (r.Some? ==> |r.value| == |items|
                              && forall i :: 0 <= i < |items| ==> Some(r.value[i]) == ParseTreatment(items[i].fields))
  {
    if "treatments" !in o then Some([])
    else if o["treatments"].RList? then ParseList(o["treatments"].items, ParseTreatment)
    else None
  }

  /** `HealthRecord`: the base record plus the stored ids and treatments. */
  function ParseHealthRecord(o: RawObject): (r: Option<HealthRecord>)
    ensures r.Some? <==> ParseHealthRecordBase(o).Some? && RequiredInt(o, "id").Some?
                         && RequiredInt(o, "patient_id").Some? && ResponseTreatments(o).Some?
    ensures r.Some? ==> Some(r.value.base) == ParseHealthRecordBase(o)
                        && o["id"] == RInt(r.value.id) && o["patient_id"] == RInt(r.value.patientId)
    ensures r.Some? && "treatments" !in o ==> r.value.treatments == []
    ensures r.Some? ==> Some(r.value.treatments) == ResponseTreatments(o)
  {
    var base := ParseHealthRecordBase(o);
    var id := RequiredInt(o, "id");
    var patientId := RequiredInt(o, "patient_id");
    var treatments := ResponseTreatments(o);
    if base.Some? && id.Some? && patientId.Some? && treatments.Some?
    then Some(HealthRecord(base.value, id.value, patientId.value, treatments.value))
    else None
  }
}
