/**
 * The patient request and response schemas: which bodies each accepts and
 * the record it yields. `PatientCreate` adds nothing to `PatientBase`, so
 * it accepts the same bodies through `ParsePatientBase`. Keys a schema does
 * not declare are ignored.
 */
module PatientSchema {
  import opened Wrappers
  import opened SchemaValues

  const NameMax: nat := 100
  const ContactMax: nat := 20
  const AddressMax: nat := 500

  /** The gender pattern, anchored at both ends and case-sensitive. */
  predicate IsGender(s: string) {
    s == "male" || s == "female" || s == "other"
  }

  function Gender(o: RawObject): (r: Option<string>)
    ensures r.Some? <==> "gender" in o && o["gender"].RStr? && IsGender(o["gender"].s)
    ensures r.Some? ==> r.value == o["gender"].s
  {
    if "gender" in o && o["gender"].RStr? && IsGender(o["gender"].s) then Some(o["gender"].s) else None
  }

  function OptionalGender(o: RawObject): (r: Option<Option<string>>)
    ensures r == Some(None) <==> IsAbsent(o, "gender")
    ensures r.Some? && r.value.Some? <==> "gender" in o && o["gender"].RStr? && IsGender(o["gender"].s)
    ensures r.Some? && r.value.Some? ==> r.value.value == o["gender"].s
  {
    if IsAbsent(o, "gender") then Some(None) else if Gender(o).Some? then Some(Gender(o)) else None
  }

  datatype PatientBase = PatientBase(
    firstName: string,
    lastName: string,
    dateOfBirth: int,
    gender: string,
    contactNumber: Option<string>,
    email: Option<string>,
    address: Option<string>)

  /** The constraints every accepted patient record satisfies. */
  predicate ValidPatientBase(p: PatientBase) {
    && Within(p.firstName, 1, Some(NameMax))
    && Within(p.lastName, 1, Some(NameMax))
    && IsGender(p.gender)
    && (p.contactNumber.None? || |p.contactNumber.value| <= ContactMax)
    && (p.address.None? || |p.address.value| <= AddressMax)
  }

  /** `PatientBase` (and `PatientCreate`). */
  function ParsePatientBase(o: RawObject): (r: Option<PatientBase>)
    ensures r.Some? <==>
              && RequiredText(o, "first_name", 1, Some(NameMax)).Some?
              && RequiredText(o, "last_name", 1, Some(NameMax)).Some?
              && RequiredDate(o, "date_of_birth").Some?
              && Gender(o).Some?
              && OptionalText(o, "contact_number", 0, Some(ContactMax)).Some?
              && OptionalText(o, "email", 0, None).Some?
              && OptionalText(o, "address", 0, Some(AddressMax)).Some?
    ensures r.Some? ==> ValidPatientBase(r.value)
    ensures r.Some? ==> r.value.firstName == o["first_name"].s && r.value.lastName == o["last_name"].s
                        && o["date_of_birth"] == RDate(r.value.dateOfBirth) && r.value.gender == o["gender"].s
    ensures r.Some? ==> CarriesText(o, "contact_number", r.value.contactNumber) && CarriesText(o, "email", r.value.email)
                        && CarriesText(o, "address", r.value.address)
  {
    var firstName := RequiredText(o, "first_name", 1, Some(NameMax));
    var lastName := RequiredText(o, "last_name", 1, Some(NameMax));
    var dateOfBirth := RequiredDate(o, "date_of_birth");
    var gender := Gender(o);
    var contactNumber := OptionalText(o, "contact_number", 0, Some(ContactMax));
    var email := OptionalText(o, "email", 0, None);
    var address := OptionalText(o, "address", 0, Some(AddressMax));
    if firstName.Some? && lastName.Some? && dateOfBirth.Some? && gender.Some?
       && contactNumber.Some? && email.Some? && address.Some?
    then Some(PatientBase(firstName.value, lastName.value, dateOfBirth.value, gender.value,
                          contactNumber.value, email.value, address.value))
    else None
  }

  /** The required fields: a body missing a name, the birth date or the gender is refused. */
  lemma PatientBaseRequiredFields(o: RawObject)
    requires IsAbsent(o, "first_name") || IsAbsent(o, "last_name") || IsAbsent(o, "date_of_birth") || IsAbsent(o, "gender")
    ensures ParsePatientBase(o).None?
  {
  }

  /** Gender is matched exactly: any other spelling, a capitalised one included, is refused. */
  lemma GenderIsCaseSensitive(o: RawObject)
    requires "gender" in o && o["gender"] == RStr("Male")
    ensures ParsePatientBase(o).None?
  {
  }

  datatype PatientUpdate = PatientUpdate(
    firstName: Option<string>,
    lastName: Option<string>,
    dateOfBirth: Option<int>,
    gender: Option<string>,
    contactNumber: Option<string>,
    email: Option<string>,
    address: Option<string>)

  /** `PatientUpdate`: every field optional, the base bounds kept for those present. */
  function ParsePatientUpdate(o: RawObject): (r: Option<PatientUpdate>)
    ensures r.Some? <==>
              && OptionalText(o, "first_name", 1, Some(NameMax)).Some?
              && OptionalText(o, "last_name", 1, Some(NameMax)).Some?
              && OptionalDate(o, "date_of_birth").Some?
              && OptionalGender(o).Some?
              && OptionalText(o, "contact_number", 0, Some(ContactMax)).Some?
              && OptionalText(o, "email", 0, None).Some?
              && OptionalText(o, "address", 0, Some(AddressMax)).Some?
    ensures r.Some? ==>
              && (r.value.firstName.None? || Within(r.value.firstName.value, 1, Some(NameMax)))
              && (r.value.lastName.None? || Within(r.value.lastName.value, 1, Some(NameMax)))
              && (r.value.gender.None? || IsGender(r.value.gender.value))
    ensures r.Some? ==>
              && CarriesText(o, "first_name", r.value.firstName) && CarriesText(o, "last_name", r.value.lastName)
              && CarriesDate(o, "date_of_birth", r.value.dateOfBirth) && CarriesText(o, "gender", r.value.gender)
              && CarriesText(o, "contact_number", r.value.contactNumber) && CarriesText(o, "email", r.value.email)
              && CarriesText(o, "address", r.value.address)
  {
    var firstName := OptionalText(o, "first_name", 1, Some(NameMax));
    var lastName := OptionalText(o, "last_name", 1, Some(NameMax));
    var dateOfBirth := OptionalDate(o, "date_of_birth");
    var gender := OptionalGender(o);
    var contactNumber := OptionalText(o, "contact_number", 0, Some(ContactMax));
    var email := OptionalText(o, "email", 0, None);
    var address := OptionalText(o, "address", 0, Some(AddressMax));
    if firstName.Some? && lastName.Some? && dateOfBirth.Some? && gender.Some?
       && contactNumber.Some? && email.Some? && address.Some?
    then Some(PatientUpdate(firstName.value, lastName.value, dateOfBirth.value, gender.value,
                            contactNumber.value, email.value, address.value))
    else None
  }

  /** The empty body is a valid update that changes nothing. */
  lemma EmptyUpdateAccepted()
    ensures ParsePatientUpdate(map[]) == Some(PatientUpdate(None, None, None, None, None, None, None))
  {
  }

  /** Every body accepted as a full record is accepted as an update carrying the same values. */
  lemma BaseBodyIsValidUpdate(o: RawObject)
    requires ParsePatientBase(o).Some?
    ensures ParsePatientUpdate(o).Some?
    ensures var p := ParsePatientBase(o).value;
            ParsePatientUpdate(o).value == PatientUpdate(Some(p.firstName), Some(p.lastName), Some(p.dateOfBirth),
                                                         Some(p.gender), p.contactNumber, p.email, p.address)
  {
  }

  datatype Patient = Patient(base: PatientBase, id: int, isActive: bool)

  /** `Patient`: the base record plus the stored id and active flag. */
  function ParsePatient(o: RawObject): (r: Option<Patient>)
    ensures r.Some? <==> ParsePatientBase(o).Some? && RequiredInt(o, "id").Some? && RequiredBool(o, "is_active").Some?
    ensures r.Some? ==> Some(r.value.base) == ParsePatientBase(o)
                        && o["id"] == RInt(r.value.id) && o["is_active"] == RBool(r.value.isActive)
  {
    var base := ParsePatientBase(o);
    var id := RequiredInt(o, "id");
    var isActive := RequiredBool(o, "is_active");
    if base.Some? && id.Some? && isActive.Some? then Some(Patient(base.value, id.value, isActive.value)) else None
  }

  /** A body without an id (a create body, say) is not a patient response. */
  lemma ResponseNeedsId(o: RawObject)
    requires "id" !in o
    ensures ParsePatient(o).None?
  {
  }
}
