/** `PatientService`: patient records. The service owns the `patients` table;
    creation, update and deletion each run as one transaction, so a failure
    leaves the table as it was. `LocalDate.parse` and `LocalDate.toString`
    are inputs: `parse` gives the day number of an ISO date text, or nothing
    when the text is not a date. */
module PatientService {
  import opened Wrappers
  import opened Ascii
  import opened Store
  import opened Time
  import opened PatientEntity
  import opened PatientRepository

  /** A `PatientDTO`, as it arrives and as it is sent back. */
  datatype PatientDto = PatientDto(
    id: Option<int>,
    firstName: Option<string>,
    lastName: Option<string>,
    email: Option<string>,
    phone: Option<string>,
    dateOfBirth: Option<string>,
    gender: Option<string>,
    address: Option<string>,
    bloodGroup: Option<string>,
    emergencyContact: Option<string>,
    medicalHistory: Option<string>)

  /** `Gender.valueOf` on an optional text: null stays null. */
  function ParseOptionalGender(text: Option<string>): (r: Result<Option<Gender>>)
    ensures text.None? ==> r == Ok(None)
    ensures text.Some? ==> (r.Ok? <==> ParseGender(text.value).Ok?)
    ensures text.Some? && r.Ok? ==> r.value == Some(ParseGender(text.value).value)
    ensures r.Err? ==> r.error == InvalidEnum(text.value)
  {
    if text.None? then Ok(None)
    else match ParseGender(text.value)
      case Err(e) => Err(e)
      case Ok(g) => Ok(Some(g))
  }

  /** `toEntity`: the eight text fields copied as given, nulls included, then
      the date of birth and the gender parsed when present, in that order. */
  function ToEntity(dto: PatientDto, parse: string -> Option<int>): (r: Result<PatientData>)
    ensures r.Ok? <==> ParseDate(dto.dateOfBirth, parse).Ok? && ParseOptionalGender(dto.gender).Ok?
    ensures ParseDate(dto.dateOfBirth, parse).Err? ==> r == Err(ParseDate(dto.dateOfBirth, parse).error)
    ensures r.Ok? ==>
      r.value.firstName == dto.firstName && r.value.lastName == dto.lastName &&
      r.value.email == dto.email && r.value.phone == dto.phone && r.value.address == dto.address &&
      r.value.bloodGroup == dto.bloodGroup && r.value.emergencyContact == dto.emergencyContact &&
      r.value.medicalHistory == dto.medicalHistory &&
      r.value.dateOfBirth == ParseDate(dto.dateOfBirth, parse).value &&
      r.value.gender == ParseOptionalGender(dto.gender).value &&
      r.value.allergies.None? && r.value.insuranceProvider.None? && r.value.insurancePolicyNumber.None?
  {
    match ParseDate(dto.dateOfBirth, parse)
    case Err(e) => Err(e)
    case Ok(dob) =>
      match ParseOptionalGender(dto.gender)
      case Err(e) => Err(e)
      case Ok(gender) =>
        Ok(PatientData(dto.firstName, dto.lastName, dto.email, dto.phone, dob, gender, dto.address,
          dto.bloodGroup, dto.emergencyContact, dto.medicalHistory, None, None, None))
  }

  /** `toDTO`: the date printed by `format`, the gender by name. */
  function ToDto(id: int, p: PatientRow, format: int -> string): (v: PatientDto)
    ensures v.id == Some(id)
    ensures v.firstName == Some(p.firstName) && v.lastName == Some(p.lastName)
    ensures v.email == Some(p.email) && v.phone == Some(p.phone)
    ensures v.address == p.address && v.bloodGroup == p.bloodGroup
    ensures v.emergencyContact == p.emergencyContact && v.medicalHistory == p.medicalHistory
    ensures v.dateOfBirth.Some? <==> p.dateOfBirth.Some?
    ensures p.dateOfBirth.Some? ==> v.dateOfBirth == Some(format(p.dateOfBirth.value))
    ensures v.gender.Some? <==> p.gender.Some?
    ensures p.gender.Some? ==> v.gender == Some(GenderName(p.gender.value))
    ensures p.gender.Some? ==> ParseGender(v.gender.value) == Ok(p.gender.value)
  {
    var gender :=
      if p.gender.Some? then
        ParseGenderExactly(GenderName(p.gender.value), p.gender.value);
        Some(GenderName(p.gender.value))
      else None;
    PatientDto(Some(id), Some(p.firstName), Some(p.lastName), Some(p.email), Some(p.phone),
      if p.dateOfBirth.Some? then Some(format(p.dateOfBirth.value)) else None, gender,
      p.address, p.bloodGroup, p.emergencyContact, p.medicalHistory)
  }

  /** Storing a DTO and reading it back gives the same names, e-mail, phone,
      address, blood group, emergency contact and medical history; a gender
      comes back upper-cased. */
  lemma ToDtoToEntity(dto: PatientDto, parse: string -> Option<int>, format: int -> string, id: int)
    requires ToEntity(dto, parse).Ok? && ToRow(ToEntity(dto, parse).value).Ok?
    ensures var v := ToDto(id, ToRow(ToEntity(dto, parse).value).value, format);
      v.firstName == dto.firstName && v.lastName == dto.lastName && v.email == dto.email &&
      v.phone == dto.phone && v.address == dto.address && v.bloodGroup == dto.bloodGroup &&
      v.emergencyContact == dto.emergencyContact && v.medicalHistory == dto.medicalHistory &&
      (v.gender.Some? <==> dto.gender.Some?) &&
      (dto.gender.Some? ==> v.gender == Some(UpperString(dto.gender.value)))
  {
    var row := ToRow(ToEntity(dto, parse).value).value;
    assert Nullable(row) == ToEntity(dto, parse).value;
  }

  /** What `updatePatient` makes of a stored row: seven fields overwritten
      from the DTO, nulls included; the date of birth and the gender only
      when given; the e-mail, allergies and insurance never. The save refuses
      a null name or phone. */
  function UpdateOutcome(p: PatientRow, dto: PatientDto, parse: string -> Option<int>): (r: Result<PatientRow>)
    ensures r.Ok? <==>
      ParseDate(dto.dateOfBirth, parse).Ok? && ParseOptionalGender(dto.gender).Ok? &&
      dto.firstName.Some? && dto.lastName.Some? && dto.phone.Some?
    ensures r.Ok? ==>
      r.value.email == p.email && r.value.allergies == p.allergies &&
      r.value.insuranceProvider == p.insuranceProvider && r.value.insurancePolicyNumber == p.insurancePolicyNumber
    ensures r.Ok? ==>
      Some(r.value.firstName) == dto.firstName && Some(r.value.lastName) == dto.lastName &&
      Some(r.value.phone) == dto.phone && r.value.address == dto.address &&
      r.value.bloodGroup == dto.bloodGroup && r.value.emergencyContact == dto.emergencyContact &&
      r.value.medicalHistory == dto.medicalHistory
    ensures r.Ok? ==>
      r.value.dateOfBirth == (if dto.dateOfBirth.Some? then parse(dto.dateOfBirth.value) else p.dateOfBirth) &&
      r.value.gender == (if dto.gender.Some? then Some(ParseGender(dto.gender.value).value) else p.gender)
  {
    var d := Nullable(p).(firstName := dto.firstName, lastName := dto.lastName, phone := dto.phone,
      address := dto.address, bloodGroup := dto.bloodGroup, emergencyContact := dto.emergencyContact,
      medicalHistory := dto.medicalHistory);
    match ParseDate(dto.dateOfBirth, parse)
    case Err(e) => Err(e)
    case Ok(dob) =>
      var d := if dob.Some? then d.(dateOfBirth := dob) else d;
      match ParseOptionalGender(dto.gender)
      case Err(e) => Err(e)
      case Ok(gender) =>
        var d := if gender.Some? then d.(gender := gender) else d;
        ToRow(d)
  }

  /** Sending back a patient as it was read leaves the stored row as it was,
      when the printed date parses back to the same day. */
  lemma UpdateWithOwnDto(id: int, p: PatientRow, parse: string -> Option<int>, format: int -> string)
    requires p.dateOfBirth.Some? ==> parse(format(p.dateOfBirth.value)) == p.dateOfBirth
    ensures UpdateOutcome(p, ToDto(id, p, format), parse) == Ok(p)
  {
    var v := ToDto(id, p, format);
    if p.gender.Some? {
      ParseGenderExactly(GenderName(p.gender.value), p.gender.value);
    }
    var r := UpdateOutcome(p, v, parse);
    assert r.Ok?;
    assert r.value == p;
  }

  class PatientService {
    var patients: Patients
    var nextId: int

    ghost predicate Valid()
      reads this
    {
      EmailsUnique(patients) && forall id :: id in patients ==> id < nextId
    }

    constructor ()
      ensures Valid() && patients == map[]
    {
      patients, nextId := map[], 1;
    }

    /** `getAllPatients`. */
    function GetAllPatients(format: int -> string): (r: map<int, PatientDto>)
      reads this
      ensures r.Keys == patients.Keys
      ensures forall id :: id in r ==> r[id] == ToDto(id, patients[id], format)
    {
      map id | id in patients :: ToDto(id, patients[id], format)
    }

    /** `getPatientById`. */
    function GetPatientById(id: int, format: int -> string): (r: Result<PatientDto>)
      reads this
      ensures r.Ok? <==> id in patients
      ensures r.Ok? ==> r.value == ToDto(id, patients[id], format)
      ensures r.Err? ==> r.error == NotFound("Patient")
    {
      if id in patients then Ok(ToDto(id, patients[id], format)) else Err(NotFound("Patient"))
    }

    /** `searchPatients`. */
    function SearchPatients(name: string, format: int -> string): (r: map<int, PatientDto>)
      reads this
      ensures forall id :: id in r <==> (id in patients &&
        (ContainsIgnoringCase(Some(patients[id].firstName), name) ||
         ContainsIgnoringCase(Some(patients[id].lastName), name)))
      ensures forall id :: id in r ==> r[id] == ToDto(id, patients[id], format)
    {
      var found := SearchByName(patients, name);
      map id | id in found :: ToDto(id, found[id], format)
    }

    /** `createPatient`: an e-mail already on file is refused before anything
        is built. */
    method CreatePatient(dto: PatientDto, parse: string -> Option<int>, format: int -> string)
      returns (r: Result<PatientDto>)
      requires Valid()
      modifies this
      ensures Valid()
      ensures ExistsByEmail(old(patients), dto.email) ==>
        r == Err(BadRequest("Patient with this email already exists")) &&
        patients == old(patients) && nextId == old(nextId)
      ensures !ExistsByEmail(old(patients), dto.email) ==>
        match ToEntity(dto, parse)
        case Err(e) => r == Err(e) && patients == old(patients) && nextId == old(nextId)
        case Ok(d) =>
          match ToRow(d)
          case Err(e) => r == Err(e) && patients == old(patients) && nextId == old(nextId)
          case Ok(row) =>
            old(nextId) !in old(patients) && patients == old(patients)[old(nextId) := row] &&
            nextId == old(nextId) + 1 && r == Ok(ToDto(old(nextId), row, format))
    {
      if ExistsByEmail(patients, dto.email) {
        return Err(BadRequest("Patient with this email already exists"));
      }
      var entity := ToEntity(dto, parse);
      if entity.Err? {
        return Err(entity.error);
      }
      var saved := ToRow(entity.value);
      if saved.Err? {
        return Err(saved.error);
      }
      var row := saved.value;
      assert Some(row.email) == dto.email;
      patients := patients[nextId := row];
      r := Ok(ToDto(nextId, row, format));
      nextId := nextId + 1;
    }

    /** `updatePatient`. */
    method UpdatePatient(id: int, dto: PatientDto, parse: string -> Option<int>, format: int -> string)
      returns (r: Result<PatientDto>)
      requires Valid()
      modifies this
      ensures Valid() && nextId == old(nextId)
      ensures id !in old(patients) ==> r == Err(NotFound("Patient")) && patients == old(patients)
      ensures id in old(patients) ==>
        match UpdateOutcome(old(patients)[id], dto, parse)
        case Err(e) => r == Err(e) && patients == old(patients)
        case Ok(row) => patients == old(patients)[id := row] && r == Ok(ToDto(id, row, format))
    {
      if id !in patients {
        return Err(NotFound("Patient"));
      }
      var updated := UpdateOutcome(patients[id], dto, parse);
      if updated.Err? {
        return Err(updated.error);
      }
      var row := updated.value;
      assert row.email == patients[id].email;
      patients := patients[id := row];
      r := Ok(ToDto(id, row, format));
    }

    /** `deletePatient`: the row is removed, and no other. */
    method DeletePatient(id: int) returns (o: Outcome)
      requires Valid()
      modifies this
      ensures Valid() && nextId == old(nextId)
      ensures id !in old(patients) ==> o == Fail(NotFound("Patient")) && patients == old(patients)
      ensures id in old(patients) ==> o == Done && patients == old(patients) - {id}
    {
      if id !in patients {
        return Fail(NotFound("Patient"));
      }
      patients := patients - {id};
      o := Done;
    }
  }
}
