/** A patient (`patients`): the stored row and its `Gender` enum. The date of
    birth is a day number; the timestamps are not modelled. */
module PatientEntity {
  import opened Wrappers
  import opened Ascii

  datatype Gender = MALE | FEMALE | OTHER

  function GenderName(g: Gender): (n: string)
    ensures NoLowerCase(n)
  {
    match g
    case MALE => "MALE"
    case FEMALE => "FEMALE"
    case OTHER => "OTHER"
  }

  /** `Gender.valueOf(name.toUpperCase())`: an unknown name is refused. */
  function ParseGender(name: string): (r: Result<Gender>)
    ensures r.Ok? ==> GenderName(r.value) == UpperString(name)
    ensures r.Err? ==> r.error == InvalidEnum(name) && forall g :: GenderName(g) != UpperString(name)
  {
    var u := UpperString(name);
    if u == "MALE" then Ok(MALE)
    else if u == "FEMALE" then Ok(FEMALE)
    else if u == "OTHER" then Ok(OTHER)
    else Err(InvalidEnum(name))
  }

  /** A name is accepted as `g` exactly when it spells `g` in any case; the
      name a gender is shown with parses back to it. */
  lemma ParseGenderExactly(name: string, g: Gender)
    ensures ParseGender(name) == Ok(g) <==> UpperString(name) == GenderName(g)
    ensures ParseGender(GenderName(g)) == Ok(g) && ParseGender(LowerString(GenderName(g))) == Ok(g)
  {
    UpperOfName(GenderName(g));
  }

  /** A stored patient; the first four columns are `nullable = false`. */
  datatype PatientRow = PatientRow(
    firstName: string,
    lastName: string,
    email: string,
    phone: string,
    dateOfBirth: Option<int>,
    gender: Option<Gender>,
    address: Option<string>,
    bloodGroup: Option<string>,
    emergencyContact: Option<string>,
    medicalHistory: Option<string>,
    allergies: Option<string>,
    insuranceProvider: Option<string>,
    insurancePolicyNumber: Option<string>)

  /** The fields of the Java object; any of them may be null. */
  datatype PatientData = PatientData(
    firstName: Option<string>,
    lastName: Option<string>,
    email: Option<string>,
    phone: Option<string>,
    dateOfBirth: Option<int>,
    gender: Option<Gender>,
    address: Option<string>,
    bloodGroup: Option<string>,
    emergencyContact: Option<string>,
    medicalHistory: Option<string>,
    allergies: Option<string>,
    insuranceProvider: Option<string>,
    insurancePolicyNumber: Option<string>)

  predicate RequiredPresent(d: PatientData) {
    d.firstName.Some? && d.lastName.Some? && d.email.Some? && d.phone.Some?
  }

  /** A stored row read back as an object. */
  function Nullable(p: PatientRow): (d: PatientData)
    ensures RequiredPresent(d)
  {
    PatientData(Some(p.firstName), Some(p.lastName), Some(p.email), Some(p.phone), p.dateOfBirth,
      p.gender, p.address, p.bloodGroup, p.emergencyContact, p.medicalHistory, p.allergies,
      p.insuranceProvider, p.insurancePolicyNumber)
  }

  /** The insert or update: refused when a required column is null. */
  function ToRow(d: PatientData): (r: Result<PatientRow>)
    ensures r.Ok? <==> RequiredPresent(d)
    ensures r.Err? ==> r.error == NotNullViolation
    ensures r.Ok? ==> Nullable(r.value) == d
  {
    if !RequiredPresent(d) then Err(NotNullViolation)
    else Ok(PatientRow(d.firstName.value, d.lastName.value, d.email.value, d.phone.value, d.dateOfBirth,
      d.gender, d.address, d.bloodGroup, d.emergencyContact, d.medicalHistory, d.allergies,
      d.insuranceProvider, d.insurancePolicyNumber))
  }

  /** Unique constraint on `email`. */
  predicate EmailsUnique(t: map<int, PatientRow>) {
    forall i, j :: i in t && j in t && t[i].email == t[j].email ==> i == j
  }
}
