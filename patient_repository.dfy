/** `PatientRepository`: the e-mail finders, the name search and the blood
    group finder over `patients`. */
module PatientRepository {
  import opened Wrappers
  import opened Ascii
  import opened Store
  import opened PatientEntity

  type Patients = map<int, PatientRow>

  /** `findByEmail`. A null e-mail matches no row, the column being not null. */
  ghost function FindByEmail(t: Patients, email: Option<string>): (r: Result<Option<int>>)
    ensures r == Ok(None) <==> forall id :: id in t ==> !(Some(t[id].email) == email)
    ensures r.Ok? && r.value.Some? ==>
      r.value.value in t && Some(t[r.value.value].email) == email && forall id :: id in t && Some(t[id].email) == email ==> id == r.value.value
    ensures r.Err? ==>
      r.error == NonUniqueResult && exists i, j :: i in t && j in t && i != j && Some(t[i].email) == email && Some(t[j].email) == email
  {
    FindOne(t, (p: PatientRow) => Some(p.email) == email)
  }

  /** `existsByEmail`. */
  predicate ExistsByEmail(t: Patients, email: Option<string>) {
    exists id :: id in t && Some(t[id].email) == email
  }

  /** `existsByEmail` holds exactly when `findByEmail` finds a patient, and
      with unique e-mails the finder finds at most one. */
  lemma ExistsIffFound(t: Patients, email: Option<string>)
    requires EmailsUnique(t)
    ensures FindByEmail(t, email).Ok?
    ensures ExistsByEmail(t, email) <==> FindByEmail(t, email).value.Some?
  {
  }

  /** `searchByName`: patients whose first or last name contains `name`,
      ignoring case. */
  function SearchByName(t: Patients, name: string): (r: Patients)
    ensures SelectionOf(r, t)
    ensures forall id :: id in t ==> (id in r <==>
      ContainsIgnoringCase(Some(t[id].firstName), name) || ContainsIgnoringCase(Some(t[id].lastName), name))
  {
    Where(t, (p: PatientRow) =>
      ContainsIgnoringCase(Some(p.firstName), name) || ContainsIgnoringCase(Some(p.lastName), name))
  }

  /** `findByBloodGroup`: an exact match; a patient without a blood group is
      never found. */
  function FindByBloodGroup(t: Patients, bloodGroup: string): (r: Patients)
    ensures SelectionOf(r, t)
    ensures forall id :: id in t ==> (id in r <==> t[id].bloodGroup == Some(bloodGroup))
  {
    Where(t, (p: PatientRow) => p.bloodGroup == Some(bloodGroup))
  }

  /** An empty name matches every patient. */
  lemma SearchEmptyNameFindsAll(t: Patients)
    ensures SearchByName(t, "") == t
  {
    forall id | id in t
      ensures id in SearchByName(t, "")
    {
      EmptyKeywordMatches(t[id].firstName);
    }
  }
}
