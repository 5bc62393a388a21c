/** `PrescriptionRepository`: derived equality finders over `prescriptions`. */
module PrescriptionRepository {
  import opened Wrappers
  import opened Store
  import opened PrescriptionEntity

  type Prescriptions = map<int, PrescriptionRow>

  /** `findByPrescriptionNumber`. */
  ghost function FindByPrescriptionNumber(t: Prescriptions, number: string): (r: Result<Option<int>>)
    ensures r == Ok(None) <==> forall id :: id in t ==> !(t[id].prescriptionNumber == number)
    ensures r.Ok? && r.value.Some? ==>
      r.value.value in t && t[r.value.value].prescriptionNumber == number && forall id :: id in t && t[id].prescriptionNumber == number ==> id == r.value.value
    ensures r.Err? ==>
      r.error == NonUniqueResult && exists i, j :: i in t && j in t && i != j && t[i].prescriptionNumber == number && t[j].prescriptionNumber == number
  {
    FindOne(t, (p: PrescriptionRow) => p.prescriptionNumber == number)
  }

  /** The unique number makes the finder unambiguous. */
  lemma FindByNumberUnique(t: Prescriptions, number: string)
    requires NumbersUnique(t)
    ensures FindByPrescriptionNumber(t, number).Ok?
  {
  }

  /** `findByPatientId`. */
  function FindByPatientId(t: Prescriptions, patientId: int): (r: Prescriptions)
    ensures SelectionOf(r, t)
    ensures forall id :: id in t ==> (id in r <==> t[id].patientId == patientId)
  {
    Where(t, (p: PrescriptionRow) => p.patientId == patientId)
  }

  /** `findByDoctorId`. */
  function FindByDoctorId(t: Prescriptions, doctorId: int): (r: Prescriptions)
    ensures SelectionOf(r, t)
    ensures forall id :: id in t ==> (id in r <==> t[id].doctorId == doctorId)
  {
    Where(t, (p: PrescriptionRow) => p.doctorId == doctorId)
  }

  /** `findByStatus`. */
  function FindByStatus(t: Prescriptions, status: Status): (r: Prescriptions)
    ensures SelectionOf(r, t)
    ensures forall id :: id in t ==> (id in r <==> t[id].status == status)
  {
    Where(t, (p: PrescriptionRow) => p.status == status)
  }

  /** `findByPatientIdAndStatus`: what the patient and status finders both return. */
  function FindByPatientIdAndStatus(t: Prescriptions, patientId: int, status: Status): (r: Prescriptions)
    ensures SelectionOf(r, t)
    ensures forall id :: id in r <==> id in FindByPatientId(t, patientId) && id in FindByStatus(t, status)
  {
    Where(t, (p: PrescriptionRow) => p.patientId == patientId && p.status == status)
  }

  /** Every prescription has exactly one status, so the status finders split the
      table: two different statuses never share a row. */
  lemma StatusesDisjoint(t: Prescriptions, s1: Status, s2: Status)
    requires s1 != s2
    ensures forall id :: !(id in FindByStatus(t, s1) && id in FindByStatus(t, s2))
  {
  }
}
