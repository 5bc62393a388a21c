/** `AppointmentRepository`: derived finders and the three `@Query` filters
    over `appointments`. `BETWEEN` includes both ends. */
module AppointmentRepository {
  import opened Wrappers
  import opened Store
  import opened AppointmentEntity

  type Appointments = map<int, AppointmentRow>

  /** `findByPatientId`. */
  function FindByPatientId(t: Appointments, patientId: int): (r: Appointments)
    ensures SelectionOf(r, t)
    ensures forall id :: id in t ==> (id in r <==> t[id].patientId == patientId)
  {
    Where(t, (a: AppointmentRow) => a.patientId == patientId)
  }

  /** `findByDoctorId`. */
  function FindByDoctorId(t: Appointments, doctorId: int): (r: Appointments)
    ensures SelectionOf(r, t)
    ensures forall id :: id in t ==> (id in r <==> t[id].doctorId == doctorId)
  {
    Where(t, (a: AppointmentRow) => a.doctorId == doctorId)
  }

  /** `findByStatus`. */
  function FindByStatus(t: Appointments, status: Status): (r: Appointments)
    ensures SelectionOf(r, t)
    ensures forall id :: id in t ==> (id in r <==> t[id].status == status)
  {
    Where(t, (a: AppointmentRow) => a.status == status)
  }

  /** `findByDoctorIdAndDateRange`: the doctor's appointments from `start` to
      `end`, both included, whatever their status, cancelled ones too. */
  function FindByDoctorIdAndDateRange(t: Appointments, doctorId: int, start: int, end: int): (r: Appointments)
    ensures SelectionOf(r, t)
    ensures forall id :: id in t ==> (id in r <==>
      t[id].doctorId == doctorId && start <= t[id].dateTime <= end)
  {
    Where(t, (a: AppointmentRow) => a.doctorId == doctorId && start <= a.dateTime <= end)
  }

  /** `findByDateRange`: every appointment from `start` to `end`, both included. */
  function FindByDateRange(t: Appointments, start: int, end: int): (r: Appointments)
    ensures SelectionOf(r, t)
    ensures forall id :: id in t ==> (id in r <==> start <= t[id].dateTime <= end)
  {
    Where(t, (a: AppointmentRow) => start <= a.dateTime <= end)
  }

  /** `findUpcomingByPatientId`: the patient's SCHEDULED appointments, whatever
      their time; a confirmed one is not "upcoming". */
  function FindUpcomingByPatientId(t: Appointments, patientId: int): (r: Appointments)
    ensures SelectionOf(r, t)
    ensures forall id :: id in t ==> (id in r <==> t[id].patientId == patientId && t[id].status == SCHEDULED)
  {
    Where(t, (a: AppointmentRow) => a.patientId == patientId && a.status == SCHEDULED)
  }

  /** The doctor-and-range query is the doctor finder and the range query
      together. */
  lemma DoctorRangeIsIntersection(t: Appointments, doctorId: int, start: int, end: int)
    ensures forall id :: id in FindByDoctorIdAndDateRange(t, doctorId, start, end) <==>
      id in FindByDoctorId(t, doctorId) && id in FindByDateRange(t, start, end)
  {
  }

  /** The upcoming appointments are some of the patient's and all SCHEDULED. */
  lemma UpcomingIsScheduledOfPatient(t: Appointments, patientId: int)
    ensures forall id :: id in FindUpcomingByPatientId(t, patientId) <==>
      id in FindByPatientId(t, patientId) && id in FindByStatus(t, SCHEDULED)
  {
  }
}
