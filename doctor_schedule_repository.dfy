/** `DoctorScheduleRepository`: the derived finders over `doctor_schedules`. */
module DoctorScheduleRepository {
  import opened Wrappers
  import opened JavaInt
  import opened Store

  /** A stored weekly schedule slot. Times of day are seconds after midnight. */
  datatype ScheduleRow = ScheduleRow(
    doctorId: int,
    doctorName: string,
    specialization: string,
    dayOfWeek: Int32,
    startTime: int,
    endTime: int,
    slotDurationMinutes: Option<Int32>,
    available: Option<bool>)

  type Schedules = map<int, ScheduleRow>

  /** `findByDoctorId`. */
  function FindByDoctorId(t: Schedules, doctorId: int): (r: Schedules)
    ensures SelectionOf(r, t)
    ensures forall id :: id in t ==> (id in r <==> t[id].doctorId == doctorId)
  {
    Where(t, (s: ScheduleRow) => s.doctorId == doctorId)
  }

  /** `findByDoctorIdAndDayOfWeek`. */
  function FindByDoctorIdAndDayOfWeek(t: Schedules, doctorId: int, dayOfWeek: Int32): (r: Schedules)
    ensures SelectionOf(r, t)
    ensures forall id :: id in t ==> (id in r <==> t[id].doctorId == doctorId && t[id].dayOfWeek == dayOfWeek)
  {
    Where(t, (s: ScheduleRow) => s.doctorId == doctorId && s.dayOfWeek == dayOfWeek)
  }

  /** `findBySpecialization`: an exact, case-sensitive match. */
  function FindBySpecialization(t: Schedules, specialization: string): (r: Schedules)
    ensures SelectionOf(r, t)
    ensures forall id :: id in t ==> (id in r <==> t[id].specialization == specialization)
  {
    Where(t, (s: ScheduleRow) => s.specialization == specialization)
  }

  /** `findByAvailableTrue`: a null `available` does not count as true. */
  function FindByAvailableTrue(t: Schedules): (r: Schedules)
    ensures SelectionOf(r, t)
    ensures forall id :: id in t ==> (id in r <==> t[id].available == Some(true))
  {
    Where(t, (s: ScheduleRow) => s.available == Some(true))
  }

  /** Asking for a doctor's slots on one day gives the same rows as first
      taking that doctor's slots and then asking again within them: the day
      query never reaches beyond the doctor's schedule. */
  lemma DayOfWeekWithinDoctor(t: Schedules, doctorId: int, dayOfWeek: Int32)
    ensures FindByDoctorIdAndDayOfWeek(FindByDoctorId(t, doctorId), doctorId, dayOfWeek) ==
      FindByDoctorIdAndDayOfWeek(t, doctorId, dayOfWeek)
  {
  }
}
