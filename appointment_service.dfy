/** `AppointmentService`: booking, status changes and the appointment queries.
    The service owns the `appointments` table and reads `doctor_schedules`.
    The patient lookup over HTTP is an input. Each writing operation is one
    transaction: when it fails, the table does not change. */
module AppointmentService {
  import opened Wrappers
  import opened Ascii
  import opened Time
  import opened Store
  import opened AppointmentEntity
  import opened AppointmentRepository
  import DoctorScheduleRepository
  import opened RemotePatient

  /** How close to another appointment of the same doctor a booking may not
      be, either side, ends included. */
  const CONFLICT_WINDOW: int := 30 * MINUTE

  /** The parts of an `AppointmentDTO` that `createAppointment` reads. */
  datatype AppointmentRequest = AppointmentRequest(
    patientId: Option<int>,
    doctorId: Option<int>,
    dateTime: Option<int>,
    reason: Option<string>,
    notes: Option<string>)

  /** The `AppointmentDTO` the service sends back (`doctorName` is never set). */
  datatype AppointmentView = AppointmentView(
    id: int,
    patientId: int,
    patientName: string,
    doctorId: int,
    dateTime: int,
    status: string,
    reason: Option<string>,
    notes: Option<string>)

  /** Java string concatenation of a possibly null `Long`. */
  function IdText(id: Option<int>): string {
    if id.Some? then IntToDecimal(id.value) else "null"
  }

  /** Some appointment of the doctor lies within the window around `at`,
      whatever its status. */
  predicate Conflicts(t: Appointments, doctorId: int, at: int) {
    exists id :: id in t && t[id].doctorId == doctorId &&
      at - CONFLICT_WINDOW <= t[id].dateTime <= at + CONFLICT_WINDOW
  }

  /** The conflict query finds something exactly when there is a conflict. */
  lemma ConflictsFound(t: Appointments, doctorId: int, at: int)
    ensures Conflicts(t, doctorId, at) <==>
      FindByDoctorIdAndDateRange(t, doctorId, at - CONFLICT_WINDOW, at + CONFLICT_WINDOW) != map[]
  {
    var found := FindByDoctorIdAndDateRange(t, doctorId, at - CONFLICT_WINDOW, at + CONFLICT_WINDOW);
    SomeRow(found);
    if found != map[] {
      var id :| id in found;
      assert id in t;
    }
  }

  /** Every two appointments of one doctor are more than the window apart. */
  predicate Spaced(t: Appointments) {
    forall i, j :: i in t && j in t && i != j && t[i].doctorId == t[j].doctorId ==>
      t[i].dateTime - t[j].dateTime > CONFLICT_WINDOW || t[j].dateTime - t[i].dateTime > CONFLICT_WINDOW
  }

  /** Adding an appointment that conflicts with none keeps a doctor's
      appointments spaced. */
  lemma InsertKeepsSpaced(t: Appointments, id: int, row: AppointmentRow)
    requires Spaced(t) && id !in t && !Conflicts(t, row.doctorId, row.dateTime)
    ensures Spaced(t[id := row])
  {
    var u := t[id := row];
    forall i, j | i in u && j in u && i != j && u[i].doctorId == u[j].doctorId
      ensures u[i].dateTime - u[j].dateTime > CONFLICT_WINDOW || u[j].dateTime - u[i].dateTime > CONFLICT_WINDOW
    {
      if i == id {
        assert j in t && t[j].doctorId == row.doctorId;
      } else if j == id {
        assert i in t && t[i].doctorId == row.doctorId;
      } else {
        assert t[i] == u[i] && t[j] == u[j];
      }
    }
  }

  /** Changing the status of an appointment moves nothing in time. */
  lemma StatusChangeKeepsSpaced(t: Appointments, id: int, status: Status)
    requires Spaced(t) && id in t
    ensures Spaced(t[id := t[id].(status := status)])
  {
    var u := t[id := t[id].(status := status)];
    forall i, j | i in u && j in u && i != j && u[i].doctorId == u[j].doctorId
      ensures u[i].dateTime - u[j].dateTime > CONFLICT_WINDOW || u[j].dateTime - u[i].dateTime > CONFLICT_WINDOW
    {
      assert u[i].dateTime == t[i].dateTime && u[i].doctorId == t[i].doctorId;
      assert u[j].dateTime == t[j].dateTime && u[j].doctorId == t[j].doctorId;
    }
  }

  /** What `createAppointment` stores, or why it refuses: an unknown patient,
      a missing time, another appointment of the doctor within half an hour,
      or a missing patient or doctor at the insert. A booking with no doctor
      finds no conflict, since `doctorId = null` matches no row. */
  function CreateOutcome(t: Appointments, dto: AppointmentRequest, patient: Lookup): (r: Result<AppointmentRow>)
    ensures patient.Threw? ==> r == Err(BadRequest("Patient not found with id: " + IdText(dto.patientId)))
    ensures !patient.Threw? && dto.dateTime.None? ==> r == Err(NullValue)
    ensures (!patient.Threw? && dto.dateTime.Some? && dto.doctorId.Some? &&
              Conflicts(t, dto.doctorId.value, dto.dateTime.value)) ==>
      r == Err(BadRequest("Doctor has another appointment at this time"))
    ensures r.Ok? <==>
      (!patient.Threw? && dto.patientId.Some? && dto.doctorId.Some? && dto.dateTime.Some? &&
       !Conflicts(t, dto.doctorId.value, dto.dateTime.value))
    ensures r.Ok? ==>
      r.value.patientId == dto.patientId.value && r.value.doctorId == dto.doctorId.value &&
      r.value.dateTime == dto.dateTime.value && r.value.status == SCHEDULED &&
      r.value.reason == dto.reason && r.value.notes == dto.notes && r.value.durationMinutes == Some(30)
    ensures r.Ok? ==> forall id :: id in t && t[id].doctorId == r.value.doctorId ==>
      t[id].dateTime < r.value.dateTime - CONFLICT_WINDOW || t[id].dateTime > r.value.dateTime + CONFLICT_WINDOW
  {
    if patient.Threw? then Err(BadRequest("Patient not found with id: " + IdText(dto.patientId)))
    else if dto.dateTime.None? then Err(NullValue)
    else if dto.doctorId.Some? && Conflicts(t, dto.doctorId.value, dto.dateTime.value) then
      Err(BadRequest("Doctor has another appointment at this time"))
    else
      ToRow(WithDefaults(AppointmentData(dto.patientId, dto.doctorId, dto.dateTime, Some(SCHEDULED),
        dto.reason, dto.notes, None)))
  }

  /** `toDTO`: the stored appointment with the patient's display name and the
      status by name. */
  function ToDto(id: int, row: AppointmentRow, patient: Lookup): (v: AppointmentView)
    ensures v.id == id && v.patientId == row.patientId && v.patientName == DisplayName(patient)
    ensures v.doctorId == row.doctorId && v.dateTime == row.dateTime
    ensures v.reason == row.reason && v.notes == row.notes
    ensures v.status == StatusName(row.status) && ParseStatus(v.status) == Ok(row.status)
  {
    ParseStatusExactly(StatusName(row.status), row.status);
    AppointmentView(id, row.patientId, DisplayName(patient), row.doctorId, row.dateTime,
      StatusName(row.status), row.reason, row.notes)
  }

  /** `toDTO` over a list of appointments, each with its patient's lookup. */
  function ToDtos(t: Appointments, patients: int -> Lookup): (r: map<int, AppointmentView>)
    ensures r.Keys == t.Keys
    ensures forall id :: id in t ==> r[id] == ToDto(id, t[id], patients(t[id].patientId))
  {
    map id | id in t :: ToDto(id, t[id], patients(t[id].patientId))
  }

  class AppointmentService {
    var appointments: Appointments
    var nextId: int
    /** `doctor_schedules`, which the service only reads. */
    const schedules: DoctorScheduleRepository.Schedules

    /** Ids are below the next one handed out, and since every appointment is
        booked through `createAppointment`, a doctor's appointments are more
        than half an hour apart. */
    ghost predicate Valid()
      reads this
    {
      (forall id :: id in appointments ==> id < nextId) && Spaced(appointments)
    }

    constructor (schedules: DoctorScheduleRepository.Schedules)
      ensures Valid() && appointments == map[] && this.schedules == schedules
    {
      appointments, nextId := map[], 1;
      this.schedules := schedules;
    }

    /** `getAllAppointments`. */
    function GetAllAppointments(patients: int -> Lookup): (r: map<int, AppointmentView>)
      reads this
      ensures r.Keys == appointments.Keys
      ensures forall id :: id in r ==> r[id] == ToDto(id, appointments[id], patients(appointments[id].patientId))
    {
      ToDtos(appointments, patients)
    }

    /** `getAppointmentById`. */
    function GetAppointmentById(id: int, patient: Lookup): (r: Result<AppointmentView>)
      reads this
      ensures r.Ok? <==> id in appointments
      ensures r.Ok? ==> r.value == ToDto(id, appointments[id], patient)
      ensures r.Err? ==> r.error == NotFound("Appointment")
    {
      if id in appointments then Ok(ToDto(id, appointments[id], patient)) else Err(NotFound("Appointment"))
    }

    /** `getAppointmentsByPatientId`. */
    function GetAppointmentsByPatientId(patientId: int, patient: Lookup): (r: map<int, AppointmentView>)
      reads this
      ensures forall id :: id in r <==> id in appointments && appointments[id].patientId == patientId
      ensures forall id :: id in r ==> r[id] == ToDto(id, appointments[id], patient)
    {
      ToDtos(FindByPatientId(appointments, patientId), _ => patient)
    }

    /** `getAppointmentsByDoctorId`. */
    function GetAppointmentsByDoctorId(doctorId: int, patients: int -> Lookup): (r: map<int, AppointmentView>)
      reads this
      ensures forall id :: id in r <==> id in appointments && appointments[id].doctorId == doctorId
      ensures forall id :: id in r ==>
        r[id] == ToDto(id, appointments[id], patients(appointments[id].patientId))
    {
      ToDtos(FindByDoctorId(appointments, doctorId), patients)
    }

    /** `getAppointmentsByDate`: from the start of the day to 23:59:59, both
        included, which is exactly the appointments falling on that date. */
    function GetAppointmentsByDate(date: int, patients: int -> Lookup): (r: map<int, AppointmentView>)
      reads this
      ensures forall id :: id in r <==> id in appointments && DateOf(appointments[id].dateTime) == date
      ensures forall id :: id in r ==>
        r[id] == ToDto(id, appointments[id], patients(appointments[id].patientId))
    {
      var found := FindByDateRange(appointments, StartOfDay(date), EndOfDay(date));
      assert forall id :: id in appointments ==> (id in found <==> DateOf(appointments[id].dateTime) == date) by {
        forall id | id in appointments
          ensures id in found <==> DateOf(appointments[id].dateTime) == date
        {
          OnDate(appointments[id].dateTime, date);
        }
      }
      ToDtos(found, patients)
    }

    /** `getDoctorSchedules`. */
    function GetDoctorSchedules(doctorId: int): (r: DoctorScheduleRepository.Schedules)
      reads this
      ensures SelectionOf(r, schedules)
      ensures forall id :: id in schedules ==> (id in r <==> schedules[id].doctorId == doctorId)
    {
      DoctorScheduleRepository.FindByDoctorId(schedules, doctorId)
    }

    /** `getAvailableDoctors`. */
    function GetAvailableDoctors(): (r: DoctorScheduleRepository.Schedules)
      reads this
      ensures SelectionOf(r, schedules)
      ensures forall id :: id in schedules ==> (id in r <==> schedules[id].available == Some(true))
    {
      DoctorScheduleRepository.FindByAvailableTrue(schedules)
    }

    /** `createAppointment`: checks the patient, then the doctor's other
        appointments within half an hour either side, then builds and saves a
        SCHEDULED appointment. */
    method CreateAppointment(dto: AppointmentRequest, patient: Lookup) returns (r: Result<AppointmentView>)
      requires Valid()
      modifies this
      ensures Valid()
      ensures match CreateOutcome(old(appointments), dto, patient)
        case Ok(row) =>
          r == Ok(ToDto(old(nextId), row, patient)) && old(nextId) !in old(appointments) &&
          appointments == old(appointments)[old(nextId) := row] && nextId == old(nextId) + 1
        case Err(e) => r == Err(e) && appointments == old(appointments) && nextId == old(nextId)
    {
      if patient.Threw? {
        return Err(BadRequest("Patient not found with id: " + IdText(dto.patientId)));
      }
      if dto.dateTime.None? {
        return Err(NullValue);
      }
      var at := dto.dateTime.value;
      var conflicts := if dto.doctorId.Some? then
        FindByDoctorIdAndDateRange(appointments, dto.doctorId.value, at - CONFLICT_WINDOW, at + CONFLICT_WINDOW)
      else map[];
      if dto.doctorId.Some? {
        ConflictsFound(appointments, dto.doctorId.value, at);
      }
      if conflicts != map[] {
        return Err(BadRequest("Doctor has another appointment at this time"));
      }
      var appointment := new Appointment(AppointmentData(dto.patientId, dto.doctorId, dto.dateTime,
        Some(SCHEDULED), dto.reason, dto.notes, None));
      appointment.OnCreate();
      match ToRow(appointment.Data())
      case Err(e) =>
        r := Err(e);
      case Ok(row) =>
        InsertKeepsSpaced(appointments, nextId, row);
        appointments := appointments[nextId := row];
        r := Ok(ToDto(nextId, row, patient));
        nextId := nextId + 1;
    }

    /** `updateAppointmentStatus`: any status named in any case, from any
        status; nothing but the status changes. */
    method UpdateAppointmentStatus(id: int, status: string, patient: Lookup) returns (r: Result<AppointmentView>)
      requires Valid()
      modifies this
      ensures Valid() && nextId == old(nextId)
      ensures id !in old(appointments) ==> r == Err(NotFound("Appointment")) && appointments == old(appointments)
      ensures id in old(appointments) ==>
        match ParseStatus(status)
        case Err(e) => r == Err(e) && appointments == old(appointments)
        case Ok(s) =>
          appointments == old(appointments)[id := old(appointments)[id].(status := s)] &&
          r == Ok(ToDto(id, appointments[id], patient))
    {
      if id !in appointments {
        return Err(NotFound("Appointment"));
      }
      var parsed := ParseStatus(status);
      if parsed.Err? {
        return Err(parsed.error);
      }
      StatusChangeKeepsSpaced(appointments, id, parsed.value);
      appointments := appointments[id := appointments[id].(status := parsed.value)];
      r := Ok(ToDto(id, appointments[id], patient));
    }

    /** `cancelAppointment`: CANCELLED from any status. */
    method CancelAppointment(id: int) returns (o: Outcome)
      requires Valid()
      modifies this
      ensures Valid() && nextId == old(nextId)
      ensures id !in old(appointments) ==> o == Fail(NotFound("Appointment")) && appointments == old(appointments)
      ensures id in old(appointments) ==>
        o == Done && appointments == old(appointments)[id := old(appointments)[id].(status := CANCELLED)]
    {
      if id !in appointments {
        return Fail(NotFound("Appointment"));
      }
      StatusChangeKeepsSpaced(appointments, id, CANCELLED);
      appointments := appointments[id := appointments[id].(status := CANCELLED)];
      o := Done;
    }
  }

  /** A cancelled appointment still blocks its slot: cancelling never makes a
      refused booking acceptable. */
  lemma CancelledStillConflicts(t: Appointments, id: int, doctorId: int, at: int)
    requires id in t && Conflicts(t, doctorId, at)
    ensures Conflicts(t[id := t[id].(status := CANCELLED)], doctorId, at)
  {
    var u := t[id := t[id].(status := CANCELLED)];
    var k :| k in t && t[k].doctorId == doctorId && at - CONFLICT_WINDOW <= t[k].dateTime <= at + CONFLICT_WINDOW;
    assert k in u && u[k].dateTime == t[k].dateTime && u[k].doctorId == t[k].doctorId;
  }
}
