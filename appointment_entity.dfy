/** An appointment (`appointments`): the stored row, and the Java object
    `createAppointment` builds before the insert, with its `@PrePersist
    onCreate` defaults. Instants are seconds; the creation and update
    timestamps are not modelled. */
module AppointmentEntity {
  import opened Wrappers
  import opened JavaInt
  import opened Ascii

  datatype Status = SCHEDULED | CONFIRMED | IN_PROGRESS | COMPLETED | CANCELLED | NO_SHOW

  function StatusName(s: Status): (n: string)
    ensures NoLowerCase(n)
  {
    match s
    case SCHEDULED => "SCHEDULED"
    case CONFIRMED => "CONFIRMED"
    case IN_PROGRESS => "IN_PROGRESS"
    case COMPLETED => "COMPLETED"
    case CANCELLED => "CANCELLED"
    case NO_SHOW => "NO_SHOW"
  }

  /** `Status.valueOf(name.toUpperCase())`: an unknown name is refused. */
  function ParseStatus(name: string): (r: Result<Status>)
    ensures r.Ok? ==> StatusName(r.value) == UpperString(name)
    ensures r.Err? ==> r.error == InvalidEnum(name) && forall s :: StatusName(s) != UpperString(name)
  {
    var u := UpperString(name);
    if u == "SCHEDULED" then Ok(SCHEDULED)
    else if u == "CONFIRMED" then Ok(CONFIRMED)
    else if u == "IN_PROGRESS" then Ok(IN_PROGRESS)
    else if u == "COMPLETED" then Ok(COMPLETED)
    else if u == "CANCELLED" then Ok(CANCELLED)
    else if u == "NO_SHOW" then Ok(NO_SHOW)
    else Err(InvalidEnum(name))
  }

  /** A name is accepted as `s` exactly when it spells `s` in any case; the
      name a status is shown with parses back to it. */
  lemma ParseStatusExactly(name: string, s: Status)
    ensures ParseStatus(name) == Ok(s) <==> UpperString(name) == StatusName(s)
    ensures ParseStatus(StatusName(s)) == Ok(s) && ParseStatus(LowerString(StatusName(s))) == Ok(s)
  {
    UpperOfName(StatusName(s));
  }

  /** A stored appointment. */
  datatype AppointmentRow = AppointmentRow(
    patientId: int,
    doctorId: int,
    dateTime: int,
    status: Status,
    reason: Option<string>,
    notes: Option<string>,
    durationMinutes: Option<Int32>)

  /** The fields of the Java object; any of them may be null. */
  datatype AppointmentData = AppointmentData(
    patientId: Option<int>,
    doctorId: Option<int>,
    dateTime: Option<int>,
    status: Option<Status>,
    reason: Option<string>,
    notes: Option<string>,
    durationMinutes: Option<Int32>)

  /** The columns declared `nullable = false`. */
  predicate RequiredPresent(d: AppointmentData) {
    d.patientId.Some? && d.doctorId.Some? && d.dateTime.Some? && d.status.Some?
  }

  /** A stored row read back as an object. */
  function Nullable(a: AppointmentRow): (d: AppointmentData)
    ensures RequiredPresent(d)
  {
    AppointmentData(Some(a.patientId), Some(a.doctorId), Some(a.dateTime), Some(a.status),
      a.reason, a.notes, a.durationMinutes)
  }

  /** The insert: refused when a required column is null. */
  function ToRow(d: AppointmentData): (r: Result<AppointmentRow>)
    ensures r.Ok? <==> RequiredPresent(d)
    ensures r.Err? ==> r.error == NotNullViolation
    ensures r.Ok? ==> Nullable(r.value) == d
  {
    if !RequiredPresent(d) then Err(NotNullViolation)
    else Ok(AppointmentRow(d.patientId.value, d.doctorId.value, d.dateTime.value, d.status.value,
      d.reason, d.notes, d.durationMinutes))
  }

  /** Reading a row back and storing it again gives the same row. */
  lemma ToRowNullable(a: AppointmentRow)
    ensures ToRow(Nullable(a)) == Ok(a)
  {
  }

  /** The defaults `onCreate` fills in: SCHEDULED and 30 minutes, each only
      where null. */
  function WithDefaults(d: AppointmentData): (r: AppointmentData)
    ensures r.status == Some(d.status.GetOr(SCHEDULED))
    ensures r.durationMinutes == Some(d.durationMinutes.GetOr(30))
    ensures r.(status := d.status, durationMinutes := d.durationMinutes) == d
  {
    d.(status := Some(d.status.GetOr(SCHEDULED)), durationMinutes := Some(d.durationMinutes.GetOr(30)))
  }

  /** The Java object before its first save. */
  class Appointment {
    var patientId: Option<int>
    var doctorId: Option<int>
    var dateTime: Option<int>
    var status: Option<Status>
    var reason: Option<string>
    var notes: Option<string>
    var durationMinutes: Option<Int32>

    function Data(): AppointmentData
      reads this
    {
      AppointmentData(patientId, doctorId, dateTime, status, reason, notes, durationMinutes)
    }

    /** The Lombok builder: every field as given. */
    constructor (d: AppointmentData)
      ensures Data() == d
    {
      patientId, doctorId, dateTime, status := d.patientId, d.doctorId, d.dateTime, d.status;
      reason, notes, durationMinutes := d.reason, d.notes, d.durationMinutes;
    }

    /** `@PrePersist onCreate`: status and duration, each only where null. */
    method OnCreate()
      modifies this
      ensures Data() == WithDefaults(old(Data()))
    {
      if status.None? {
        status := Some(SCHEDULED);
      }
      if durationMinutes.None? {
        durationMinutes := Some(30);
      }
    }
  }
}
