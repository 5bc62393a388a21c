/** The appointment booking form of the portal: create or edit mode from the
    route, the doctor list narrowed to the chosen department, and the request
    sent on submit. The conversions the screen leaves to JavaScript are
    inputs: `toNumber` for `+text`, `toDate` for `new Date(text)` (a day
    number) and `format` for `toISOString().split('T')[0]`. */
module AppointmentForm {
  import opened Wrappers
  import opened PortalAppointment

  /** One of the doctors the form offers. */
  datatype Doctor = Doctor(id: int, name: string, departmentId: int, specialization: string)

  /** The value of the form's controls; an id control left empty holds no
      number. */
  datatype FormValue = FormValue(
    patientId: Option<int>,
    departmentId: Option<int>,
    doctorId: Option<int>,
    appointmentDate: Option<int>,
    appointmentTime: string,
    appointmentType: string,
    duration: Option<int>,
    reason: string,
    notes: Option<string>)

  /** The request sent to the server. */
  datatype AppointmentRequest = AppointmentRequest(
    patientId: int,
    departmentId: int,
    doctorId: int,
    appointmentDate: string,
    appointmentTime: string,
    appointmentType: string,
    duration: Option<int>,
    reason: string,
    notes: Option<string>)

  datatype Submission = Create(request: AppointmentRequest) | Update(id: int, request: AppointmentRequest)

  /** The controls as the form builder creates them: a consultation of 30
      minutes, with every required control still empty. */
  function EmptyForm(): (f: FormValue)
    ensures !Filled(f)
    ensures f.appointmentType == "CONSULTATION" && f.duration == Some(30)
  {
    FormValue(None, None, None, None, "", "CONSULTATION", Some(30), "", Some(""))
  }

  /** The doctors the form knows: the k-th of them works in department k,
      so their ids and departments are all distinct. */
  function KnownDoctors(): (r: seq<Doctor>)
    ensures |r| == 4
    ensures forall k :: 0 <= k < |r| ==> r[k].departmentId == k + 1
    ensures forall i, j :: 0 <= i < j < |r| ==> r[i].id != r[j].id
  {
    [Doctor(1, "Dr. Smith", 1, "General Physician"), Doctor(2, "Dr. Johnson", 2, "Cardiologist"),
     Doctor(3, "Dr. Davis", 3, "Orthopedic Surgeon"), Doctor(4, "Dr. Williams", 4, "Pediatrician")]
  }

  /** `doctors.filter(d => d.departmentId === departmentId)`: an empty
      department control, being no number, matches no doctor. */
  function DoctorsOf(doctors: seq<Doctor>, departmentId: Option<int>): (r: seq<Doctor>)
    ensures |r| <= |doctors|
    ensures forall d :: d in r <==> d in doctors && Some(d.departmentId) == departmentId
    ensures departmentId.None? ==> r == []
  {
    if doctors == [] then []
    else
      var rest := DoctorsOf(doctors[1..], departmentId);
      if Some(doctors[0].departmentId) == departmentId then [doctors[0]] + rest else rest
  }

  /** The filter keeps the order of the list: filtering two lists one after
      the other is filtering each. */
  lemma {:induction false} DoctorsOfAppend(a: seq<Doctor>, b: seq<Doctor>, departmentId: Option<int>)
    ensures DoctorsOf(a + b, departmentId) == DoctorsOf(a, departmentId) + DoctorsOf(b, departmentId)
  {
    if a == [] {
      assert a + b == b;
    } else {
      assert (a + b)[0] == a[0] && (a + b)[1..] == a[1..] + b;
      DoctorsOfAppend(a[1..], b, departmentId);
    }
  }

  /** Filtering twice by the same department changes nothing more. */
  lemma {:induction false} DoctorsOfIdempotent(doctors: seq<Doctor>, departmentId: Option<int>)
    ensures DoctorsOf(DoctorsOf(doctors, departmentId), departmentId) == DoctorsOf(doctors, departmentId)
  {
    if doctors != [] {
      DoctorsOfIdempotent(doctors[1..], departmentId);
      var rest := DoctorsOf(doctors[1..], departmentId);
      if Some(doctors[0].departmentId) == departmentId {
        assert ([doctors[0]] + rest)[0] == doctors[0] && ([doctors[0]] + rest)[1..] == rest;
      }
    }
  }

  /** The `required` validators: every control but the duration and the
      notes must hold a value. */
  predicate Filled(f: FormValue) {
    f.patientId.Some? && f.departmentId.Some? && f.doctorId.Some? && f.appointmentDate.Some? &&
    f.appointmentTime != "" && f.appointmentType != "" && f.reason != ""
  }

  /** All the validators: the required controls filled in, and the date
      picker's minimum, which refuses a day before `minDate` (the picker
      compares days, not instants). */
  predicate FormValid(f: FormValue, minDate: int) {
    Filled(f) && f.appointmentDate.value >= minDate
  }

  /** A day before the minimum makes the form invalid, however the rest is
      filled in. */
  lemma PastDateInvalid(f: FormValue, minDate: int)
    requires f.appointmentDate.Some? && f.appointmentDate.value < minDate
    ensures !FormValid(f, minDate)
    ensures FormValid(f.(appointmentDate := Some(minDate)), minDate) <==> Filled(f)
  {
  }

  function RequestOf(f: FormValue, format: int -> string): (r: AppointmentRequest)
    requires Filled(f)
    ensures r.appointmentDate == format(f.appointmentDate.value)
    ensures Some(r.patientId) == f.patientId && Some(r.departmentId) == f.departmentId && Some(r.doctorId) == f.doctorId
    ensures r.appointmentTime == f.appointmentTime && r.appointmentType == f.appointmentType
    ensures r.duration == f.duration && r.reason == f.reason && r.notes == f.notes
  {
    AppointmentRequest(f.patientId.value, f.departmentId.value, f.doctorId.value, format(f.appointmentDate.value),
      f.appointmentTime, f.appointmentType, f.duration, f.reason, f.notes)
  }

  /** The controls filled in from a loaded appointment; every one of them is
      overwritten. */
  function Loaded(a: Appointment, toDate: string -> int): (f: FormValue)
    ensures f.patientId == Some(a.patientId) && f.departmentId == Some(a.departmentId)
    ensures f.doctorId == Some(a.doctorId) && f.appointmentDate == Some(toDate(a.appointmentDate))
    ensures f.appointmentTime == a.appointmentTime && f.appointmentType == a.appointmentType
    ensures f.duration == Some(a.duration) && f.reason == a.reason && f.notes == a.notes
  {
    FormValue(Some(a.patientId), Some(a.departmentId), Some(a.doctorId), Some(toDate(a.appointmentDate)),
      a.appointmentTime, a.appointmentType, Some(a.duration), a.reason, a.notes)
  }

  class AppointmentFormComponent {
    var form: FormValue
    var isEditMode: bool
    var isLoading: bool
    var appointmentId: Option<int>
    var filteredDoctors: seq<Doctor>
    const doctors: seq<Doctor>
    /** The day the form was opened: `new Date()`, taken once. */
    const minDate: int

    /** In edit mode the appointment's id is known. */
    ghost predicate Valid()
      reads this
    {
      isEditMode ==> appointmentId.Some?
    }

    constructor (today: int)
      ensures Valid() && form == EmptyForm() && !isEditMode && !isLoading && appointmentId.None?
      ensures doctors == KnownDoctors() && filteredDoctors == [] && minDate == today
    {
      minDate := today;
      form, isEditMode, isLoading, appointmentId := EmptyForm(), false, false, None;
      doctors := KnownDoctors();
      filteredDoctors := [];
    }

    /** `ngOnInit`: a `patientId` query parameter pre-fills the patient; an
        `id` route parameter turns on edit mode, records the id and asks for
        that appointment. Empty parameters count as absent. */
    method NgOnInit(patientIdParam: Option<string>, idParam: Option<string>, toNumber: string -> int)
      returns (load: Option<int>)
      requires Valid()
      modifies this
      ensures Valid() && isLoading == old(isLoading) && filteredDoctors == old(filteredDoctors)
      ensures patientIdParam.Some? && patientIdParam.value != "" ==>
        form == old(form).(patientId := Some(toNumber(patientIdParam.value)))
      ensures patientIdParam.None? || patientIdParam.value == "" ==> form == old(form)
      ensures idParam.Some? && idParam.value != "" ==>
        isEditMode && appointmentId == Some(toNumber(idParam.value)) && load == appointmentId
      ensures idParam.None? || idParam.value == "" ==>
        load.None? && isEditMode == old(isEditMode) && appointmentId == old(appointmentId)
    {
      if patientIdParam.Some? && patientIdParam.value != "" {
        form := form.(patientId := Some(toNumber(patientIdParam.value)));
      }
      load := None;
      if idParam.Some? && idParam.value != "" {
        isEditMode := true;
        appointmentId := Some(toNumber(idParam.value));
        load := appointmentId;
      }
    }

    /** `onDepartmentChange`: the doctors offered become those of the chosen
        department; a new booking also forgets the doctor chosen before. */
    method OnDepartmentChange()
      modifies this
      ensures filteredDoctors == DoctorsOf(doctors, form.departmentId)
      ensures !isEditMode ==> form == old(form).(doctorId := None)
      ensures isEditMode ==> form == old(form)
      ensures isEditMode == old(isEditMode) && isLoading == old(isLoading) && appointmentId == old(appointmentId)
    {
      filteredDoctors := DoctorsOf(doctors, form.departmentId);
      if !isEditMode {
        form := form.(doctorId := None);
      }
    }

    /** The success callback of `loadAppointment`: the controls are filled in
        and the doctors of the appointment's department offered. Loading only
        happens in edit mode, where the appointment's doctor is kept. */
    method OnAppointmentLoaded(a: Appointment, toDate: string -> int)
      modifies this
      ensures isEditMode ==> form == Loaded(a, toDate)
      ensures !isEditMode ==> form == Loaded(a, toDate).(doctorId := None)
      ensures filteredDoctors == DoctorsOf(doctors, Some(a.departmentId))
      ensures isEditMode == old(isEditMode) && isLoading == old(isLoading) && appointmentId == old(appointmentId)
    {
      form := Loaded(a, toDate);
      OnDepartmentChange();
    }

    /** The error callback of `loadAppointment`: back to the list. */
    method OnAppointmentLoadError() returns (navigateTo: string)
      ensures navigateTo == "/appointments"
    {
      navigateTo := "/appointments";
    }

    /** `onSubmit`: an invalid form (a required control empty, or a day
        before the day the form was opened) sends nothing; a valid one starts
        loading and sends an update in edit mode, a booking otherwise. */
    method OnSubmit(format: int -> string) returns (sent: Option<Submission>)
      requires Valid()
      modifies this
      ensures Valid()
      ensures form == old(form) && isEditMode == old(isEditMode) && appointmentId == old(appointmentId)
      ensures filteredDoctors == old(filteredDoctors)
      ensures !FormValid(form, minDate) ==> sent.None? && isLoading == old(isLoading)
      ensures FormValid(form, minDate) ==> isLoading && sent.Some?
      ensures form.appointmentDate.Some? && form.appointmentDate.value < minDate ==> sent.None?
      ensures FormValid(form, minDate) && isEditMode ==> sent == Some(Update(appointmentId.value, RequestOf(form, format)))
      ensures FormValid(form, minDate) && !isEditMode ==> sent == Some(Create(RequestOf(form, format)))
    {
      if !FormValid(form, minDate) {
        return None;
      }
      isLoading := true;
      var request := RequestOf(form, format);
      if isEditMode {
        sent := Some(Update(appointmentId.value, request));
      } else {
        sent := Some(Create(request));
      }
    }

    /** The success callback of the request: a snack bar says whether the
        appointment was updated or booked, and the portal goes back to the
        appointment list; loading is left on. */
    method OnSubmitSuccess() returns (message: string, navigateTo: string)
      ensures isEditMode ==> message == "Appointment updated successfully"
      ensures !isEditMode ==> message == "Appointment booked successfully"
      ensures navigateTo == "/appointments"
    {
      message := "Appointment " + (if isEditMode then "updated" else "booked") + " successfully";
      navigateTo := "/appointments";
    }

    /** The error callback of the request: loading stops and a snack bar
        asks the user to try again. */
    method OnSubmitError() returns (message: string)
      modifies this
      ensures !isLoading && message == "An error occurred. Please try again."
      ensures form == old(form) && isEditMode == old(isEditMode) && appointmentId == old(appointmentId)
    {
      isLoading := false;
      message := "An error occurred. Please try again.";
    }
  }
}
