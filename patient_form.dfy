/** The patient form of the portal: create or edit mode chosen from the route,
    the form filled in from a loaded patient, and the request sent on submit.
    Allergies are edited as one comma-separated text and sent as a list.
    The e-mail validator's pattern is an input (`emailOk`), as is the
    conversion of the route's id text to a number (`toNumber`). */
module PatientForm {
  import opened Wrappers
  import opened Ascii

  datatype Address = Address(street: string, city: string, state: string, zipCode: string, country: string)

  datatype EmergencyContact = EmergencyContact(name: string, relationship: string, phone: string)

  /** A `Patient` as the portal receives it; optional members may be absent. */
  datatype Patient = Patient(
    id: int,
    firstName: string,
    lastName: string,
    email: string,
    phone: string,
    dateOfBirth: string,
    gender: string,
    address: Address,
    emergencyContact: EmergencyContact,
    bloodType: Option<string>,
    allergies: Option<seq<string>>,
    medicalNotes: Option<string>)

  /** The value of the form's controls. */
  datatype FormValue = FormValue(
    firstName: string,
    lastName: string,
    email: string,
    phone: string,
    dateOfBirth: string,
    gender: string,
    bloodType: string,
    address: Address,
    emergencyContact: EmergencyContact,
    allergiesText: string,
    medicalNotes: string)

  /** The patient sent to the server: the form's fields with the allergies as
      a list; the allergies text is not part of it. */
  datatype PatientPayload = PatientPayload(
    firstName: string,
    lastName: string,
    email: string,
    phone: string,
    dateOfBirth: string,
    gender: string,
    bloodType: string,
    address: Address,
    emergencyContact: EmergencyContact,
    allergies: seq<string>,
    medicalNotes: string)

  /** The request `onSubmit` makes: an update in edit mode, else a create. */
  datatype Submission = Create(patient: PatientPayload) | Update(id: int, patient: PatientPayload)

  /** The controls as the form builder creates them: all empty, so the
      form starts invalid whatever the e-mail check. */
  function EmptyForm(): (f: FormValue)
    ensures forall emailOk: string -> bool :: !FormValid(f, emailOk)
  {
    FormValue("", "", "", "", "", "", "", Address("", "", "", "", ""), EmergencyContact("", "", ""), "", "")
  }

  /** The allergies text split at each comma, every piece trimmed. An empty
      text gives no allergies; otherwise there is one entry more than there
      are commas, empty entries included. */
  function AllergiesFromText(text: string): (r: seq<string>)
    ensures text == "" ==> r == []
    ensures text != "" ==> |r| == Occurrences(text, ',') + 1
    ensures text != "" ==> forall i :: 0 <= i < |r| ==> r[i] == Trim(Split(text, ',')[i])
  {
    if text == "" then []
    else var pieces := Split(text, ','); seq(|pieces|, i requires 0 <= i < |pieces| => Trim(pieces[i]))
  }

  /** `allergies?.join(', ') || ''`. */
  function AllergiesText(allergies: Option<seq<string>>): (t: string)
    ensures allergies.None? || allergies.value == [] ==> t == ""
  {
    if allergies.None? then "" else Join(allergies.value, ", ")
  }

  /** A list joined with ", " splits at the commas into its first entry and
      the others each with the blank in front. */
  lemma {:induction false} SplitJoined(xs: seq<string>)
    requires xs != []
    requires forall i :: 0 <= i < |xs| ==> ',' !in xs[i]
    ensures var pieces := Split(Join(xs, ", "), ',');
      |pieces| == |xs| && pieces[0] == xs[0] && forall i :: 1 <= i < |xs| ==> pieces[i] == " " + xs[i]
  {
    if |xs| == 1 {
      SplitPrefix(xs[0], "", ',');
      assert xs[0] + "" == xs[0];
    } else {
      var rest := Join(xs[1..], ", ");
      SplitJoined(xs[1..]);
      var S := Split(rest, ',');
      assert Join(xs, ", ") == xs[0] + [','] + (" " + rest) by {
        assert Join(xs, ", ") == xs[0] + ", " + rest;
        assert xs[0] + ", " + rest == xs[0] + [','] + (" " + rest);
      }
      SplitAfterPiece(xs[0], " " + rest, ',');
      SplitPrefix(" ", rest, ',');
      var pieces := [xs[0]] + ([" " + S[0]] + S[1..]);
      assert Split(Join(xs, ", "), ',') == pieces;
      forall i | 1 <= i < |xs|
        ensures pieces[i] == " " + xs[i]
      {
        if i == 1 {
          assert pieces[1] == " " + S[0];
        } else {
          assert pieces[i] == S[i - 1] == " " + xs[1..][i - 1];
        }
      }
    }
  }

  /** A piece of a joined list trims back to its entry. */
  lemma TrimPiece(x: string, piece: string)
    requires IsTrimmed(x) && (piece == x || piece == " " + x)
    ensures Trim(piece) == x
  {
    TrimSpaced(x);
  }

  /** Trimming the pieces of a joined list gives the list back. */
  lemma TrimPieces(xs: seq<string>, pieces: seq<string>)
    requires xs != [] && |pieces| == |xs| && pieces[0] == xs[0]
    requires forall i :: 1 <= i < |xs| ==> pieces[i] == " " + xs[i]
    requires forall i :: 0 <= i < |xs| ==> IsTrimmed(xs[i])
    ensures forall i :: 0 <= i < |xs| ==> Trim(pieces[i]) == xs[i]
  {
    forall i | 0 <= i < |xs|
      ensures Trim(pieces[i]) == xs[i]
    {
      TrimPiece(xs[i], pieces[i]);
    }
  }

  /** Showing a list of allergies as text and reading the text back gives the
      list, when no entry holds a comma or starts or ends with blanks; the one
      list that does not come back is a single empty entry, shown as an empty
      text. */
  lemma AllergiesRoundTrip(xs: seq<string>)
    requires forall i :: 0 <= i < |xs| ==> ',' !in xs[i] && IsTrimmed(xs[i])
    requires xs != [""]
    ensures AllergiesFromText(AllergiesText(Some(xs))) == xs
  {
    if xs != [] {
      var text := Join(xs, ", ");
      SplitJoined(xs);
      var pieces := Split(text, ',');
      assert text != "" by {
        if |xs| == 1 {
          assert pieces[0] == xs[0] != "";
        } else {
          assert |pieces| > 1;
        }
      }
      TrimPieces(xs, pieces);
    }
  }

  /** A patient without allergies shows an empty text, and sends none. */
  lemma NoAllergiesRoundTrip()
    ensures AllergiesFromText(AllergiesText(None)) == []
    ensures AllergiesFromText(AllergiesText(Some([]))) == []
  {
  }

  /** `patchValue({...patient, allergiesText})`: the patient's fields replace
      the controls; an absent optional member leaves its control as it was. */
  function Patched(f: FormValue, p: Patient): (g: FormValue)
    ensures g.allergiesText == AllergiesText(p.allergies)
    ensures g.firstName == p.firstName && g.lastName == p.lastName && g.email == p.email
    ensures g.phone == p.phone && g.dateOfBirth == p.dateOfBirth && g.gender == p.gender
    ensures g.address == p.address && g.emergencyContact == p.emergencyContact
    ensures g.bloodType == p.bloodType.GetOr(f.bloodType) && g.medicalNotes == p.medicalNotes.GetOr(f.medicalNotes)
  {
    FormValue(p.firstName, p.lastName, p.email, p.phone, p.dateOfBirth, p.gender,
      p.bloodType.GetOr(f.bloodType), p.address, p.emergencyContact, AllergiesText(p.allergies),
      p.medicalNotes.GetOr(f.medicalNotes))
  }

  /** The validators: the six required controls filled in and the e-mail of
      the right form; the other controls have none. */
  predicate FormValid(f: FormValue, emailOk: string -> bool) {
    f.firstName != "" && f.lastName != "" && f.email != "" && emailOk(f.email) &&
    f.phone != "" && f.dateOfBirth != "" && f.gender != ""
  }

  /** The patient built from the form on submit. */
  function Payload(f: FormValue): (p: PatientPayload)
    ensures p.allergies == AllergiesFromText(f.allergiesText)
    ensures p.firstName == f.firstName && p.lastName == f.lastName && p.email == f.email
    ensures p.phone == f.phone && p.dateOfBirth == f.dateOfBirth && p.gender == f.gender
    ensures p.bloodType == f.bloodType && p.address == f.address
    ensures p.emergencyContact == f.emergencyContact && p.medicalNotes == f.medicalNotes
  {
    PatientPayload(f.firstName, f.lastName, f.email, f.phone, f.dateOfBirth, f.gender, f.bloodType,
      f.address, f.emergencyContact, AllergiesFromText(f.allergiesText), f.medicalNotes)
  }

  /** Loading a patient into the form and submitting it unchanged sends the
      patient's own allergies and fields back. */
  lemma LoadThenSubmit(f: FormValue, p: Patient)
    requires p.allergies.Some? ==> p.allergies.value != [""]
    requires p.allergies.Some? ==> forall i :: 0 <= i < |p.allergies.value| ==>
      ',' !in p.allergies.value[i] && IsTrimmed(p.allergies.value[i])
    ensures Payload(Patched(f, p)).allergies == p.allergies.GetOr([])
    ensures Payload(Patched(f, p)).firstName == p.firstName && Payload(Patched(f, p)).email == p.email
    ensures Payload(Patched(f, p)).address == p.address
  {
    if p.allergies.Some? {
      AllergiesRoundTrip(p.allergies.value);
    }
  }

  class PatientFormComponent {
    var form: FormValue
    var isEditMode: bool
    var isLoading: bool
    var patientId: Option<int>

    /** In edit mode the patient's id is known. */
    ghost predicate Valid()
      reads this
    {
      isEditMode ==> patientId.Some?
    }

    constructor ()
      ensures Valid() && form == EmptyForm() && !isEditMode && !isLoading && patientId.None?
    {
      form, isEditMode, isLoading, patientId := EmptyForm(), false, false, None;
    }

    /** `ngOnInit`: a non-empty `id` route parameter turns on edit mode,
        records the id and asks for that patient. */
    method NgOnInit(id: Option<string>, toNumber: string -> int) returns (load: Option<int>)
      requires Valid()
      modifies this
      ensures Valid()
      ensures id.None? || id.value == "" ==>
        load.None? && isEditMode == old(isEditMode) && patientId == old(patientId)
      ensures id.Some? && id.value != "" ==>
        isEditMode && patientId == Some(toNumber(id.value)) && load == patientId
      ensures form == old(form) && isLoading == old(isLoading)
    {
      load := None;
      if id.Some? && id.value != "" {
        isEditMode := true;
        patientId := Some(toNumber(id.value));
        load := patientId;
      }
    }

    /** The success callback of `loadPatient`. */
    method OnPatientLoaded(p: Patient)
      modifies this
      ensures form == Patched(old(form), p)
      ensures isEditMode == old(isEditMode) && isLoading == old(isLoading) && patientId == old(patientId)
    {
      form := Patched(form, p);
    }

    /** The error callback of `loadPatient`: back to the patient list,
        nothing changed. */
    method OnPatientLoadError() returns (navigateTo: string)
      ensures navigateTo == "/patients"
    {
      navigateTo := "/patients";
    }

    /** `onSubmit`: an invalid form sends nothing; a valid one starts loading
        and sends an update of the edited patient in edit mode, a create
        otherwise. */
    method OnSubmit(emailOk: string -> bool) returns (sent: Option<Submission>)
      requires Valid()
      modifies this
      ensures Valid()
      ensures form == old(form) && isEditMode == old(isEditMode) && patientId == old(patientId)
      ensures !FormValid(form, emailOk) ==> sent.None? && isLoading == old(isLoading)
      ensures FormValid(form, emailOk) ==> isLoading && sent.Some?
      ensures FormValid(form, emailOk) && isEditMode ==> sent == Some(Update(patientId.value, Payload(form)))
      ensures FormValid(form, emailOk) && !isEditMode ==> sent == Some(Create(Payload(form)))
    {
      if !FormValid(form, emailOk) {
        return None;
      }
      isLoading := true;
      var patient := Payload(form);
      if isEditMode {
        sent := Some(Update(patientId.value, patient));
      } else {
        sent := Some(Create(patient));
      }
    }

    /** The success callback of the request: a snack bar says whether the
        patient was updated or created, and the portal goes back to the
        patient list; loading is left on. */
    method OnSubmitSuccess() returns (message: string, navigateTo: string)
      ensures isEditMode ==> message == "Patient updated successfully"
      ensures !isEditMode ==> message == "Patient created successfully"
      ensures navigateTo == "/patients"
    {
      message := "Patient " + (if isEditMode then "updated" else "created") + " successfully";
      navigateTo := "/patients";
    }

    /** The error callback of the request: loading stops and a snack bar
        asks the user to try again. */
    method OnSubmitError() returns (message: string)
      modifies this
      ensures !isLoading && message == "An error occurred. Please try again."
      ensures form == old(form) && isEditMode == old(isEditMode) && patientId == old(patientId)
    {
      isLoading := false;
      message := "An error occurred. Please try again.";
    }
  }
}
