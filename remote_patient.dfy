/** What the billing and appointment services get back from the patient
    service over HTTP. The call is outside the model: its outcome is an input. */
module RemotePatient {
  import opened Wrappers

  /** The name fields of the `PatientDTO` that comes back; either may be null. */
  datatype PatientName = PatientName(firstName: Option<string>, lastName: Option<string>)

  /** `getPatientById(id)`: it throws, or returns a response whose data may be null. */
  datatype Lookup = Threw | Returned(data: Option<PatientName>)

  /** Java string concatenation of a possibly null `String`. */
  function JavaString(s: Option<string>): (r: string)
    ensures s.Some? ==> r == s.value
    ensures s.None? ==> r == "null"
  {
    s.GetOr("null")
  }

  /** The `patientName` shown with an invoice or appointment: the first and last
      name joined by a blank when a patient came back, "Unknown" otherwise. */
  function DisplayName(lookup: Lookup): (r: string)
    ensures lookup.Returned? && lookup.data.Some? ==>
      r == JavaString(lookup.data.value.firstName) + " " + JavaString(lookup.data.value.lastName)
    ensures !(lookup.Returned? && lookup.data.Some?) ==> r == "Unknown"
  {
    match lookup
    case Returned(Some(p)) => JavaString(p.firstName) + " " + JavaString(p.lastName)
    case _ => "Unknown"
  }
}
