/** The appointment detail screen of the portal: which actions it offers for
    the appointment's status, and what confirming, completing or cancelling
    does to the appointment it holds. Each action sends the appointment's id
    and, when the server answers, shows the appointment the server sends
    back with a snack bar; a failed action has no handler and changes
    nothing. */
module AppointmentDetail {
  import opened Wrappers
  import opened PortalAppointment

  datatype Action = Edit | Confirm | Complete | Cancel

  /** The request an action sends: which endpoint, for which appointment. */
  datatype ActionRequest = ConfirmRequest(id: int) | CompleteRequest(id: int) | CancelRequest(id: int)

  /** The buttons shown: none before an appointment is loaded; Edit and
      Cancel for a pending or confirmed one; Confirm only when pending;
      Complete only when confirmed. */
  function Actions(appointment: Option<Appointment>): (r: set<Action>)
    ensures appointment.None? ==> r == {}
    ensures appointment.Some? ==>
      var s := appointment.value.status;
      (Edit in r <==> s == PENDING || s == CONFIRMED) &&
      (Cancel in r <==> s == PENDING || s == CONFIRMED) &&
      (Confirm in r <==> s == PENDING) &&
      (Complete in r <==> s == CONFIRMED)
  {
    if appointment.None? then {}
    else match appointment.value.status
      case PENDING => {Edit, Confirm, Cancel}
      case CONFIRMED => {Edit, Complete, Cancel}
      case _ => {}
  }

  /** Confirm and Complete are never offered together; whichever is offered
      comes with Edit and Cancel; a cancelled, completed or missed
      appointment offers nothing. */
  lemma ActionsConsistent(appointment: Option<Appointment>)
    ensures !(Confirm in Actions(appointment) && Complete in Actions(appointment))
    ensures Confirm in Actions(appointment) || Complete in Actions(appointment) ==>
      Edit in Actions(appointment) && Cancel in Actions(appointment)
    ensures appointment.Some? && appointment.value.status in {CANCELLED, COMPLETED, NO_SHOW} ==>
      Actions(appointment) == {}
  {
  }

  class AppointmentDetailComponent {
    var appointment: Option<Appointment>

    constructor ()
      ensures appointment.None?
    {
      appointment := None;
    }

    /** `ngOnInit`: a non-empty `id` route parameter asks for that
        appointment. */
    method NgOnInit(id: Option<string>, toNumber: string -> int) returns (load: Option<int>)
      ensures id.Some? && id.value != "" ==> load == Some(toNumber(id.value))
      ensures id.None? || id.value == "" ==> load.None?
    {
      load := if id.Some? && id.value != "" then Some(toNumber(id.value)) else None;
    }

    /** The error callback of `loadAppointment`: back to the list. */
    method OnLoadError() returns (navigateTo: string)
      ensures navigateTo == "/appointments"
    {
      navigateTo := "/appointments";
    }

    /** `confirmAppointment`: the id of the appointment held, if any. */
    method ConfirmAppointment() returns (sent: Option<ActionRequest>)
      ensures appointment.None? ==> sent.None?
      ensures appointment.Some? ==> sent == Some(ConfirmRequest(appointment.value.id))
    {
      sent := if appointment.Some? then Some(ConfirmRequest(appointment.value.id)) else None;
    }

    /** `completeAppointment`: the id of the appointment held, if any. */
    method CompleteAppointment() returns (sent: Option<ActionRequest>)
      ensures appointment.None? ==> sent.None?
      ensures appointment.Some? ==> sent == Some(CompleteRequest(appointment.value.id))
    {
      sent := if appointment.Some? then Some(CompleteRequest(appointment.value.id)) else None;
    }

    /** `cancelAppointment`: the dialog is shown only when an appointment is
        held, and the request is sent only when the user agrees. */
    method CancelAppointment(userAgrees: bool) returns (asked: bool, sent: Option<ActionRequest>)
      ensures asked <==> appointment.Some?
      ensures sent.Some? <==> appointment.Some? && userAgrees
      ensures sent.Some? ==> sent.value == CancelRequest(appointment.value.id)
    {
      asked := appointment.Some?;
      sent := if appointment.Some? && userAgrees then Some(CancelRequest(appointment.value.id)) else None;
    }

    /** The success callback of `loadAppointment`: the appointment shown
        becomes the one the server sent. */
    method ShowAppointment(updated: Appointment)
      modifies this
      ensures appointment == Some(updated)
    {
      appointment := Some(updated);
    }

    /** The success callback of an action: the appointment the server sent
        back is shown and a snack bar names what was done. */
    method OnActionDone(done: ActionRequest, updated: Appointment) returns (message: string)
      modifies this
      ensures appointment == Some(updated)
      ensures done.ConfirmRequest? ==> message == "Appointment confirmed"
      ensures done.CompleteRequest? ==> message == "Appointment completed"
      ensures done.CancelRequest? ==> message == "Appointment cancelled"
    {
      ShowAppointment(updated);
      message := match done
        case ConfirmRequest(_) => "Appointment confirmed"
        case CompleteRequest(_) => "Appointment completed"
        case CancelRequest(_) => "Appointment cancelled";
    }
  }
}
