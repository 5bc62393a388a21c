/** The portal's view of an appointment, as its screens receive it. */
module PortalAppointment {
  import opened Wrappers

  datatype Status = PENDING | CONFIRMED | CANCELLED | COMPLETED | NO_SHOW

  /** An `Appointment` of the portal. Dates and times are the texts the server
      sends; `appointmentType` is the portal's `type` member. */
  datatype Appointment = Appointment(
    id: int,
    patientId: int,
    patientName: string,
    doctorId: int,
    doctorName: string,
    departmentId: int,
    departmentName: string,
    appointmentDate: string,
    appointmentTime: string,
    duration: int,
    status: Status,
    appointmentType: string,
    reason: string,
    notes: Option<string>)
}
