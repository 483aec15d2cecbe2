/** The records the appointment service stores and the two kinds of failure it raises. */
module AppointmentTypes {

  /** A doctor is identified by the exact, case-sensitive name string. */
  datatype Doctor = Doctor(name: string)

  /** A patient is identified by the exact email string; the names are carried along. */
  datatype Patient = Patient(firstName: string, lastName: string, email: string)

  /** An appointment has no identifier of its own; the time slot is kept as text. */
  datatype Appointment = Appointment(doctor: Doctor, patient: Patient, timeSlot: string)

  /** The two error classes: a bad request (status 400) and a conflict (status 409). */
  datatype ServiceError = BadRequest(message: string) | Conflict(message: string)

  /** Either the value an operation returns or the error it throws. */
  datatype Result<T> = Ok(value: T) | Err(error: ServiceError)

  datatype Option<T> = None | Some(value: T)

  const OneHourMessage := "Time slot must be one hour long."
  const WorkingHoursMessage := "Time slot must be between 09:00 and 15:00."
  const NotAvailableMessage := "Time slot not available"
  const DoesNotExistMessage := "Appointment does not exist"

  /** The HTTP status code each error class carries. */
  function StatusCode(e: ServiceError): (code: int)
    ensures code == 400 <==> e.BadRequest?
    ensures code == 409 <==> e.Conflict?
  {
    match e
    case BadRequest(_) => 400
    case Conflict(_) => 409
  }
}
