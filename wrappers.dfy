/** Result and option types shared by every service model: the Java services
    signal failure by throwing, which the model turns into an `Err` value. */
module Wrappers {

  datatype Option<T> = None | Some(value: T) {
    function GetOr(default: T): T {
      match this
      case Some(v) => v
      case None => default
    }
  }

  /** The exceptions the services throw, or that persistence raises on their behalf. */
  datatype Error =
    | NotFound(what: string)        // ResourceNotFoundException
    | BadRequest(message: string)   // BadRequestException
    | InvalidEnum(name: string)     // IllegalArgumentException from Enum.valueOf
    | InvalidDate(text: string)     // DateTimeParseException from LocalDate.parse
    | NullValue                     // NullPointerException on unboxing a missing value
    | NotNullViolation              // a nullable = false column saved as null
    | UniqueViolation               // a unique column saved with a value already present
    | NonUniqueResult               // an Optional finder that matched several rows

  datatype Result<T> = Ok(value: T) | Err(error: Error)

  /** Outcome of an operation that returns nothing (a `void` service method). */
  datatype Outcome = Done | Fail(error: Error)
}
