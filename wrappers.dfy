/** Option, Result and the error kinds the backend surfaces. */
module Wrappers {

  datatype Option<+T> = None | Some(value: T) {
    function GetOr(default: T): T {
      match this
      case Some(v) => v
      case None => default
    }
  }

  /** The ways an operation of the backend can fail. */
  datatype Error =
    | NotFound(detail: string)     // HTTP 404 raised by a handler
    | BadRequest(detail: string)   // HTTP 400 raised by a handler
    | Forbidden(detail: string)    // HTTP 403 raised by a handler
    | Invalid(detail: string)      // a request validator's ValueError (HTTP 422)
    | Raised(exception: string)    // an exception nobody catches (ValueError, NameError, IntegrityError)

  datatype Result<+T> = Ok(value: T) | Err(error: Error)
}
