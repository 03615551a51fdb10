/** Optional values and request outcomes shared by every module. */
module Wrappers {

  datatype Option<+T> = None | Some(value: T)
  {
    function GetOr(default: T): T
    {
      match this
      case Some(v) => v
      case None => default
    }
  }

  /** An HTTP-style failure: the status code and the `error` text of the JSON body. */
  datatype Failure = Failure(status: int, error: string)

  /** The reply to a body that fails its schema (zod). */
  const VALIDATION_FAILED := Failure(400, "Validation failed")

  /** A text value JavaScript treats as true: present and not empty. */
  predicate Truthy(s: Option<string>)
  {
    s.Some? && s.value != ""
  }

  /** The outcome of a route handler: a success value or a failure response. */
  datatype Result<+T> = Ok(value: T) | Err(failure: Failure)
  {
    predicate IsFailure() { Err? }
  }
}
