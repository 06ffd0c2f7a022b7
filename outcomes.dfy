/** Failure-carrying wrappers shared by the backend and client models. */
module Outcomes {

  /** A value that may be absent (`null` in TypeScript, a nil pointer in Go). */
  datatype Option<T> = None | Some(value: T)

  /** A Go `(value, error)` pair: either a value or an error message. */
  datatype Result<T> = Ok(value: T) | Err(message: string)

  /** How an awaited promise settles: with a value, or by throwing. The client
      catches every rejection without looking at it, so it carries nothing. */
  datatype Settled<T> = Fulfilled(value: T) | Rejected

  /** JavaScript's `data || []` for a list the server may send as `null`. */
  function OrEmpty<T>(data: Option<seq<T>>): seq<T>
  {
    match data
    case Some(xs) => xs
    case None => []
  }
}
