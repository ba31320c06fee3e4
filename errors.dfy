/** Optional values and the errors the egress handler returns or classifies. */
module Errors {

  datatype Option<+T> = None | Some(value: T)

  /** A value or the error a collaborator returned instead of it. */
  datatype Result<+T> = Ok(value: T) | Err(error: Error)

  /** The errors that flow through the handler.  A Go `error` that is nil is
      `None` of an `Option<Error>`. */
  datatype Error =
    | EgressNotFound                   // errors.ErrEgressNotFound
    | DeadlineExceeded(msg: string)    // a gRPC status error with code DeadlineExceeded
    | Fatal(cause: Error)              // errors.Fatal(err): an infrastructure fault
    | Failure(msg: string)             // any other error a collaborator returns

  /** errors.IsFatal: only an error wrapped by errors.Fatal is fatal. */
  predicate IsFatal(e: Error) {
    e.Fatal?
  }

  /** err.Error(): the text of an error.  A fatal error reads as its cause. */
  function ErrorText(e: Error): string {
    match e
    case EgressNotFound => "egress not found"
    case DeadlineExceeded(msg) => msg
    case Fatal(cause) => ErrorText(cause)
    case Failure(msg) => msg
  }
}
