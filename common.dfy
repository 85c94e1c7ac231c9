/** Failure-carrying wrappers shared by the other modules. */
module Common {

  /** A value that may be absent: JavaScript's `undefined`/`null` versus a value. */
  datatype Option<+T> = None | Some(value: T)

  /** The outcome of a computation that may throw. */
  datatype Result<+T, +E> = Ok(value: T) | Err(error: E)

  /** How an HTTP request completed, as the component sees it: the response
      body on success; otherwise the HTTP status (None when no response
      arrived) and the `message` field of the error body. */
  datatype Response<+T> = Success(data: T) | Failure(status: Option<int>, message: string)
}
