/** Failure-carrying wrappers and the error kinds the core raises. */
module Base {

  datatype Option<+T> = None | Some(value: T)

  datatype Result<+T, +E> = Ok(value: T) | Err(error: E)

  /** A call that either succeeds without a value or fails with an error. */
  datatype Outcome<+E> = Pass | Fail(error: E)

  /** The exception classes the modelled code lets escape:
      a missing registry name or agent id (Python KeyError),
      a rejected payload (Python ValueError),
      and a value of the wrong kind (Python TypeError / AttributeError). */
  datatype Error =
    | NotFound(key: string)
    | Invalid(message: string)
    | WrongType(message: string)
}
