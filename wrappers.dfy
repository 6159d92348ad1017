/** Small failure-carrying datatypes shared by every module. */
module Wrappers {

  datatype Option<T> = None | Some(value: T)

  /** The outcome of a call that either returns a value or raises an exception,
      named by its class and its text ("KeyError: 'topic'"). */
  datatype Outcome<T> = Ok(value: T) | Raise(error: string)

  /** A result whose failure is a structured error rather than a message. */
  datatype Result<T, E> = Success(value: T) | Failure(error: E)
}
