/** Failure-carrying values that replace the exceptions of the modelled code. */
module Wrappers {

  /** An optional value, the `Optional[...]` of the result record. */
  datatype Option<+T> = None | Some(value: T)

  /** The two kinds of exception the use case tells apart: a `ValueError`,
      whose message is reported verbatim, and every other exception. */
  datatype Error = ValueError(message: string) | OtherError(message: string)

  /** The value of an expression that may raise. */
  datatype Result<+T> = Ok(value: T) | Err(error: Error)

  /** The outcome of a statement that returns nothing but may raise. */
  datatype Outcome = Pass | Fail(error: Error)
}
