/** Failure-carrying values used in place of the exceptions the domain layer throws. */
module Outcomes {

  /** An optional value: `None` stands for JavaScript's `undefined` or `NaN`. */
  datatype Option<+T> = None | Some(value: T)

  /** The result of a check or of a void operation that may throw. */
  datatype Outcome<+E> = Pass | Fail(error: E)

  /** The result of an operation that returns a value or throws. */
  datatype Result<+T, +E> = Ok(value: T) | Err(error: E)
}
