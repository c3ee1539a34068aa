/** Result types used in place of the null references and exceptions of
    the checkout. */
module Wrappers {

  /** An optional value; `None` stands for a C# `null` reference. */
  datatype Option<+T> = None | Some(value: T)

  /** The outcome of an operation that computes a value or fails. */
  datatype Result<+R, +E> = Success(value: R) | Failure(error: E)

  /** The outcome of an operation that only changes state or fails. */
  datatype Outcome<+E> = Pass | Fail(error: E)
}
