/** Small failure-carrying datatypes shared by the other modules. */
module Wrappers {

  /** `None` stands for JavaScript's `undefined`: a missing value. */
  datatype Option<+T> = None | Some(value: T)

  /** The outcome of a computation that either yields a value or throws. */
  datatype Result<+T, +E> = Ok(value: T) | Err(error: E)

  /** The outcome of a check that either passes or throws. */
  datatype Outcome<+E> = Pass | Fail(error: E)
}
