/** Small failure-carrying datatypes shared by the modules of the model. */
module Wrappers {

  /** A PHP value that may be `null`: `None` stands for `null` (or an absent key). */
  datatype Option<+T> = None | Some(value: T)

  /** The outcome of a step that either yields a value or throws. */
  datatype Result<+R, +E> = Success(value: R) | Failure(error: E)

  /** The outcome of a check that either passes or throws. */
  datatype Outcome<+E> = Pass | Fail(error: E)
}
