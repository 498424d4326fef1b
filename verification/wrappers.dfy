/** The Option and Result datatypes shared by the rest of the model. */
module Wrappers {

  /** A value that may be absent: `std::optional` in the program. */
  datatype Option<+T> = None | Some(value: T)

  /** The outcome of a step that can fail with an error value. */
  datatype Result<+R, +E> = Success(value: R) | Failure(error: E)
}
