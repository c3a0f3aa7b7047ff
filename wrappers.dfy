/** Option and Result: JavaScript's `null` and thrown errors, as values. */
module Wrappers {

  /** `None` stands for JavaScript's `null`. */
  datatype Option<+T> = None | Some(value: T)

  /** `Failure` stands for a thrown `Error` or a rejected promise. */
  datatype Result<+R, +E> = Success(value: R) | Failure(error: E)
}
