/** Option and Result: the model's stand-ins for JavaScript's `undefined`
    and for a thrown `Error`. */
module Wrappers {

  /** A value that may be absent (an optional property, a `?.` chain). */
  datatype Option<+T> = None | Some(value: T)

  /** The outcome of an operation that throws in the source. */
  datatype Result<+R, +E> = Success(value: R) | Failure(error: E)
}
