/** Absent values and failing results: the model's stand-ins for C# `null`
    returns and for exceptions a caller may observe. */
module Wrappers {

  /** A possibly absent value; `None` plays the role of a C# `null` reference. */
  datatype Option<+T> = None | Some(value: T)

  /** The outcome of an operation that may fail; usable with `:-`. */
  datatype Result<+T, +E> = Success(value: T) | Failure(error: E) {

    predicate IsFailure() {
      Failure?
    }

    function PropagateFailure<U>(): Result<U, E>
      requires Failure?
    {
      Failure(error)
    }

    function Extract(): T
      requires Success?
    {
      value
    }
  }
}
