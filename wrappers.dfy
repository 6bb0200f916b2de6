/** Failure-carrying result types shared by the codec and the assembler. */
module Wrappers {

  datatype Option<T> = None | Some(value: T)

  /** A value or an error; usable with `:-` in functions. */
  datatype Result<T, E> = Success(value: T) | Failure(error: E) {
    predicate IsFailure() { Failure? }

    function PropagateFailure<U>(): Result<U, E>
      requires Failure?
    {
      Failure(error)
    }

    function Extract(): T
      requires Success?
    {
      value
    }
  }

  /** Success without a value, or an error: the shape of Rust's `Result<(), E>`. */
  datatype Outcome<E> = Pass | Fail(error: E)
}
