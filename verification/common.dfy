/** Failure-compatible wrappers shared by the compiler back end and the namespace model. */
module Common {

  datatype Option<+T> = None | Some(value: T)

  /** The `Result<T, E>` of the compiler: `?` becomes Dafny's `:-`. */
  datatype Result<+T, +E> = Ok(value: T) | Err(error: E) {
    predicate IsFailure() { Err? }

    function PropagateFailure<U>(): Result<U, E>
      requires Err?
    {
      Err(error)
    }

    function Extract(): T
      requires Ok?
    {
      value
    }
  }

  /** A `Result<(), E>`. */
  datatype Outcome<+E> = Pass | Fail(error: E) {
    predicate IsFailure() { Fail? }

    function PropagateFailure(): Outcome<E>
      requires Fail?
    {
      this
    }
  }

  /** Rust's `u8`. */
  newtype u8 = x: int | 0 <= x < 256

  const TwoTo32: nat := 0x1_0000_0000
}
