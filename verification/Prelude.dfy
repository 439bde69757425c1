/** Failure-compatible results: the values that stand for a returned value or a thrown error. */
module Prelude {

  /** The outcome of a call: the value it returns, or the error it throws. */
  datatype Result<+T, +E> = Ok(value: T) | Err(error: E) {
    predicate IsFailure() { Err? }

    function PropagateFailure<U>(): Result<U, E>
      requires Err?
    {
      Err(error)
    }

    function Extract(): T
      requires Ok?
    {
      value
    }
  }

  /** The outcome of a guard that yields nothing. */
  datatype Outcome<+E> = Pass | Fail(error: E) {
    predicate IsFailure() { Fail? }

    function PropagateFailure<U>(): Result<U, E>
      requires Fail?
    {
      Err(error)
    }
  }

  /** A guard: the source's requireThat/must. */
  function Need<E>(condition: bool, error: E): Outcome<E> {
    if condition then Pass else Fail(error)
  }

  datatype Option<+T> = None | Some(value: T)
}
