/** Failure-carrying values used by the rest of the model: Python's `None`, raised
    exceptions and the "raise or fall through" shape of a guard. */
module Common {

  datatype Option<+T> = None | Some(value: T)

  /** A computation that returns `value` or raises `error`. Usable with `:-`. */
  datatype Result<+T, +E> = Ok(value: T) | Err(error: E) {
    predicate IsFailure() {
      Err?
    }

    function PropagateFailure<U>(): Result<U, E>
      requires Err?
    {
      Err(error)
    }

    function Extract(): T
      requires Ok?
    {
      value
    }
  }

  /** A check that either passes (returns `None` in Python) or raises `error`. */
  datatype Outcome<+E> = Pass | Fail(error: E)
}
