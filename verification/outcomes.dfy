/** Optional values and the shapes of results the to-do list deals in. */
module Outcomes {

  /** Swift's `Optional`: `None` plays the part of `nil`. */
  datatype Option<+T> = None | Some(value: T)

  /** What one remote call yields as the view model sees it: the value it
      produced, or a failure whose details are only logged and then dropped. */
  datatype Outcome<+T> = Success(value: T) | Failure

  /** A result that keeps its error, usable with `:-`. */
  datatype Result<+T, +E> = Ok(value: T) | Err(error: E) {

    predicate IsFailure() {
      Err?
    }

    function PropagateFailure<U>(): Result<U, E>
      requires Err?
    {
      Err(error)
    }

    function Extract(): T
      requires Ok?
    {
      value
    }
  }
}
