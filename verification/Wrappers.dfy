/** A value that may be absent. */
module Wrappers {
  datatype Option<+T> = None | Some(value: T)
}

/** How an awaited call settles: with a value, or by throwing. */
module Outcomes {
  datatype Outcome<+T, +E> = Done(value: T) | Threw(error: E) {
    predicate IsFailure() {
      Threw?
    }

    function PropagateFailure<U>(): Outcome<U, E>
      requires Threw?
    {
      Threw(error)
    }

    function Extract(): T
      requires Done?
    {
      value
    }
  }
}
