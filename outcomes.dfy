/** Outcomes of the scripted browser calls. A Python `raise` is a failure value
    that carries the exception's text (`str(e)`); both types are failure-compatible,
    so `:-` in a method propagates the first raised exception exactly as the
    body of a Python `try` block stops at the first statement that raises. */
module Outcomes {

  /** The outcome of a call whose value is not used: it completes or it raises. */
  datatype Outcome = Completes | Raises(message: string) {
    predicate IsFailure() {
      Raises?
    }

    function PropagateFailure<U>(): Attempt<U>
      requires Raises?
    {
      Raised(message)
    }
  }

  /** The outcome of a call that returns a value of type T, or raises. */
  datatype Attempt<+T> = Done(value: T) | Raised(message: string) {
    predicate IsFailure() {
      Raised?
    }

    function PropagateFailure<U>(): Attempt<U>
      requires Raised?
    {
      Raised(message)
    }

    function Extract(): T
      requires Done?
    {
      value
    }
  }

  /** Python's `None` or a value. */
  datatype Option<+T> = None | Some(value: T)
}
