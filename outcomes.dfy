/** Failure-compatible wrappers for the solvers' error paths.

    The Python code signals errors by raising exceptions; the model returns a
    `Failure` carrying the kind of exception the source would raise instead. */
module Outcomes {

  datatype Option<+T> = None | Some(value: T)

  /** The Python exceptions the modelled code can raise. */
  datatype Error =
    | ValueError         // explicit `raise ValueError(...)` in the source, or int() of a non-digit
    | KeyError           // dictionary lookup of a missing key
    | IndexError         // string or list index out of range
    | TypeError          // arithmetic on a field that is still `None`
    | ZeroDivisionError  // division by a zero total

  datatype Result<+T> = Success(value: T) | Failure(error: Error) {

    predicate IsFailure() {
      Failure?
    }

    function PropagateFailure<U>(): Result<U>
      requires Failure?
    {
      Failure(error)
    }

    function Extract(): T
      requires Success?
    {
      value
    }
  }

  /** The result of an operation that changes state and returns nothing. */
  datatype Outcome = Pass | Fail(error: Error) {

    predicate IsFailure() {
      Fail?
    }

    function PropagateFailure(): Outcome
      requires Fail?
    {
      this
    }
  }
}
