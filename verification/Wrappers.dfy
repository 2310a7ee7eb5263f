/** Failure-carrying results shared by every module. */
module Wrappers {

  datatype Option<+T> = None | Some(value: T)

  /** The outcome of a step that returns nothing: it finished, or it raised. */
  datatype Status = Done | Raised {
    predicate IsFailure() { Raised? }
    function PropagateFailure(): Status
      requires Raised?
    {
      this
    }
  }

  /** A value, or the exception raised instead of it. */
  datatype Result<+T> = Ok(value: T) | Err {
    predicate IsFailure() { Err? }
    function PropagateFailure<U>(): Result<U>
      requires Err?
    {
      Err
    }
    function Extract(): T
      requires Ok?
    {
      value
    }
  }
}
