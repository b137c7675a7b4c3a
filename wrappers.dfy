/** Failure-compatible wrappers shared by every model in this project. */
module Wrappers {

  datatype Option<+T> = None | Some(value: T) {
    function GetOr(default: T): T {
      match this
      case Some(v) => v
      case None => default
    }
  }

  /** The result of a Python computation: a value, or the message of the exception it raised. */
  datatype Result<+R> = Ok(value: R) | Raised(message: string) {
    predicate IsFailure() { Raised? }

    function PropagateFailure<U>(): Result<U>
      requires Raised?
    {
      Raised(message)
    }

    function Extract(): R
      requires Ok?
    {
      value
    }
  }
}
