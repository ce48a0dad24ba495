/** Failure-compatible wrappers shared by the model: an optional value, a
    value-or-exception result, and a pass-or-exception outcome. */
module Wrappers {

  /** Python's `Optional[T]`: `None` or a present value. */
  datatype Option<+T> = None | Some(value: T) {
    function GetOr(default: T): T {
      match this
      case Some(v) => v
      case None => default
    }
  }

  /** A Python exception, reduced to its class name and its message. */
  datatype Exception = Exception(kind: string, message: string)

  /** The value a Python call returns, or the exception it raises. */
  datatype Result<+R> = Ok(value: R) | Err(error: Exception) {
    predicate IsFailure() { Err? }
    function PropagateFailure<U>(): Result<U>
      requires Err?
    {
      Err(error)
    }
    function Extract(): R
      requires Ok?
    {
      value
    }
  }

  /** A Python call that returns nothing: it completes or raises. */
  datatype Outcome = Pass | Fail(error: Exception)
}
