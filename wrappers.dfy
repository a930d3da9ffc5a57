/** Option, Result and Outcome: the values the model uses where the Python code returns
    None, raises an exception, or succeeds without a value. */
module Wrappers {

  datatype Option<+T> = None | Some(value: T) {
    function GetOr(default: T): T
    {
      match this
      case Some(v) => v
      case None => default
    }
  }

  datatype Result<+T, +E> = Success(value: T) | Failure(error: E)

  /** The outcome of an operation that returns nothing but may raise an exception carrying `E`. */
  datatype Outcome<+E> = Pass | Fail(error: E)
}
