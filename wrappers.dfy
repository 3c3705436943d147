/** Wrappers for a Ruby nil and for a raised exception, shared by the model. */
module Wrappers {

  /** A Ruby value that may be nil: `None` stands for nil. */
  datatype Option<+T> = None | Some(value: T) {
    function GetOr(default: T): T {
      match this
      case Some(v) => v
      case None => default
    }
  }

  /** The outcome of an operation that either completes or raises an exception. */
  datatype Outcome<+E> = Pass | Fail(error: E)
}
