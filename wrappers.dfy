/** Option and Outcome values shared by the other modules. */
module Wrappers {

  datatype Option<T> = None | Some(value: T) {
    function GetOr(default: T): T {
      match this
      case Some(v) => v
      case None => default
    }
  }

  /** The result of an operation that either completes or throws an error with a message. */
  datatype Outcome = Pass | Fail(error: string)
}
