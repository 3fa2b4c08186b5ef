/** Option and Result, the two failure-carrying values the model uses.
    `Result` stands for "the Python code returned a value" versus
    "an exception escaped", see `Wrappers.Error`. */
module Wrappers {

  datatype Option<+T> = None | Some(value: T) {
    function GetOr(default: T): T {
      match this
      case Some(v) => v
      case None => default
    }
  }

  /** Why a step ended in an exception that the source does not catch. */
  datatype Error =
    | IndexError(what: string)      // a list subscript out of range
    | ValueError(what: string)      // int() of malformed text, and the like
    | TypeError(what: string)       // subscripting None, a wrong arity
    | NameError(what: string)       // a variable read before it was first bound
    | AttributeError(what: string)  // an attribute of None
    | OSError(what: string)         // a request or a file open that failed
    | SystemExit(message: string)   // sys.exit(...)

  datatype Result<+R> = Success(value: R) | Failure(error: Error) {
    predicate IsFailure() { Failure? }
    function PropagateFailure<U>(): Result<U>
      requires Failure?
    {
      Failure(error)
    }
    function Extract(): R
      requires Success?
    {
      value
    }
  }
}
