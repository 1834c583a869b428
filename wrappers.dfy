/** Option and Result, usable with `:-`, and the Python exceptions the model can raise. */
module Wrappers {

  datatype Option<+T> = None | Some(value: T) {
    function GetOr(default: T): T {
      match this
      case Some(v) => v
      case None => default
    }
  }

  /** The exception classes the modelled Python code can raise. */
  datatype Exc =
    | KeyError(key: string)
    | IndexError
    | ValueError(reason: string)
    | TypeError(reason: string)
    | AttributeError(reason: string)
    | HttpStatusError(status: int)
    | TransportError
    | JsonDecodeError
    | RuntimeError(reason: string)

  datatype Result<+R> = Success(value: R) | Failure(error: Exc) {
    predicate IsFailure() {
      Failure?
    }

    function PropagateFailure<U>(): Result<U>
      requires Failure?
    {
      Failure(error)
    }

    function Extract(): R
      requires Success?
    {
      value
    }
  }
}
