/** Option and Result used throughout the model. Python exceptions become `Err` values whose
    kind names the exception class the source raises, so contracts can tell a ValueError
    from a TypeError or an IndexError. */
module Wrappers {

  datatype Option<+T> = None | Some(value: T) {
    function GetOr(default: T): T {
      match this
      case Some(v) => v
      case None => default
    }
  }

  /** The Python exception classes the modelled code raises or lets escape. */
  datatype ErrorKind =
    | ValueError
    | TypeError
    | IndexError
    | KeyError
    | NotImplementedError
    | RuntimeError
    | AttributeError
    | GenericException

  datatype Result<+T> = Ok(value: T) | Err(kind: ErrorKind) {
    predicate IsFailure() { Err? }
    function PropagateFailure<U>(): Result<U>
      requires Err?
    {
      Err(kind)
    }
    function Extract(): T
      requires Ok?
    {
      value
    }
  }

  /** A step that either succeeds without a value or raises. */
  datatype Outcome = Pass | Fail(kind: ErrorKind) {
    predicate IsFailure() { Fail? }
    function PropagateFailure(): Outcome
      requires Fail?
    {
      this
    }
  }
}
