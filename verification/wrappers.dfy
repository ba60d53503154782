/** Option and Result, the two failure-carrying datatypes the model is written with.
    A Python `None` or a missing dictionary key becomes `None`; a raised exception that
    some enclosing `except` catches becomes `Failure`. */
module Wrappers {

  datatype Option<+T> = None | Some(value: T) {

    /** The value carried by `Some`, or `default` for `None` (Python's `d.get(k, default)`). */
    function GetOr(default: T): T {
      match this
      case Some(v) => v
      case None => default
    }
  }

  /** The exception classes the modelled code raises and catches. */
  datatype Raised = KeyError | IndexError | ValueError | TypeError | AttributeError

  datatype Result<+T> = Success(value: T) | Failure(error: Raised) {

    predicate IsFailure() {
      Failure?
    }

    function PropagateFailure<U>(): Result<U>
      requires Failure?
    {
      Failure(error)
    }

    function Extract(): T
      requires Success?
    {
      value
    }

    /** The value on success, `default` when an exception was raised. */
    function GetOr(default: T): T {
      match this
      case Success(v) => v
      case Failure(_) => default
    }
  }

  /** Python `d[k]` on an optional field: the value, or `KeyError`. */
  function Need<T>(o: Option<T>): (r: Result<T>)
    ensures r.Success? <==> o.Some?
    ensures o.Some? ==> r.value == o.value
  {
    match o
    case Some(v) => Success(v)
    case None => Failure(KeyError)
  }
}
