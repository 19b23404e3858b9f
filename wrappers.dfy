/** Failure-compatible wrappers used by the parsers and by the route handlers. */
module Wrappers {

  datatype Option<+T> = None | Some(value: T) {
    predicate IsFailure() { None? }

    function PropagateFailure<U>(): Option<U>
      requires None?
    {
      None
    }

    function Extract(): T
      requires Some?
    {
      value
    }

    function GetOr(default: T): T {
      match this
      case Some(v) => v
      case None => default
    }

    /** The value as a sequence of at most one element. */
    function ToSeq(): seq<T> {
      if Some? then [value] else []
    }
  }

  /** The outcome of a route handler: a document, or the exception it throws. */
  datatype Result<+T> = Ok(value: T) | Err(error: string)
}
