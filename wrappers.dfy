/** Option and Result, the two failure-compatible wrappers the model uses. */
module Wrappers {

  datatype Option<+T> = None | Some(value: T) {
    function GetOr(default: T): T {
      match this
      case Some(v) => v
      case None => default
    }
  }

  /** A computation that either produces a value or is rejected; `issue` names the offending field. */
  datatype Result<+T> = Ok(value: T) | Err(issue: string) {
    predicate IsFailure() {
      Err?
    }

    function PropagateFailure<U>(): Result<U>
      requires Err?
    {
      Err(issue)
    }

    function Extract(): T
      requires Ok?
    {
      value
    }
  }
}
