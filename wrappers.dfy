// Option and Result, the two wrappers every other module uses for
// "may be absent" and "may throw".
module Wrappers {

  datatype Option<T> = None | Some(value: T)
  {
    function GetOr(default: T): T
    {
      match this
      case None => default
      case Some(v) => v
    }
  }

  /** A computation that either produced a value or threw with a message. */
  datatype Result<T> = Ok(value: T) | Err(error: string)
  {
    predicate IsFailure()
    {
      Err?
    }

    function PropagateFailure<U>(): Result<U>
      requires Err?
    {
      Err(error)
    }

    function Extract(): T
      requires Ok?
    {
      value
    }
  }
}
