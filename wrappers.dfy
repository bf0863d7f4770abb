/** Option and Result, used for absent values and for the exceptions the
    source lets escape to its caller. */
module Wrappers {

  datatype Option<+T> = None | Some(value: T) {
    predicate IsFailure() {
      None?
    }

    function PropagateFailure<U>(): Option<U>
      requires None?
    {
      None
    }

    function Extract(): T
      requires Some?
    {
      value
    }

    function GetOr(default: T): T {
      match this
      case Some(v) => v
      case None => default
    }
  }

  datatype Result<+T, +E> = Ok(value: T) | Err(error: E) {
    predicate IsFailure() {
      Err?
    }

    function PropagateFailure<U>(): Result<U, E>
      requires Err?
    {
      Err(error)
    }

    function Extract(): T
      requires Ok?
    {
      value
    }
  }

  /** The .NET exceptions that escape from an export. */
  datatype Exception =
    | OverflowException           // (int) of a decimal outside the 32-bit range
    | IndexOutOfRangeException    // indexing past the end of a split result
    | InvalidOperationException   // GetRequiredService on an unregistered service
}
