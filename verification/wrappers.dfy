/** Option and Result datatypes standing for C# null references and thrown exceptions. */
module Wrappers {

  /** A value that may be missing: `None` models a C# `null` or an unset `int?`. */
  datatype Option<+T> = None | Some(value: T) {

    /** The C# null-coalescing operator `x ?? d`. */
    function GetOr(default: T): T {
      match this
      case Some(v) => v
      case None => default
    }
  }

  /** The outcome of an operation that throws on some inputs. */
  datatype Result<+R, +E> = Success(value: R) | Failure(error: E)
}
