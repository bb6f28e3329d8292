/** Option and Result, the failure-carrying wrappers used throughout the model.
    A C# reference that may be null is an Option; an operation that may throw
    returns a Result whose Failure names the exception. */
module Wrappers {

  datatype Option<+T> = None | Some(value: T) {
    function GetOr(default: T): T {
      match this
      case Some(v) => v
      case None => default
    }
  }

  datatype Result<+R, +E> = Success(value: R) | Failure(error: E)
}

/** An unsigned 8-bit value, as in a .NET byte[]. */
module Bytes {
  type byte = b: int | 0 <= b < 0x100
}
