/** Java's nullable references and thrown exceptions, written as values. */
module Wrappers {

  /** A Java reference that may be null: None stands for null. */
  datatype Option<+T> = None | Some(value: T) {
    function GetOr(default: T): T {
      match this
      case Some(v) => v
      case None => default
    }
  }

  /** The outcome of a Java call that either returns a value or throws. */
  datatype Result<+R, +E> = Success(value: R) | Failure(error: E)

  /** The unchecked Java exceptions the modelled code can raise. */
  datatype JavaException =
    | NullPointerException
    | StringIndexOutOfBoundsException
    | IllegalArgumentException
}
