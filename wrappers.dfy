/** Small value wrappers shared by the modules of this model. */
module Wrappers {

  /** A value that may be absent: JavaScript's `null` for the fields that hold one. */
  datatype Option<+T> = None | Some(value: T) {
    function GetOr(default: T): T {
      match this
      case Some(v) => v
      case None => default
    }
  }

  /** The outcome of an operation that either returns a value or throws. */
  datatype Result<+T, +E> = Success(value: T) | Failure(error: E)

  /**
   * A JavaScript value of an object type that may also be `undefined` or `null`.
   * An object value is always truthy; `undefined` and `null` are falsy.
   */
  datatype JsNullable<+T> = Undefined | Null | Value(value: T)
}
