/** The two sum types the model shares: an optional value (JavaScript's
    `undefined` or a falsy field) and a success-or-error outcome. */
module Wrappers {

  /** A value that may be absent; it stands for JavaScript's `undefined` (and
      for the other falsy values where the source treats them alike). */
  datatype Option<+T> = None | Some(value: T) {

    /** The carried value, or `default` when there is none (`x || default`). */
    function GetOr(default: T): T {
      match this
      case Some(v) => v
      case None => default
    }
  }

  /** The outcome of an operation that can fail with a message. */
  datatype Result<+R, +E> = Success(value: R) | Failure(error: E)
}
