/** Small failure-carrying datatypes shared by every module of the model. */
module Wrappers {

  /** A value that may be absent (JavaScript `undefined`/`null` where the distinction does not matter). */
  datatype Option<+T> = None | Some(value: T) {
    function GetOr(default: T): T {
      match this
      case Some(v) => v
      case None => default
    }
  }

  /** The two JavaScript "no value" values, kept apart where the program distinguishes them. */
  datatype Nullish = AsNull | AsUndefined

  /** The outcome of a lookup that answers `null` or `undefined` when nothing is found. */
  datatype Lookup<+T> = Found(value: T) | Missing(how: Nullish)

  /** Either a computed value or an error message. */
  datatype Result<+T, +E> = Success(value: T) | Failure(error: E)
}
