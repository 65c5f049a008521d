/** Kotlin's nullable values, and the outcome of a `runCatching` around a call this model does not make. */
module Wrappers {

  datatype Option<+T> = None | Some(value: T) {

    /** `this ?: default` */
    function GetOr(default: T): T {
      match this
      case Some(v) => v
      case None => default
    }
  }

  /** A call that either returned a value or threw (its message kept). */
  datatype Outcome<+T> = Ok(value: T) | Err(error: string)
}
