/** Option and Result: absent values (`undefined`/`null` in the source) and
    operations that either produce a value or fail with an error. */
module Wrappers {

  datatype Option<+T> = None | Some(value: T) {
    /** The value, or `default` when absent (the source's `??` operator). */
    function GetOr(default: T): T {
      match this
      case Some(v) => v
      case None => default
    }
  }

  datatype Result<+T, +E> = Ok(value: T) | Err(error: E)

  /** Success without a value (a `Promise<void>` that resolved) or a failure. */
  datatype Outcome<+E> = Pass | Fail(error: E)
}
