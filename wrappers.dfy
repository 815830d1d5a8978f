/** Failure-compatible wrappers shared by every module of the model. */
module Wrappers {

  /** A value that may be absent: Python's `Optional[T]` / `None`. */
  datatype Option<+T> = None | Some(value: T) {

    /** `value` when present, otherwise `default` (the shape of `dict.get(key, default)`). */
    function GetOr(default: T): T {
      if Some? then value else default
    }
  }

  /** The outcome of an operation that can raise: `Ok` or the exception's text. */
  datatype Result<+T, +E> = Ok(value: T) | Err(error: E)
}
