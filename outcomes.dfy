/** Optional values and the outcome of a step that may raise. */
module Outcomes {

  /** A value that may be absent (Python's `None`). */
  datatype Option<T> = None | Some(value: T)

  /** The result of a step that either returns a value or raises an exception
      whose `str(...)` is `msg`. */
  datatype Outcome<T> = Ok(value: T) | Fail(msg: string)
}
