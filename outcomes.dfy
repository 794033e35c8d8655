/** Values shared by every module: the outcome of a call that may raise, and text helpers. */
module Outcomes {

  /** A value that may be absent, as Python's `None`. */
  datatype Option<T> = None | Some(value: T) {
    /** The value, or `default` when absent (Python's `x or default` for `None`). */
    function GetOr(default: T): T {
      match this
      case Some(v) => v
      case None => default
    }
  }

  /** The outcome of a call into code outside the model: a value, or a raised exception
      of which only `str(e)` is kept. */
  datatype Result<T> = Ok(value: T) | Err(msg: string)

  /** Python's `s.endswith(suffix)`. */
  predicate EndsWith(s: string, suffix: string) {
    |suffix| <= |s| && s[|s| - |suffix|..] == suffix
  }
}
