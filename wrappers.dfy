/** Failure-compatible wrappers shared by the other modules. */
module Wrappers {

  /** A value that may be missing: `null`/`undefined`, or NaN for a parsed number. */
  datatype Option<+T> = None | Some(value: T)

  /** The outcome of an operation whose JavaScript counterpart may throw; `error` is the message. */
  datatype Result<+T> = Ok(value: T) | Err(error: string)
}

/** JavaScript numbers as the modelled code produces them with `Number(...)`. */
module Numbers {

  /** NaN, or a finite value (read as a mathematical real, not an IEEE double). */
  datatype Number = NaN | Finite(value: real)

  /** The message of the RangeError that `Date.prototype.toISOString` throws on an invalid Date. */
  const InvalidTimeMessage := "Invalid time value"
}
