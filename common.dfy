/**
 * Values shared by every part of the model: opaque identities and clock
 * readings, and the ways an operation can end.
 */
module Common {

  /** A `UUID.randomUUID()` value. Callers pass fresh ones in explicitly. */
  type Uuid = nat

  /** A `LocalDateTime.now()` reading. Callers pass the clock value in explicitly. */
  type Timestamp = int

  datatype Option<T> = None | Some(value: T)

  /**
   * How a domain operation guarded by Kotlin's `require` ends: it either
   * passes, or it throws `IllegalArgumentException` with the given message.
   */
  datatype Outcome = Pass | Fail(message: string)

  /** Like `Outcome`, for an operation that also returns a value when it passes. */
  datatype Result<T> = Ok(value: T) | Failure(message: string)

  /**
   * The three ways a reactive `Mono` returned by a service can end: it emits
   * one value, it completes empty (an unknown id), or it signals an error (a
   * domain rule was violated).
   */
  datatype Reply<T> = Value(value: T) | Empty | Error(message: string)
}
