/** Optional values and the settled result of one asynchronous call. */
module Wrappers {

  /** A value that may be absent: TypeScript's `T | null` and optional props. */
  datatype Option<+T> = None | Some(value: T)

  /** How one awaited backend call settled: resolved with a value, or rejected (it threw). */
  datatype Outcome<+T> = Resolved(value: T) | Rejected

  /** The value-less result of a call that returns `Promise<void>`. */
  datatype Unit = Unit
}
