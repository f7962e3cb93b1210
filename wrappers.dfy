/** Small value wrappers shared by every part of the dashboard model. */
module Wrappers {

  /** A value that may be absent: JavaScript's `null` / `undefined`. */
  datatype Option<+T> = None | Some(value: T)

  /** How an awaited network call settled: resolved (`Ok`) or threw (`Err`). */
  datatype Outcome = Ok | Err
}
