/** Results of fallible operations. */
module Wrappers {
  datatype Option<+T> = None | Some(value: T)

  datatype Result<+T> = Ok(value: T) | Err(message: string)

  /** How a run of API calls ends: completed, stopped by an error, or with the
      operator's process gone. */
  datatype Outcome = Done | Failed | Exited
}
