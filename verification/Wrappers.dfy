/** Result types for answers that may be missing and calls that may fail. */
module Wrappers {

  datatype Option<+T> = None | Some(value: T)

  /** How a call ends: normally, with an error the caller handles, or in a Go panic. */
  datatype Outcome = Done | Failed | Panicked
}
