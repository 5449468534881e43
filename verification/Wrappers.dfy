/** The two result shapes the daemon's code uses: an optional value and an operation that may throw. */
module Wrappers {

  datatype Option<+T> = None | Some(value: T)

  /** A call that returned normally, or one that let an exception out. */
  datatype Outcome = Done | Threw
}
