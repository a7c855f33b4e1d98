/** Failure-compatible wrappers shared by every module of the model. */
module Wrappers {

  /** A value the platform may report as null. */
  datatype Option<+T> = None | Some(value: T) {

    /** The wrapped value, or `default` when there is none (Kotlin's `?:`). */
    function GetOr(default: T): T {
      match this
      case Some(v) => v
      case None => default
    }
  }

  /** A computation that either yields a value or ends the process with an
      uncaught exception. */
  datatype Result<+R, +E> = Success(value: R) | Failure(error: E)

  /** The outcome of reading an accessor guarded by the READ_PHONE_STATE
      runtime permission: the values read, or a SecurityException. */
  datatype Permission<+T> = Granted(values: T) | Denied
}
