/** Optional values, used for JavaScript's `null`/`undefined` where a value may be missing. */
module Wrappers {

  datatype Option<+T> = None | Some(value: T) {

    /** The wrapped value, or `default` when there is none. */
    function GetOr(default: T): T {
      match this
      case Some(v) => v
      case None => default
    }
  }

  /** The outcome of a computation that may throw: the value, or the fact that it threw. */
  datatype Result<+T> = Ok(value: T) | Threw
}

/** The connection status every real-time session (primary or interpretation leg) reports. */
module Statuses {
  datatype SessionStatus = Disconnected | Connecting | Connected
}
