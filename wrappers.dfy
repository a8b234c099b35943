/** Optional values and the settled outcome of an awaited call. */
module Wrappers {

  /** `T | null | undefined` in the source. */
  datatype Option<+T> = None | Some(value: T) {
    /** `x ?? fallback` */
    function GetOr(fallback: T): T {
      match this
      case Some(v) => v
      case None => fallback
    }
  }

  /** How an awaited call settled: resolved with a value, or rejected with an error whose
      `message` property may be missing (`e?.message` is then `undefined`). Network calls,
      storage reads and other I/O are parameters of this type. */
  datatype Outcome<+T> = Ok(value: T) | Err(reason: Option<string>)
}
