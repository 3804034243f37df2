/** Failure-compatible helper types shared by every module of the model. */
module Wrappers {

  /** An optional value (Swift's `T?`). */
  datatype Option<+T> = None | Some(value: T)
  {
    /** Swift's `??`: the value if present, otherwise the default. */
    function GetOr(default: T): T
    {
      match this
      case Some(v) => v
      case None => default
    }
  }

  /** The outcome of a Swift function that `throws`: a value, or the error it threw. */
  datatype Result<+T, +E> = Ok(value: T) | Err(error: E)

  /** An error thrown by code outside the model (a closure or a value supplied by a client,
      or the platform), known only by its identity. */
  datatype ClientError = ClientError(id: nat)
}
