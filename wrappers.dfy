/** Optional values and results, as used by every module of the model. */
module Wrappers {

  /** A value that may be missing: JavaScript's `undefined`/`null` versus a present value. */
  datatype Option<+T> = None | Some(value: T)
  {
    /** The value, or `default` when missing (JavaScript's `??`). */
    function GetOr(default: T): T
    {
      match this
      case Some(v) => v
      case None => default
    }
  }

  /** The outcome of a call to a collaborator that can fail with an error. */
  datatype Result<+T, +E> = Ok(value: T) | Err(error: E)
}
