/** Optional values and error results shared by the model's modules. */
module Wrappers {

  /** A value that may be absent (Python's None). */
  datatype Option<+T> = None | Some(value: T)

  /** A value or the error the source raises instead of returning one. */
  datatype Result<+T, +E> = Ok(value: T) | Err(error: E)

  /**
   * A scripted oracle: the answers an outside service gives, in order. Past
   * the end of the script the service gives `default`.
   */
  function At<T>(script: seq<T>, k: nat, default: T): T {
    if k < |script| then script[k] else default
  }
}
