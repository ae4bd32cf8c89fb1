/** Optional values and results, as the source's `Option` and `Result`. */
module Wrappers {

  datatype Option<+T> = None | Some(value: T)

  datatype Result<+T, +E> = Success(value: T) | Failure(error: E)

  /** The outcome of a dispatchable: `Ok(())` or an error of the pallet. */
  datatype Outcome<+E> = Pass | Fail(error: E)
}
