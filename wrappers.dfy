/** Optional values and results, used for JavaScript's `undefined` and for calls that may fail. */
module Wrappers {

  /** `None` stands for `undefined` (or `null`), `Some(v)` for a present value. */
  datatype Option<+T> = None | Some(value: T)

  /** The outcome of an awaited call: the resolved value or the rejection reason. */
  datatype Result<+T, +E> = Ok(value: T) | Err(error: E)
}
