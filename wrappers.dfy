/** Option and Result, the two failure-carrying shapes the rest of the model uses. */
module Wrappers {

  /** `None` stands for JavaScript's `undefined` (or a missing entry), `Some(v)` for a present value. */
  datatype Option<+T> = None | Some(value: T)

  /** The outcome of an operation that may reject: `Ok(v)` resolves with `v`, `Err(e)` rejects with `e`. */
  datatype Result<+T, +E> = Ok(value: T) | Err(error: E)
}
