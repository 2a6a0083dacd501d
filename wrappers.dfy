/** Optional values and results with an error, used throughout the model. */
module Wrappers {

  /** `None` stands for JavaScript's `undefined` (or an absent value). */
  datatype Option<+T> = None | Some(value: T)

  /** The outcome of an operation that can throw: `Err` carries what was thrown. */
  datatype Result<+T, +E> = Ok(value: T) | Err(error: E)
}
