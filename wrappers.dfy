/** Optional values and results, shared by every module of the model. */
module Wrappers {

  /** A value that may be absent: a JavaScript `undefined` field or a row lookup that found nothing. */
  datatype Option<+T> = None | Some(value: T)

  /** The outcome of an operation that either returns a value or raises an error. */
  datatype Result<+T, +E> = Ok(value: T) | Err(error: E)
}
