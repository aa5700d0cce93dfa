/** Optional values and results with an error, as the services and views return them. */
module Wrappers {

  /** A value that may be absent (`null` / `undefined` in the application). */
  datatype Option<+T> = None | Some(value: T)

  /** The outcome of a call that may fail (a thrown error in the application). */
  datatype Result<+T, +E> = Ok(value: T) | Err(error: E)
}
