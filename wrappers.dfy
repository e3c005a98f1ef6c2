/** Optional values, results with an error side, and Python truthiness, shared by the model. */
module Wrappers {

  /** A value that may be absent (Python's `None`). */
  datatype Option<+T> = None | Some(value: T)

  /** A computation that either yields a value or raises an error. */
  datatype Result<+R, +E> = Success(value: R) | Failure(error: E)

  /** Python truthiness of an optional string, list or dict: present and not empty. */
  predicate Truthy<T>(x: Option<seq<T>>)
  {
    x.Some? && |x.value| > 0
  }

  /** A check that either passes or raises an error, with no value. */
  datatype Outcome<+E> = Pass | Fail(error: E)
}
