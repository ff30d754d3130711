/** Optional values: a database read that can come back empty (`None` in the
    source) and a dictionary key that may be missing. */
module Wrappers {

  datatype Option<+T> = None | Some(value: T)

  /** A handler's value, or the exception it raises. */
  datatype Result<+T, +E> = Ok(value: T) | Err(error: E)

  /** Python truthiness of an optional string: `None` and `""` are false. */
  predicate Truthy(s: Option<string>)
  {
    s.Some? && s.value != ""
  }
}
