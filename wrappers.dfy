/** Option and Result, the two failure-carrying shapes the rest of the model uses. */
module Wrappers {

  datatype Option<+T> = None | Some(value: T)

  datatype Result<+T, +E> = Ok(value: T) | Err(error: E)

  /** `d.get(key, default)` once the lookup has produced an `Option`. */
  function OrElse<T>(o: Option<T>, default: T): T {
    if o.Some? then o.value else default
  }
}
