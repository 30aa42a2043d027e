/** Optional values and the two shapes of a Swift `throws`: a value or an error
    (`Result`), and success or an error for a call that returns nothing (`Outcome`). */
module Wrappers {

  datatype Option<+T> = None | Some(value: T)

  datatype Result<+T, +E> = Ok(value: T) | Err(error: E)

  datatype Outcome<+E> = Pass | Fail(error: E)
}
