/** Optional values and the outcome of code that may panic. */
module Wrappers {

  datatype Option<+T> = None | Some(value: T)

  /** The result of a Go computation that either returns a value or panics.
      A panic unwinds the whole build, so it carries only its message. */
  datatype Result<+T> = Ok(value: T) | Panic(message: string)
}
