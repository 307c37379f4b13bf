/** Optional values and error returns shared by the screens. */
module Outcomes {

  /** A Kotlin nullable value, or a `lateinit` field that may not be set yet. */
  datatype Option<T> = None | Some(value: T)

  /** A computed value, or the message of the exception the source throws instead. */
  datatype Result<T, E> = Ok(value: T) | Err(error: E)
}
