/** Optional values and results: Kotlin's nullable types and thrown exceptions. */
module Options {

  /** A Kotlin `T?`: absent (`null`) or present. */
  datatype Option<+T> = None | Some(value: T)

  /** The outcome of a Kotlin call that may throw: its value, or the exception's message. */
  datatype Result<+T> = Ok(value: T) | Failure(message: string)
}
