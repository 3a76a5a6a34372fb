/** Kotlin's nullable types (`T?`). */
module Nullable {

  /** A value of a Kotlin type `T?`: `None` stands for `null`. */
  datatype Option<+T> = None | Some(value: T)
}
