/** Small shared datatypes: Kotlin's nullable values and operations that may throw. */
module Common {

  /** A Kotlin `T?`: `None` stands for `null`. */
  datatype Option<+T> = None | Some(value: T)

  /** The outcome of a Kotlin operation that either returns normally or throws `error`. */
  datatype Outcome<+E> = Pass | Fail(error: E)
}
