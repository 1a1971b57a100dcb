/** The optional value the Kotlin and C++ sources express with nullable types. */
module Wrappers {
  datatype Option<T> = None | Some(value: T)
}
