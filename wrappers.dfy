/** The optional value shared by both models: Kotlin's nullable types. */
module Wrappers {

  datatype Option<T> = None | Some(value: T)
}
