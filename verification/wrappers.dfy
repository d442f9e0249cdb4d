/** Kotlin's nullable types (`T?`) are modelled by this Option datatype. */
module Wrappers {

  datatype Option<+T> = None | Some(value: T)

}
