/** The Option type used for lookups that may find nothing (Java's `null`). */
module Wrappers {

  datatype Option<+T> = None | Some(value: T)

}
