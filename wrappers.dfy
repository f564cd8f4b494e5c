/** The optional value used for Swift's `T?` fields. */
module Wrappers {

  datatype Option<+T> = None | Some(value: T)
}
