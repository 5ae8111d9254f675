/** The optional value the model uses for Swift's `T?`. */
module Wrappers {

  datatype Option<+T> = None | Some(value: T)
}
