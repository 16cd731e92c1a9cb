/** The optional value used wherever the Swift source has a `T?`. */
module Wrappers {

  datatype Option<+T> = None | Some(value: T)

}
