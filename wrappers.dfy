/** Nullable values of the Objective-C interface: `None` stands for `nil`. */
module Wrappers {

  datatype Option<+T> = None | Some(value: T)
}
