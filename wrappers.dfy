/** Swift optionals (`T?`): a value that may be absent (`nil`, or `NSNull` once serialised). */
module Wrappers {

  datatype Option<+T> = None | Some(value: T)
}
