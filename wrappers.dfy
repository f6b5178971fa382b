/** Swift's `Optional`, as the declaration model uses it. */
module Wrappers {

  datatype Option<+T> = None | Some(value: T)
}
