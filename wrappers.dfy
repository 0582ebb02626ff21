/** Swift's `Optional`, written out as a datatype. */
module Wrappers {

  datatype Option<+T> = None | Some(value: T)
}
