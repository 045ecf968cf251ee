/** The stock failure-free option type used for nullable pointers. */
module Wrappers {
  datatype Option<+T> = None | Some(value: T)
}
