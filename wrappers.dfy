/** Rust's `Option`, used for the optional error text and the optional selections. */
module Wrappers {
  datatype Option<+T> = None | Some(value: T)
}
