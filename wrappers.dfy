/** Rust's `Option`, used for the optional uid and for the validators' results. */
module Wrappers {

  datatype Option<+T> = None | Some(value: T)
}
