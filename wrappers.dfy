/** Small failure-carrying datatypes shared by the engine and its adapters. */
module Wrappers {

  /** An optional value: the capacity-1 error slot, or a file read that may fail. */
  datatype Option<T> = None | Some(value: T)

  /** A value or an error: Go's `(R, error)` return pair, with exactly one side meaningful. */
  datatype Result<V, E> = Ok(value: V) | Err(error: E)
}
