/** The optional value used for Go's `(T, error)` and nil-able results. */
module Wrappers {

  datatype Option<+T> = None | Some(value: T)
}
