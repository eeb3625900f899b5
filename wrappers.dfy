/** The absent-or-present value used for JavaScript's `null`/`undefined` slots. */
module Wrappers {
  datatype Option<+T> = None | Some(value: T)
}
