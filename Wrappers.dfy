/** An optional value: JavaScript's `undefined` (None) or a present value (Some). */
module Wrappers {
  datatype Option<+T> = None | Some(value: T)
}
