/** An optional value: Python's `None` where a value was possible. */
module Wrappers {
  datatype Option<+T> = None | Some(value: T)
}
