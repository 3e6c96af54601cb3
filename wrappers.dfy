/** An optional value: what a lookup that may find nothing returns. */
module Wrappers {
  datatype Option<+T> = None | Some(value: T)
}
