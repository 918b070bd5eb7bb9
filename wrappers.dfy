/** The optional value used for unset fields and unbounded limits. */
module Wrappers {
  datatype Option<+T> = None | Some(value: T)
}
