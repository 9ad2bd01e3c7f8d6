/** The optional value used for empty handler slots and absent results. */
module Wrappers {
  datatype Option<T> = None | Some(value: T)
}
