/** The optional value used where the source returns None or aborts an operation. */
module Wrappers {
  datatype Option<+T> = None | Some(value: T)
}
