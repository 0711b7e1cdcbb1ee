/** The optional value used where a foreign call may fail. */
module Wrappers {

  datatype Option<+T> = None | Some(value: T)
}
