/** The optional value used for state that exists only part of the time. */
module Wrappers {

  datatype Option<+T> = None | Some(value: T)
}
