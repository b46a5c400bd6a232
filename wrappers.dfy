/** The optional value used for nullable references and pending timers. */
module Wrappers {
  datatype Option<+T> = None | Some(value: T)
}
