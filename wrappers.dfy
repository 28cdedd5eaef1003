/** The optional value used for state that the relay starts without
    (the last route seen, the current correlation id). */
module Wrappers {
  datatype Option<+T> = None | Some(value: T)
}
