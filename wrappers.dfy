/** An optional value, for the screen's nullable state and for partial decoders. */
module Wrappers {
  datatype Option<+T> = None | Some(value: T)
}
