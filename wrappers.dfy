/** The conventional optional value, standing for a nil pointer in the game client. */
module Wrappers {
  datatype Option<+T> = None | Some(value: T)
}
