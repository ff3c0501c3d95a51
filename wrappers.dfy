/** Option, for the optional arguments and the failure paths of the game code. */
module Wrappers {

  datatype Option<+T> = None | Some(value: T)
}
