/** Optional values: the descriptor passed to close(), the frame a transmit pass took, the outcome of a receive pass. */
module Wrappers {
  datatype Option<+T> = None | Some(value: T)
}
