/** The one wrapper that contracts and off-chain code share. */
module Wrappers {
  datatype Option<+T> = None | Some(value: T)
}
