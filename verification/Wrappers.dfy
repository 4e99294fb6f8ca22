/** Values that may be absent: the engine's empty identifiers and nil references. */
module Wrappers {
  datatype Option<+T> = None | Some(value: T)
}
