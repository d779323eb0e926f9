/** The optional value used for the stores' nullable fields (`T | null`). */
module Wrappers {
  datatype Option<+T> = None | Some(value: T)
}
