/** What the model uses in place of an empty optional. */
module Wrappers {
  datatype Option<+T> = None | Some(value: T)
}
