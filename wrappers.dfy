/** The optional value used throughout the model for the source's `T | null`. */
module Wrappers {

  datatype Option<+T> = None | Some(value: T)
}
