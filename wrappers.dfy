/** The optional value used wherever the application falls back to a default. */
module Wrappers {

  datatype Option<+T> = None | Some(value: T)
}
