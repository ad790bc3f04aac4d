/** The optional value shared by the request parsers and the handler model. */
module Wrappers {
  datatype Option<T> = None | Some(value: T)
}
