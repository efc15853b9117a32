/** The optional value used for the source's null references and optional arguments. */
module Wrappers {
  datatype Option<T> = None | Some(value: T)
}
