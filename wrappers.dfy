/** The optional value shared by every module: a field, prop or payload entry that may be absent. */
module Wrappers {
  datatype Option<T> = None | Some(value: T)
}
