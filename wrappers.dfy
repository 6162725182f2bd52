/** An optional value, shared by the modules whose lookups can come back empty. */
module Wrappers {
  datatype Option<T> = None | Some(value: T)
}
