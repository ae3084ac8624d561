/** The optional value used for SQL NULLs, nil pointers and absent cache entries. */
module Wrappers {
  datatype Option<+T> = None | Some(value: T)
}
