/** The option type used by the partial table lookups. */
module Wrappers {
  datatype Option<+T> = None | Some(value: T)
}
