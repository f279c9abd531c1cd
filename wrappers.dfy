/** An optional value, used for unset settings, absent matches and missing
    stream handles alike. */
module Wrappers {
  datatype Option<T> = None | Some(value: T)
}
