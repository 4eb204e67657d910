/** The optional value used where the source returns null or a NaN date. */
module Wrappers {
  datatype Option<+T> = None | Some(value: T)
}
