/** The optional value used wherever the source keeps `null` or an absent object. */
module Wrappers {
  datatype Option<+T> = None | Some(value: T)
}
