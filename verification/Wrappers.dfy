// The one general-purpose datatype of the project: C's "pointer or NULL".
module Wrappers {
  datatype Option<+T> = None | Some(value: T)
}
