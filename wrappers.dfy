/// The optional value used for nullable graph properties and for lookups
/// that may find nothing (Python's `None`).
module Wrappers {

  datatype Option<+T> = None | Some(value: T)
}
