/** The Option datatype used across the model for JavaScript's `null` / "absent" results. */
module Wrappers {

  datatype Option<+T> = None | Some(value: T)
}
