/** The optional-value datatype shared by the registry and the routing model. */
module Wrappers {

  /** A value that may be missing: Go's `(value, ok)` pairs and "parse failed" results. */
  datatype Option<+T> = None | Some(value: T)
}
