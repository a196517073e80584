/** The optional value used throughout: a Go channel of capacity one, a map
    lookup that may miss, a step that may not be enabled. */
module Wrappers {
  datatype Option<+T> = None | Some(value: T)
}
