/** The optional-value datatype the rest of the model uses for pointers that may be null
    and for operations that may or may not yield a value. */
module Wrappers {
  datatype Option<+T> = None | Some(value: T)
}
