/** The optional-value type used across the model: `None` stands for Python's `None`
    or for a computation that raised. */
module Wrappers {
  datatype Option<+T> = None | Some(value: T)
}
