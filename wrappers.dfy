/** Small shared value types used across the model. */
module Wrappers {
  /** An optional value: a null pointer, an absent map entry or a failed search. */
  datatype Option<T> = None | Some(value: T)
}
