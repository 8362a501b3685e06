// Shared optional value, the model of `T | null` and `T | undefined`.
module Wrappers {
  datatype Option<T> = None | Some(value: T)
}
