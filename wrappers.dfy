/** A value that may be absent: the model's stand-in for the source's `0` meaning "no winner". */
module Wrappers {
  datatype Option<T> = None | Some(value: T)
}
