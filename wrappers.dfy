/** An optional value, for outputs such as "the sound this frame would start, if any". */
module Wrappers {
  datatype Option<T> = None | Some(value: T)
}
