/** Types shared by the whole model. */
module Prelude {
  datatype Option<T> = None | Some(value: T)

  /** A clock reading, in nanoseconds. */
  type Time = int
}
