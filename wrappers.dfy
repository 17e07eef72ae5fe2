/** A value that may be missing (`null`/`undefined` in the source, or an
    absent map entry). */
module Wrappers {
  datatype Option<T> = None | Some(value: T)
}
