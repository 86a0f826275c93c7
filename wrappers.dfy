// Option and Result values shared by the modules of this model.

module Wrappers {

  /** A value that may be absent: a null pointer, a missing file, an empty slot. */
  datatype Option<T> = None | Some(value: T)
}
