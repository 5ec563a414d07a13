/** The optional value shared by the recorder's modules (a missing file, a missing attempt). */
module Wrappers {
  datatype Option<T> = None | Some(value: T)
}
