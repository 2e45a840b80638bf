/** The one optional value every module uses where the source returns or stores nothing. */
module Wrappers {
  datatype Option<T> = None | Some(value: T)
}
