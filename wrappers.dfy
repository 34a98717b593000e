/** A value that may be absent: a storage key with nothing stored under it,
    or a JavaScript `null`. */
module Wrappers {

  datatype Option<T> = None | Some(value: T)
}
