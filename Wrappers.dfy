/** A value that may be missing: the answer of a lookup that can fail, or the
    absence of a stored entry. */
module Wrappers {

  datatype Option<+T> = None | Some(value: T)
}
