/** A value that may be missing: an absent object key, a `find` that matched
    nothing, a failed remote call. */
module Wrappers {

  datatype Option<+T> = None | Some(value: T)
}
