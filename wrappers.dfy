/** Python's `None` for the fields and host readings that may be missing. */
module Wrappers {

  datatype Option<+T> = None | Some(value: T)
}
