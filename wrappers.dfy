/** A value that may be absent: a NaN from `parseInt`, an empty storage slot,
    a substring that does not occur. */
module Wrappers {

  datatype Option<+T> = None | Some(value: T)

}
