/** An optional value: a missing field, a result that may not exist. */
module Wrappers {

  datatype Option<+T> = None | Some(value: T)
}
