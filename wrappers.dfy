/** The optional value used for Go's nil-able results and `, ok` lookups. */
module Wrappers {
  datatype Option<+T> = None | Some(value: T)
}
