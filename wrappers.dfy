/** The optional value used for Go's nil-able results (an `error`, a `context.Context`). */
module Wrappers {

  datatype Option<+T> = None | Some(value: T)
}
