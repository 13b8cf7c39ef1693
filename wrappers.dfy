/** Go's `error` interface value may be nil. The model writes such a value as
    an `Option`: `None` is the nil error, `Some(e)` a present one. */
module Wrappers {

  datatype Option<+T> = None | Some(value: T)

}
