/** The optional value used where the dashboard works with `null` or with a
    call that may throw (JSON parsing). */
module Wrappers {

  datatype Option<+T> = None | Some(value: T)
}
