/** A minimal optional-value type, used where a lookup or a parse can fail. */
module Wrappers {

  datatype Option<+T> = None | Some(value: T)
}
