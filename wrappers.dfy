/** Optional values, used where the source distinguishes "got a value" from "the call failed". */
module Wrappers {

  datatype Option<+T> = None | Some(value: T)
}
