/** The failure-free option type the modules share. */
module Wrappers {

  datatype Option<+T> = None | Some(value: T)
}
