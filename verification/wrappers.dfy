/** The usual Some/None datatype, used for the results of calls that may fail. */
module Wrappers {

  datatype Option<+T> = None | Some(value: T)
}
