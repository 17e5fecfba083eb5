/** The optional value used for parses that can fail and for the last command sent to a device. */
module Wrappers {

  datatype Option<+T> = None | Some(value: T)
}
