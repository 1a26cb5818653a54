/** The one optional value every module uses. */
module Wrappers {

  datatype Option<+T> = None | Some(value: T)
}
