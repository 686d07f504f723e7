/** An optional value: the response walk returns None when it gives up. */
module Wrappers {

  datatype Option<+T> = None | Some(value: T)
}
