/** The optional value returned by a model call whose output may be absent. */
module Wrappers {

  datatype Option<+T> = None | Some(value: T)
}
