/** An optional value: a JSON field or a document path that may be absent. */
module Wrappers {

  datatype Option<+T> = None | Some(value: T)
}
