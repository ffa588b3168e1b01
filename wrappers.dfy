/** The optional value used wherever the source has a `?:` field or a nullable value. */
module Wrappers {

  datatype Option<+T> = None | Some(value: T)

}
